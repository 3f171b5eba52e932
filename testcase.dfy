/**
 * Model of src/nbquiz/testcase.py, the variant of the question classes in which a question names its
 * own cell tag (`celltag`, defaulting to `@` and the class name), may name the tested attribute
 * (`name`, or the whole cell when it is `None`), and carries selection `tags`.
 */
module TestCase {
  import opened Strings
  import opened PyModel
  import Question

  // ================================================================ validate

  /** The tag `validate()` stores in `_celltag` (testcase.py:102-105). */
  function DefaultTag(celltag: Value, name: string): (r: Value)
    ensures celltag != VNone ==> r == celltag
    ensures celltag == VNone ==> r == VStr(Question.Cellid(name))
  {
    if celltag == VNone then VStr("@" + name) else celltag
  }

  /** The checks of `FunctionQuestion.validate` (testcase.py:217-221) before the base checks. */
  function FunctionPrechecks(attrs: map<string, Value>): Result<()>
  {
    if "name" !in attrs then Err(AttributeError("name"))
    else if attrs["name"] == VNone then Err(AssertionError(NameRequired))
    else
      var res := Question.Resolve(attrs, false);
      if res.Err? then Err(res.error) else Ok(())
  }

  /** The three iterable checks of `TestQuestion.validate` (testcase.py:93-101). */
  function IterableChecks(attrs: map<string, Value>): (r: Result<()>)
    ensures r.Ok? <==> "tokens_required" in attrs && IsIterable(attrs["tokens_required"])
                       && "tokens_forbidden" in attrs && IsIterable(attrs["tokens_forbidden"])
                       && "tags" in attrs && IsIterable(attrs["tags"])
  {
    var a := Question.CheckIterable(attrs, "tokens_required");
    if a.Err? then a
    else
      var b := Question.CheckIterable(attrs, "tokens_forbidden");
      if b.Err? then b else Question.CheckIterable(attrs, "tags")
  }

  /** What `validate()` reports and the class dictionary it leaves (testcase.py:87-112 with the
      overrides at 217-221 and 247-251). `_celltag` is assigned once the iterable checks pass, before
      the docstring is checked. */
  function ValidateOutcome(kind: Kind, name: string, inherited: map<string, Value>, own: map<string, Value>,
                           env: Env): (Result<()>, map<string, Value>)
  {
    var own1 := if kind == CellKind then own["name" := VStr("_cell_wrapper")] else own;
    var attrs1 := inherited + own1;
    var pre := if kind == QuestionKind then Ok(()) else FunctionPrechecks(attrs1);
    if pre.Err? then (pre, own1)
    else
      var it := IterableChecks(attrs1);
      if it.Err? then (it, own1)
      else if "celltag" !in attrs1 then (Err(AttributeError("celltag")), own1)
      else
        var own2 := own1["_celltag" := DefaultTag(attrs1["celltag"], name)];
        (Question.DocCheck(inherited + own2, env), own2)
  }

  /** `validate()` as it runs on the class object. */
  method Validate(c: PyClass, env: Env) returns (r: Result<()>)
    modifies c
    ensures (r, c.own) == ValidateOutcome(c.kind, c.name, c.inherited, old(c.own), env)
  {
    if c.kind == CellKind {
      c.own := c.own["name" := VStr("_cell_wrapper")];
    }
    if c.kind != QuestionKind {
      var attrs := c.Attrs();
      if "name" !in attrs {
        return Err(AttributeError("name"));
      }
      if attrs["name"] == VNone {
        return Err(AssertionError(NameRequired));
      }
      var res := Question.ResolveAnnotations(attrs, false);
      if res.Err? {
        return Err(res.error);
      }
    }
    var attrs := c.Attrs();
    r := IterableChecks(attrs);
    if r.Err? {
      return;
    }
    if "celltag" !in attrs {
      return Err(AttributeError("celltag"));
    }
    c.own := c.own["_celltag" := DefaultTag(attrs["celltag"], c.name)];
    r := Question.DocCheck(c.Attrs(), env);
  }

  /** Every requirement of `validate()`, independent of the order of the checks. */
  predicate WellFormed(kind: Kind, name: string, inherited: map<string, Value>, own: map<string, Value>, env: Env)
  {
    var own1 := if kind == CellKind then own["name" := VStr("_cell_wrapper")] else own;
    var attrs1 := inherited + own1;
    && (kind != QuestionKind ==>
          && "name" in attrs1 && attrs1["name"] != VNone
          && "annotations" in attrs1 && attrs1["annotations"].VDict?
          && Question.AllResolvable(attrs1["annotations"].entries, attrs1, false))
    && "tokens_required" in attrs1 && IsIterable(attrs1["tokens_required"])
    && "tokens_forbidden" in attrs1 && IsIterable(attrs1["tokens_forbidden"])
    && "tags" in attrs1 && IsIterable(attrs1["tags"])
    && "celltag" in attrs1
    && var attrs2 := inherited + own1["_celltag" := DefaultTag(attrs1["celltag"], name)];
       "__doc__" in attrs2 && attrs2["__doc__"].VStr?
       && Format(attrs2["__doc__"].s, Question.Rendered(attrs2, env)).Formatted?
  }

  /** `validate()` passes exactly when the class is well formed. */
  lemma ValidateIff(kind: Kind, name: string, inherited: map<string, Value>, own: map<string, Value>, env: Env)
    ensures ValidateOutcome(kind, name, inherited, own, env).0.Ok? <==> WellFormed(kind, name, inherited, own, env)
  {
    var own1 := if kind == CellKind then own["name" := VStr("_cell_wrapper")] else own;
    var attrs1 := inherited + own1;
    var pre := if kind == QuestionKind then Ok(()) else FunctionPrechecks(attrs1);
    assert pre.Ok? <==> (kind != QuestionKind ==>
          && "name" in attrs1 && attrs1["name"] != VNone
          && "annotations" in attrs1 && attrs1["annotations"].VDict?
          && Question.AllResolvable(attrs1["annotations"].entries, attrs1, false)) by {
      if kind != QuestionKind && "annotations" in attrs1 && attrs1["annotations"].VDict? {
        Question.ResolveOkIff([], attrs1["annotations"].entries, attrs1, false);
      }
    }
    if pre.Ok? && IterableChecks(attrs1).Ok? && "celltag" in attrs1 {
      var own2 := own1["_celltag" := DefaultTag(attrs1["celltag"], name)];
      assert ValidateOutcome(kind, name, inherited, own, env).0 == Question.DocCheck(inherited + own2, env);
    }
  }

  /** Once `validate()` has passed, `_celltag` holds the class's `celltag`, or `@` and the class name
      when that is `None`. */
  lemma ValidatedCelltag(kind: Kind, name: string, inherited: map<string, Value>, own: map<string, Value>, env: Env)
    requires ValidateOutcome(kind, name, inherited, own, env).0.Ok?
    ensures var own' := ValidateOutcome(kind, name, inherited, own, env).1;
            var celltag := (inherited + own')["celltag"];
            "_celltag" in own' && own'["_celltag"] == (if celltag == VNone then VStr("@" + name) else celltag)
  {
    var own1 := if kind == CellKind then own["name" := VStr("_cell_wrapper")] else own;
    var attrs1 := inherited + own1;
    var own2 := own1["_celltag" := DefaultTag(attrs1["celltag"], name)];
    assert ValidateOutcome(kind, name, inherited, own, env).1 == own2;
    assert (inherited + own2)["celltag"] == attrs1["celltag"];
  }

  // ================================================================ __init__

  /** `__init__` (testcase.py:41-52): validates, then fetches the cell tagged `_celltag`. */
  method NewCase(c: PyClass, doc: map<string, CellEntry>, env: Env) returns (r: Result<TestInstance>)
    modifies c
    ensures (ValidateOutcome(c.kind, c.name, c.inherited, old(c.own), env).1) == c.own
    ensures var v := ValidateOutcome(c.kind, c.name, c.inherited, old(c.own), env).0;
            if v.Err? then r == Err(v.error)
            else
              var tag := c.own["_celltag"];
              if tag.VStr? && tag.s in doc then
                r.Ok? && fresh(r.value) && r.value.cls == c && r.value.solutionCell == Some(doc[tag.s])
                && r.value.solution.None?
              else r == Err(AssertionError(NoCellWithTag(tag)))
  {
    var v := Validate(c, env);
    if v.Err? {
      return Err(v.error);
    }
    var tag := c.own["_celltag"];
    if !(tag.VStr? && tag.s in doc) {
      return Err(AssertionError(NoCellWithTag(tag)));
    }
    var t := new TestInstance(c, Some(doc[tag.s]));
    r := Ok(t);
  }

  // ================================================================ setUp

  /** The name stage of `TestQuestion.setUp` (testcase.py:73-83): the tested attribute must be private
      or defined by the cell, and bound in its namespace; without a name the cell itself is the
      solution. */
  function NameStage(attrs: map<string, Value>, cell: CellEntry, ns: map<string, Value>): (r: Result<Solution>)
    ensures r.Ok? ==> "name" in attrs
                      && (attrs["name"] == VNone ==> r.value == SEntry(cell))
                      && (attrs["name"] != VNone ==> attrs["name"].VStr? && attrs["name"].s in ns
                                                     && r.value == SValue(ns[attrs["name"].s]))
    ensures "name" in attrs && attrs["name"].VStr? ==>
              (r.Ok? <==> (StartsWith(attrs["name"].s, "_") || attrs["name"].s in cell.assignments
                           || attrs["name"].s in cell.functions || attrs["name"].s in cell.classes)
                          && attrs["name"].s in ns)
  {
    if "name" !in attrs then Err(AttributeError("name"))
    else
      var n := attrs["name"];
      if n == VNone then Ok(SEntry(cell))
      else if !n.VStr? then Err(AttributeError("startswith"))
      else if !(StartsWith(n.s, "_") || n.s in cell.assignments || n.s in cell.functions || n.s in cell.classes) then
        Err(AssertionError(NameNotDefined(n)))
      else if n.s !in ns then Err(AssertionError(NotDefined(n)))
      else Ok(SValue(ns[n.s]))
  }

  /** `TestQuestion.setUp` (testcase.py:54-85): the syntax check, then the name stage. */
  method SetUp(t: TestInstance) returns (r: Result<()>)
    requires t.solutionCell.Some?
    modifies t
    ensures t.solutionCell == old(t.solutionCell)
    ensures var attrs := t.cls.Attrs();
            var cell := t.solutionCell.value;
            var syn := Question.SyntaxCheck(attrs, cell.kinds);
            var st := NameStage(attrs, cell, cell.ns);
            if syn.Err? then r == syn && t.solution == old(t.solution)
            else if st.Err? then r == Err(st.error) && t.solution == old(t.solution)
            else r == Ok(()) && t.solution == Some(st.value)
  {
    var attrs := t.cls.Attrs();
    var cell := t.solutionCell.value;
    r := Question.SyntaxCheck(attrs, cell.kinds);
    if r.Err? {
      return;
    }
    var st := NameStage(attrs, cell, cell.ns);
    if st.Err? {
      return Err(st.error);
    }
    t.solution := Some(st.value);
  }

  /** The checks of `FunctionQuestion.setUp` (testcase.py:171-190) on the solution the base found. */
  function FunctionChecks(attrs: map<string, Value>, cell: CellEntry, sol: Solution): Result<()>
    requires "name" in attrs
  {
    var name := attrs["name"];
    if !(sol.SValue? && IsCallable(sol.v)) then Err(AssertionError(NotCallable(name)))
    else if "annotations" !in attrs then Err(AttributeError("annotations"))
    else if attrs["annotations"] == VNone then Err(AssertionError(AnnotationsNone))
    else if !name.VStr? then Err(AttributeError("startswith"))
    else if StartsWith(name.s, "_") then Ok(())
    else Question.ArgumentCheck(name, cell.functions, Question.Resolve(attrs, false))
  }

  /** `FunctionQuestion.setUp` (testcase.py:169-202): the base setUp, the function checks, then the
      solution is wrapped in a return-type check that always asks `isinstance`. */
  method FunctionSetUp(t: TestInstance) returns (r: Result<()>)
    requires t.solutionCell.Some?
    modifies t
    ensures t.solutionCell == old(t.solutionCell)
    ensures var attrs := t.cls.Attrs();
            var cell := t.solutionCell.value;
            var syn := Question.SyntaxCheck(attrs, cell.kinds);
            var st := NameStage(attrs, cell, cell.ns);
            if syn.Err? then r == syn && t.solution == old(t.solution)
            else if st.Err? then r == Err(st.error) && t.solution == old(t.solution)
            else
              var chk := FunctionChecks(attrs, cell, st.value);
              if chk.Err? then r == chk && t.solution == Some(st.value)
              else r == Ok(()) && t.solution == Some(SValue(VChecked(st.value.v, attrs["name"], attrs["annotations"], false)))
  {
    r := SetUp(t);
    if r.Err? {
      return;
    }
    var attrs := t.cls.Attrs();
    var cell := t.solutionCell.value;
    var sol := t.solution.value;
    var name := attrs["name"];
    if !(sol.SValue? && IsCallable(sol.v)) {
      return Err(AssertionError(NotCallable(name)));
    }
    if "annotations" !in attrs {
      return Err(AttributeError("annotations"));
    }
    if attrs["annotations"] == VNone {
      return Err(AssertionError(AnnotationsNone));
    }
    if !name.VStr? {
      return Err(AttributeError("startswith"));
    }
    if !StartsWith(name.s, "_") {
      var resolved := Question.ResolveAnnotations(attrs, false);
      r := Question.ArgumentCheck(name, cell.functions, resolved);
      if r.Err? {
        return;
      }
    }
    t.solution := Some(SValue(VChecked(sol.v, name, attrs["annotations"], false)));
    r := Ok(());
  }

  /** Unlike src/nbquiz/question.py, this wrapper cannot check a function annotated to return `None`:
      `isinstance(rval, None)` raises `TypeError` whatever the function returns. */
  lemma NoneAnnotationAlwaysRaises(w: Value, rval: Value)
    requires w.VChecked? && !w.noneMeansNone && w.annotations.VDict?
    requires Get(w.annotations.entries, VStr("return")) == Some(VNone)
    ensures Question.CallChecked(w, rval) == Err(TypeError)
  {
  }

  /** `CellQuestion.setUp` (testcase.py:229-245): every argument must be an assigned variable, then
      `_cell_wrapper` is installed and `FunctionQuestion.setUp` runs. */
  method CellSetUp(t: TestInstance) returns (r: Result<()>)
    requires t.solutionCell.Some?
    modifies t, t.solutionCell.value
    ensures t.solutionCell == old(t.solutionCell)
    ensures var attrs := t.cls.Attrs();
            var cell := t.solutionCell.value;
            var res := Question.Resolve(attrs, false);
            if res.Err? then r == Err(res.error) && t.solution == old(t.solution) && cell.ns == old(cell.ns)
            else
              var argnames := Question.ArgNames(res.value);
              var k := Question.FirstUnassigned(cell, argnames);
              if k < |argnames| then
                r == Err(AssertionError(NeverAssigned(argnames[k]))) && t.solution == old(t.solution)
                && cell.ns == old(cell.ns)
              else
                cell.ns == old(cell.ns)["_cell_wrapper" := VCellWrapper(argnames)]
                && var syn := Question.SyntaxCheck(attrs, cell.kinds);
                   var st := NameStage(attrs, cell, cell.ns);
                   if syn.Err? then r == syn && t.solution == old(t.solution)
                   else if st.Err? then r == Err(st.error) && t.solution == old(t.solution)
                   else
                     var chk := FunctionChecks(attrs, cell, st.value);
                     if chk.Err? then r == chk && t.solution == Some(st.value)
                     else r == Ok(()) && t.solution == Some(SValue(VChecked(st.value.v, attrs["name"], attrs["annotations"], false)))
  {
    var attrs := t.cls.Attrs();
    var cell := t.solutionCell.value;
    var resolved := Question.ResolveAnnotations(attrs, false);
    if resolved.Err? {
      return Err(resolved.error);
    }
    var argnames := Question.ArgNames(resolved.value);
    var i := 0;
    while i < |argnames|
      invariant 0 <= i <= |argnames|
      invariant forall j :: 0 <= j < i ==> Question.Assigned(cell, argnames[j])
    {
      if !Question.Assigned(cell, argnames[i]) {
        assert Question.FirstUnassigned(cell, argnames) == i;
        return Err(AssertionError(NeverAssigned(argnames[i])));
      }
      i := i + 1;
    }
    assert Question.FirstUnassigned(cell, argnames) == |argnames|;
    cell.ns := cell.ns["_cell_wrapper" := VCellWrapper(argnames)];
    r := FunctionSetUp(t);
  }

  // ================================================================ question text

  /** `question()` (testcase.py:114-127) of a class whose `validate()` has run: the instruction names
      `str(_celltag)`. */
  function QuestionTextSpec(attrs: map<string, Value>, env: Env): Result<string>
  {
    if "__doc__" !in attrs then Err(AttributeError("__doc__"))
    else if !attrs["__doc__"].VStr? then Err(TypeError)
    else
      match Format(Dedent(attrs["__doc__"].s), Question.Backticked(attrs, env))
      case MissingKey(k) => Err(KeyError(VStr(k)))
      case Malformed => Err(ValueError("invalid format string"))
      case Positional => Err(IndexError)
      case Formatted(body) =>
        if "_celltag" !in attrs then Err(AttributeError("_celltag"))
        else Ok("\n" + body + Question.Instruction(Str(env, attrs["_celltag"])))
  }

  method QuestionText(c: PyClass, env: Env) returns (r: Result<string>)
    modifies c
    ensures var (v, own') := ValidateOutcome(c.kind, c.name, c.inherited, old(c.own), env);
            c.own == own' && r == (if v.Err? then Err(v.error) else QuestionTextSpec(c.Attrs(), env))
  {
    var v := Validate(c, env);
    if v.Err? {
      return Err(v.error);
    }
    r := QuestionTextSpec(c.Attrs(), env);
  }

  /** A valid question whose replacement fields close on the lines they open on always renders:
      a newline, the dedented docstring formatted with every attribute in backticks, and the
      instruction naming the tag `validate()` derived. */
  lemma ValidQuestionRenders(kind: Kind, name: string, inherited: map<string, Value>, own: map<string, Value>, env: Env)
    requires ValidateOutcome(kind, name, inherited, own, env).0.Ok?
    requires var attrs := inherited + ValidateOutcome(kind, name, inherited, own, env).1;
             "__doc__" in attrs && attrs["__doc__"].VStr? && FieldsWithinLines(attrs["__doc__"].s)
    ensures var own' := ValidateOutcome(kind, name, inherited, own, env).1;
            var attrs := inherited + own';
            var f := Format(Dedent(attrs["__doc__"].s), Question.Backticked(attrs, env));
            f.Formatted? && QuestionTextSpec(attrs, env) == Ok("\n" + f.text + Question.Instruction(Str(env, own'["_celltag"])))
  {
    ValidateIff(kind, name, inherited, own, env);
    ValidatedCelltag(kind, name, inherited, own, env);
    var own' := ValidateOutcome(kind, name, inherited, own, env).1;
    var attrs := inherited + own';
    var doc := attrs["__doc__"].s;
    FormatDependsOnKeys(doc, Question.Rendered(attrs, env), Question.Backticked(attrs, env));
    FormatDedent(doc, Question.Backticked(attrs, env));
  }

  // ================================================================ variant

  /** The variant name of testcase.py:138-139: any false `classname` (`None`, `""`, ...) is replaced
      by the derived name. */
  function VariantName(base: string, classname: Value, params: seq<(string, Value)>, env: Env): Value
  {
    if !Truthy(classname) then VStr(base + "_" + Take(env.sha1Hex(base + Question.FeedAll(params, env)), 4))
    else classname
  }

  /** An empty `classname` is used verbatim by src/nbquiz/question.py but replaced by a derived name
      here. */
  lemma EmptyClassnameDerives(base: string, params: seq<(string, Value)>, env: Env)
    ensures Question.VariantName(base, VStr(""), params, env) == VStr("")
    ensures VariantName(base, VStr(""), params, env) == Question.VariantName(base, VNone, params, env)
    ensures VariantName(base, VStr(""), params, env) != VStr("")
  {
  }

  /** `variant()` (testcase.py:129-150). */
  method Variant(c: PyClass, classname: Value, extra: seq<Question.BaseClass>, params: seq<(string, Value)>, env: Env)
      returns (r: Result<PyClass>)
    modifies c
    ensures var (v, own') := ValidateOutcome(c.kind, c.name, c.inherited, old(c.own), env);
            c.own == own'
            && var n := VariantName(c.name, classname, params, env);
               var inh := Question.ExtraAttrs(extra) + c.inherited;
               var locals := own' + Question.ParamMap(params);
               (r.Ok? <==> v.Ok? && n.VStr? && ValidateOutcome(c.kind, n.s, inh, locals, env).0.Ok?)
               && (r.Ok? ==> fresh(r.value) && r.value.name == n.s && r.value.kind == c.kind
                             && !r.value.framework && r.value.bases == c.bases + Question.BaseNames(extra)
                             && r.value.inherited == inh
                             && r.value.own == ValidateOutcome(c.kind, n.s, inh, locals, env).1)
  {
    var v := Validate(c, env);
    if v.Err? {
      return Err(v.error);
    }
    var fed := Question.HashInput(c.name, params, env);
    var n := if !Truthy(classname) then VStr(c.name + "_" + Take(env.sha1Hex(fed), 4)) else classname;
    assert n == VariantName(c.name, classname, params, env);
    if !n.VStr? {
      return Err(TypeError);
    }
    var locals := c.own + Question.ParamMap(params);
    var nt := new PyClass(n.s, c.kind, false, c.bases + Question.BaseNames(extra),
                          Question.ExtraAttrs(extra) + c.inherited, locals);
    var v2 := Validate(nt, env);
    if v2.Err? {
      return Err(v2.error);
    }
    r := Ok(nt);
  }
}
