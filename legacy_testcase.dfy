/**
 * Model of nbquiz/testcase.py, the older question classes: class checks happen in `validate_class`,
 * the solution cell is fetched in `setUp`, and `validate_instance` turns the cell into the value a
 * test sees in `self.solution`.
 */
module LegacyTestCase {
  import opened Strings
  import opened PyModel
  import Question
  import TestCase

  // ================================================================ validate_class

  /** `validate_class()` (nbquiz/testcase.py:81-95 with the overrides at 158-161 and 218-221): a
      `CellQuestion` names its solution `_cell_wrapper`, a function question needs a name, all three
      token lists must be iterable, and `_celltag` is assigned last. */
  function ValidateClassOutcome(kind: Kind, name: string, inherited: map<string, Value>,
                                own: map<string, Value>): (Result<()>, map<string, Value>)
  {
    var own1 := if kind == CellKind then own["name" := VStr("_cell_wrapper")] else own;
    var attrs1 := inherited + own1;
    if kind != QuestionKind && "name" !in attrs1 then (Err(AttributeError("name")), own1)
    else if kind != QuestionKind && attrs1["name"] == VNone then (Err(AssertionError(NameRequired)), own1)
    else
      var it := TestCase.IterableChecks(attrs1);
      if it.Err? then (it, own1)
      else if "celltag" !in attrs1 then (Err(AttributeError("celltag")), own1)
      else (Ok(()), own1["_celltag" := TestCase.DefaultTag(attrs1["celltag"], name)])
  }

  method ValidateClass(c: PyClass) returns (r: Result<()>)
    modifies c
    ensures (r, c.own) == ValidateClassOutcome(c.kind, c.name, c.inherited, old(c.own))
  {
    if c.kind == CellKind {
      c.own := c.own["name" := VStr("_cell_wrapper")];
    }
    var attrs := c.Attrs();
    if c.kind != QuestionKind {
      if "name" !in attrs {
        return Err(AttributeError("name"));
      }
      if attrs["name"] == VNone {
        return Err(AssertionError(NameRequired));
      }
    }
    r := TestCase.IterableChecks(attrs);
    if r.Err? {
      return;
    }
    if "celltag" !in attrs {
      return Err(AttributeError("celltag"));
    }
    c.own := c.own["_celltag" := TestCase.DefaultTag(attrs["celltag"], c.name)];
  }

  // ================================================================ validate_instance

  /** `FunctionQuestion.validate_instance` (nbquiz/testcase.py:163-193) on the cell and its namespace:
      the attribute found by the base, the function checks, then the checking wrapper. */
  function FunctionInstanceOutcome(attrs: map<string, Value>, cell: CellEntry, ns: map<string, Value>): Result<Solution>
  {
    var st := TestCase.NameStage(attrs, cell, ns);
    if st.Err? then Err(st.error)
    else
      var name := attrs["name"];
      var sol := st.value;
      if !(sol.SValue? && IsCallable(sol.v)) then Err(AssertionError(NotCallable(name)))
      else if "annotations" !in attrs then Err(AttributeError("annotations"))
      else if attrs["annotations"] == VNone then Err(AssertionError(AnnotationsNone))
      else if !name.VStr? then Err(AttributeError("startswith"))
      else
        var chk := if StartsWith(name.s, "_") then Ok(())
                   else Question.ArgumentCheck(name, cell.functions, Question.Resolve(attrs, true));
        if chk.Err? then Err(chk.error)
        else Ok(SValue(VChecked(sol.v, name, attrs["annotations"], false)))
  }

  /** A function question yields the wrapper exactly when the base finds a callable value, the
      annotations are set, and a public name's function has the annotated parameters. */
  lemma FunctionInstanceIff(attrs: map<string, Value>, cell: CellEntry, ns: map<string, Value>)
    requires "name" in attrs && attrs["name"].VStr? && "annotations" in attrs
    ensures var n := attrs["name"].s;
            FunctionInstanceOutcome(attrs, cell, ns).Ok?
            <==> TestCase.NameStage(attrs, cell, ns).Ok? && IsCallable(ns[n]) && attrs["annotations"] != VNone
                 && (!StartsWith(n, "_") ==> Question.ArgumentCheck(attrs["name"], cell.functions, Question.Resolve(attrs, true)).Ok?)
    ensures FunctionInstanceOutcome(attrs, cell, ns).Ok? ==>
              FunctionInstanceOutcome(attrs, cell, ns).value
              == SValue(VChecked(ns[attrs["name"].s], attrs["name"], attrs["annotations"], false))
  {
  }

  /** `CellQuestion.validate_instance` (nbquiz/testcase.py:223-238): the outcome and the cell's new
      namespace. */
  function CellInstanceOutcome(attrs: map<string, Value>, cell: CellEntry, ns: map<string, Value>)
      : (Result<Solution>, map<string, Value>)
  {
    var res := Question.Resolve(attrs, true);
    if res.Err? then (Err(res.error), ns)
    else
      var argnames := Question.ArgNames(res.value);
      var k := Question.FirstUnassigned(cell, argnames);
      if k < |argnames| then (Err(AssertionError(NeverAssigned(argnames[k]))), ns)
      else
        var ns' := ns["_cell_wrapper" := VCellWrapper(argnames)];
        (FunctionInstanceOutcome(attrs, cell, ns'), ns')
  }

  method CellValidateInstance(attrs: map<string, Value>, cell: CellEntry) returns (r: Result<Solution>)
    modifies cell
    ensures (r, cell.ns) == CellInstanceOutcome(attrs, cell, old(cell.ns))
  {
    var resolved := Question.ResolveAnnotations(attrs, true);
    if resolved.Err? {
      return Err(resolved.error);
    }
    var argnames := Question.ArgNames(resolved.value);
    var i := 0;
    while i < |argnames|
      invariant 0 <= i <= |argnames|
      invariant forall j :: 0 <= j < i ==> Question.Assigned(cell, argnames[j])
    {
      if !Question.Assigned(cell, argnames[i]) {
        assert Question.FirstUnassigned(cell, argnames) == i;
        return Err(AssertionError(NeverAssigned(argnames[i])));
      }
      i := i + 1;
    }
    assert Question.FirstUnassigned(cell, argnames) == |argnames|;
    cell.ns := cell.ns["_cell_wrapper" := VCellWrapper(argnames)];
    r := FunctionInstanceOutcome(attrs, cell, cell.ns);
  }

  /** The `_cell_wrapper` a cell question installs is always found by its own name check: the name
      is private and bound, so a cell that assigns every argument yields the checking wrapper once
      the annotations are set. */
  lemma CellWrapperIsFound(attrs: map<string, Value>, cell: CellEntry, ns: map<string, Value>, argnames: seq<Value>)
    requires "name" in attrs && attrs["name"] == VStr("_cell_wrapper")
    requires "annotations" in attrs && attrs["annotations"] != VNone
    requires Question.Resolve(attrs, true).Ok? && argnames == Question.ArgNames(Question.Resolve(attrs, true).value)
    requires forall i :: 0 <= i < |argnames| ==> Question.Assigned(cell, argnames[i])
    ensures CellInstanceOutcome(attrs, cell, ns).0
            == Ok(SValue(VChecked(VCellWrapper(argnames), VStr("_cell_wrapper"), attrs["annotations"], false)))
  {
    assert StartsWith("_cell_wrapper", "_");
  }

  // ================================================================ setUp

  /** `setUp` (nbquiz/testcase.py:42-63): validates the class, fetches the cell tagged `_celltag`,
      checks the syntax, then `validate_instance` replaces the cell in `self.solution` by the value
      under test. */
  method SetUp(t: TestInstance, doc: map<string, CellEntry>, env: Env) returns (r: Result<()>)
    modifies t, t.cls, doc.Values
    ensures var (v, own') := ValidateClassOutcome(t.cls.kind, t.cls.name, t.cls.inherited, old(t.cls.own));
            t.cls.own == own'
            && if v.Err? then r == v && t.solution == old(t.solution)
               else
                 var tag := own'["_celltag"];
                 if !(tag.VStr? && tag.s in doc) then
                   r == Err(AssertionError(NoCellWithTag(tag))) && t.solution == old(t.solution)
                 else
                   var cell := doc[tag.s];
                   var attrs := t.cls.Attrs();
                   var syn := Question.SyntaxCheck(attrs, cell.kinds);
                   if syn.Err? then r == syn && t.solution == Some(SEntry(cell))
                   else
                     var (inst, ns') :=
                       if t.cls.kind == CellKind then CellInstanceOutcome(attrs, cell, old(cell.ns))
                       else if t.cls.kind == FunctionKind then (FunctionInstanceOutcome(attrs, cell, old(cell.ns)), old(cell.ns))
                       else (TestCase.NameStage(attrs, cell, old(cell.ns)), old(cell.ns));
                     cell.ns == ns'
                     && if inst.Err? then r == Err(inst.error) && t.solution == Some(SEntry(cell))
                        else r == Ok(()) && t.solution == Some(inst.value)
  {
    var v := ValidateClass(t.cls);
    if v.Err? {
      return v;
    }
    var tag := t.cls.own["_celltag"];
    if !(tag.VStr? && tag.s in doc) {
      return Err(AssertionError(NoCellWithTag(tag)));
    }
    var cell := doc[tag.s];
    t.solution := Some(SEntry(cell));
    var attrs := t.cls.Attrs();
    r := Question.SyntaxCheck(attrs, cell.kinds);
    if r.Err? {
      return;
    }
    var inst: Result<Solution>;
    if t.cls.kind == CellKind {
      inst := CellValidateInstance(attrs, cell);
    } else if t.cls.kind == FunctionKind {
      inst := FunctionInstanceOutcome(attrs, cell, cell.ns);
    } else {
      inst := TestCase.NameStage(attrs, cell, cell.ns);
    }
    if inst.Err? {
      return Err(inst.error);
    }
    t.solution := Some(inst.value);
    r := Ok(());
  }

  // ================================================================ question text

  /** `question()` (nbquiz/testcase.py:97-107) after `validate_class()`: the docstring is rendered with
      the attribute values as they are, without backticks. */
  function QuestionTextSpec(attrs: map<string, Value>, env: Env): Result<string>
  {
    if "__doc__" !in attrs then Err(AttributeError("__doc__"))
    else if !attrs["__doc__"].VStr? then Err(TypeError)
    else
      match Format(Dedent(attrs["__doc__"].s), Question.Rendered(attrs, env))
      case MissingKey(k) => Err(KeyError(VStr(k)))
      case Malformed => Err(ValueError("invalid format string"))
      case Positional => Err(IndexError)
      case Formatted(body) =>
        if "_celltag" !in attrs then Err(AttributeError("_celltag"))
        else Ok("\n" + body + Question.Instruction(Str(env, attrs["_celltag"])))
  }

  method QuestionText(c: PyClass, env: Env) returns (r: Result<string>)
    modifies c
    ensures var (v, own') := ValidateClassOutcome(c.kind, c.name, c.inherited, old(c.own));
            c.own == own' && r == (if v.Err? then Err(v.error) else QuestionTextSpec(c.Attrs(), env))
  {
    var v := ValidateClass(c);
    if v.Err? {
      return Err(v.error);
    }
    r := QuestionTextSpec(c.Attrs(), env);
  }

  /** Since `validate_class` does not check the docstring, `question()` is where a docstring naming a
      missing variable fails, with the bare `KeyError`. */
  lemma QuestionTextReportsMissingKey(attrs: map<string, Value>, env: Env, a: string, k: string, b: string)
    requires "__doc__" in attrs && attrs["__doc__"] == VStr(a + "{" + k + "}" + b)
    requires FieldsWithinLines(a + "{" + k + "}" + b)
    requires BraceFree(a) && BraceFree(b) && BraceFree(k) && !PositionalField(k) && k !in attrs
    ensures QuestionTextSpec(attrs, env) == Err(KeyError(VStr(k)))
  {
    FormatOnePlaceholder(a, k, b, Question.Rendered(attrs, env));
    FormatDedent(a + "{" + k + "}" + b, Question.Rendered(attrs, env));
  }

  // ================================================================ variant

  /** The class name of a variant (nbquiz/testcase.py:116-119): the `classname` parameter, else the
      base name with four hex digits of the hash. */
  function VariantName(base: string, params: seq<(string, Value)>, env: Env): Value
  {
    var m := Question.ParamMap(params);
    if "classname" in m then m["classname"]
    else VStr(base + "_" + Take(env.sha1Hex(base + Question.FeedAll(params, env)), 4))
  }

  /** The class dictionary of a variant (nbquiz/testcase.py:121-125): the parameters over the base's
      dictionary, with `celltag` defaulting to `@` and the variant's name. */
  function VariantLocals(own: map<string, Value>, params: seq<(string, Value)>, name: Value, env: Env)
      : map<string, Value>
  {
    var m := Question.ParamMap(params);
    var m' := if "celltag" in m then m else m["celltag" := VStr("@" + Str(env, name))];
    own + m'
  }

  /** `variant(**params)` (nbquiz/testcase.py:109-126): unlike the newer classes it validates nothing
      and keeps the base's bases. */
  method Variant(c: PyClass, params: seq<(string, Value)>, env: Env) returns (r: Result<PyClass>)
    ensures var n := VariantName(c.name, params, env);
            (r.Ok? <==> n.VStr?)
            && (r.Err? ==> r.error == TypeError)
            && (r.Ok? ==> fresh(r.value) && r.value.name == n.s && r.value.kind == c.kind && !r.value.framework
                          && r.value.bases == c.bases && r.value.inherited == c.inherited
                          && r.value.own == VariantLocals(c.own, params, n, env))
  {
    var fed := Question.HashInput(c.name, params, env);
    var m := Question.ParamMap(params);
    var n := if "classname" in m then m["classname"] else VStr(c.name + "_" + Take(env.sha1Hex(fed), 4));
    if !n.VStr? {
      return Err(TypeError);
    }
    var nt := new PyClass(n.s, c.kind, false, c.bases, c.inherited, VariantLocals(c.own, params, n, env));
    r := Ok(nt);
  }

  /** A variant without an explicit `celltag` is tagged with its own class name: once its
      `validate_class` passes, `_celltag` is `@` and the variant's name. */
  lemma VariantTaggedByName(base: string, kind: Kind, inherited: map<string, Value>, own: map<string, Value>,
                            params: seq<(string, Value)>, env: Env)
    requires "celltag" !in Question.ParamMap(params)
    requires VariantName(base, params, env).VStr?
    ensures var n := VariantName(base, params, env);
            var (v, own') := ValidateClassOutcome(kind, n.s, inherited, VariantLocals(own, params, n, env));
            v.Ok? ==> own'["_celltag"] == VStr(Question.Cellid(n.s))
  {
  }
}
