/**
 * Model of nbquiz/__init__.py, the first question classes: a `FunctionTestCase` names its function
 * through a `FunctionInfo` tuple, finds the cell tagged `@` and the class name, and copies the
 * function into the test module's globals; a `CellTestCase` installs a wrapper in the cell's
 * namespace instead.
 */
module LegacyQuiz {
  import opened Strings
  import opened PyModel
  import Question

  /** The test module's global namespace, which `setUp` writes. */
  class Globals {
    var vars: map<string, Value>

    constructor (vars: map<string, Value>)
      ensures this.vars == vars
    {
      this.vars := vars;
    }
  }

  // ================================================================ validate

  /** `FunctionTestCase.validate` (nbquiz/__init__.py:35-40). */
  function Validate(attrs: map<string, Value>): (r: Result<()>)
    ensures r.Ok? <==> "func_info" in attrs && attrs["func_info"].VFunctionInfo?
    ensures r.Err? ==> r.error.AssertionError?
  {
    if "func_info" !in attrs then Err(AssertionError(FuncInfoMissing))
    else if !attrs["func_info"].VFunctionInfo? then Err(AssertionError(FuncInfoWrongType))
    else Ok(())
  }

  // ================================================================ setUp

  /** The checks of `FunctionTestCase.setUp` (nbquiz/__init__.py:43-55); on success, the value
      copied into the globals. */
  function SetUpSpec(attrs: map<string, Value>, name: string, doc: map<string, CellEntry>): (r: Result<(string, Value)>)
    reads doc.Values
    ensures r.Ok? <==> Validate(attrs).Ok? && Question.Cellid(name) in doc
                       && attrs["func_info"].fiName.VStr?
                       && attrs["func_info"].fiName.s in doc[Question.Cellid(name)].functions
                       && attrs["func_info"].fiName.s in doc[Question.Cellid(name)].ns
    ensures r.Ok? ==> var cell := doc[Question.Cellid(name)];
                      var n := attrs["func_info"].fiName.s;
                      r.value == (n, cell.ns[n])
  {
    var v := Validate(attrs);
    if v.Err? then Err(v.error)
    else
      var tag := "@" + name;
      if tag !in doc then Err(AssertionError(NoCellTagged(tag)))
      else
        var cell := doc[tag];
        var fname := attrs["func_info"].fiName;
        if !Hashable(fname) then Err(TypeError)
        else if !(fname.VStr? && fname.s in cell.functions) then Err(AssertionError(NoFunctionNamed(fname)))
        else if fname.s !in cell.ns then Err(KeyError(fname))
        else Ok((fname.s, cell.ns[fname.s]))
  }

  /** `FunctionTestCase.setUp`: the function the cell defines is bound in the test module's globals
      under its own name; a failing check changes nothing. */
  method SetUp(c: PyClass, doc: map<string, CellEntry>, g: Globals) returns (r: Result<()>)
    modifies g
    ensures var s := SetUpSpec(c.Attrs(), c.name, doc);
            (r.Ok? <==> s.Ok?) && (r.Err? ==> r.error == s.error)
            && g.vars == (if s.Ok? then old(g.vars)[s.value.0 := s.value.1] else old(g.vars))
  {
    var s := SetUpSpec(c.Attrs(), c.name, doc);
    if s.Err? {
      return Err(s.error);
    }
    g.vars := g.vars[s.value.0 := s.value.1];
    r := Ok(());
  }

  /** `CellTestCase.setUp` (nbquiz/__init__.py:83-103): no function is looked up; the positional
      wrapper is stored under the `FunctionInfo` name in both the cell's namespace and the globals. */
  method CellSetUp(c: PyClass, doc: map<string, CellEntry>, g: Globals) returns (r: Result<()>)
    modifies g, doc.Values
    ensures var attrs := c.Attrs();
            var tag := Question.Cellid(c.name);
            var v := Validate(attrs);
            if v.Err? then r == v && unchanged(g) && unchanged(doc.Values)
            else if tag !in doc then r == Err(AssertionError(NoCellTagged(tag))) && unchanged(g) && unchanged(doc.Values)
            else
              var fi := attrs["func_info"];
              if !fi.fiName.VStr? then r == Err(TypeError) && unchanged(g) && unchanged(doc.Values)
              else
                var w := VPositionalWrapper(fi.fiAnnotations);
                r == Ok(()) && doc[tag].ns == old(doc[tag].ns)[fi.fiName.s := w]
                && g.vars == old(g.vars)[fi.fiName.s := w]
                && forall e :: e in doc.Values && e != doc[tag] ==> e.ns == old(e.ns)
  {
    var attrs := c.Attrs();
    r := Validate(attrs);
    if r.Err? {
      return;
    }
    var tag := "@" + c.name;
    if tag !in doc {
      return Err(AssertionError(NoCellTagged(tag)));
    }
    var fi := attrs["func_info"];
    if !fi.fiName.VStr? {
      return Err(TypeError);
    }
    var cell := doc[tag];
    var w := VPositionalWrapper(fi.fiAnnotations);
    cell.ns := cell.ns[fi.fiName.s := w];
    g.vars := g.vars[fi.fiName.s := cell.ns[fi.fiName.s]];
  }

  /** The argument dictionary the positional wrapper builds (nbquiz/__init__.py:91-96): the key at
      position n of the annotations takes `args[n]`, counting `return` among the positions but not
      binding it. The comprehension reads `args[n]` before it stores under the key, so a missing
      argument raises `IndexError` before a key that is a list or dict raises `TypeError`. */
  function PositionalArgs(keys: seq<Value>, args: seq<Value>): Result<Dict>
    decreases |keys|
  {
    if keys == [] then Ok([])
    else
      var n := |keys| - 1;
      var init := PositionalArgs(keys[..n], args);
      if init.Err? || keys[n] == VStr("return") then init
      else if n >= |args| then Err(IndexError)
      else if !Hashable(keys[n]) then Err(TypeError)
      else Ok(Set(init.value, keys[n], args[n]))
  }

  /** The binding succeeds exactly when every key other than `return` has an argument at its
      position and can be a dictionary key; otherwise it raises `IndexError` or `TypeError`. */
  lemma {:induction false} PositionalArgsOk(keys: seq<Value>, args: seq<Value>)
    ensures PositionalArgs(keys, args).Ok?
            <==> forall i :: 0 <= i < |keys| && keys[i] != VStr("return") ==> i < |args| && Hashable(keys[i])
    ensures PositionalArgs(keys, args).Err? ==>
              PositionalArgs(keys, args).error == IndexError || PositionalArgs(keys, args).error == TypeError
    decreases |keys|
  {
    if keys != [] {
      var n := |keys| - 1;
      var init := keys[..n];
      PositionalArgsOk(init, args);
      assert forall i :: 0 <= i < n ==> init[i] == keys[i];
    }
  }

  /** A successful binding gives each key other than `return` the argument at its position and
      leaves `return` unbound. */
  lemma {:induction false} PositionalArgsGet(keys: seq<Value>, args: seq<Value>)
    requires Question.Distinct(keys) && PositionalArgs(keys, args).Ok?
    ensures Get(PositionalArgs(keys, args).value, VStr("return")).None?
    ensures forall i :: 0 <= i < |keys| && keys[i] != VStr("return") ==>
              i < |args| && Get(PositionalArgs(keys, args).value, keys[i]) == Some(args[i])
    decreases |keys|
  {
    PositionalArgsOk(keys, args);
    if keys != [] {
      var n := |keys| - 1;
      var init := keys[..n];
      assert Question.Distinct(init);
      PositionalArgsGet(init, args);
      var d := PositionalArgs(init, args).value;
      if keys[n] != VStr("return") {
        assert PositionalArgs(keys, args).value == Set(d, keys[n], args[n]);
        GetSetSame(d, keys[n], args[n]);
        GetSetOther(d, keys[n], args[n], VStr("return"));
        forall i | 0 <= i < n && keys[i] != VStr("return")
          ensures Get(Set(d, keys[n], args[n]), keys[i]) == Some(args[i])
        {
          assert init[i] == keys[i];
          GetSetOther(d, keys[n], args[n], keys[i]);
        }
      } else {
        forall i | 0 <= i < n && keys[i] != VStr("return")
          ensures Get(d, keys[i]) == Some(args[i])
        {
          assert init[i] == keys[i];
        }
      }
    }
  }

  /** What calling the positional wrapper passes to the cell: the annotations are read at call
      time, so a non-iterable annotation value fails only then. */
  function CallPositional(w: Value, args: seq<Value>): (r: Result<Dict>)
    requires w.VPositionalWrapper?
    ensures !IsIterable(w.posAnnotations) ==> r == Err(TypeError)
    ensures IsIterable(w.posAnnotations) ==> r == PositionalArgs(Iterate(w.posAnnotations).value, args)
  {
    match Iterate(w.posAnnotations)
    case None => Err(TypeError)
    case Some(keys) => PositionalArgs(keys, args)
  }

  // ================================================================ question text

  /** `format_type` (nbquiz/__init__.py:59-63): `str(t)` with every `typing.` removed. */
  function FormatType(t: Value, env: Env): (r: string)
    ensures |r| <= |Str(env, t)|
    ensures Absent(Str(env, t), "typing.") ==> r == Str(env, t)
  {
    ReplaceShrinks(Str(env, t), "typing.");
    var r := ReplaceAll(Str(env, t), "typing.", "");
    if Absent(Str(env, t), "typing.") then ReplaceAbsent(Str(env, t), "typing.", ""); r else r
  }

  /** `typing.` prefixes are dropped from a type's name. */
  lemma FormatTypeDropsModule(s: string, env: Env)
    requires Absent(s, "typing.")
    ensures FormatType(VStr("typing." + s), env) == s
  {
    ReplaceLeading("typing.", s, "");
    ReplaceAbsent(s, "typing.", "");
  }

  /** The argument bullet of the key `k`. */
  function Bullet(d: Dict, k: Value, env: Env): string
  {
    var t := match Get(d, k) case Some(v) => FormatType(v, env) case None => "";
    "  - `" + Str(env, k) + "`: `" + t + "`\n"
  }

  /** The bullets of the keys `ks`, in order. */
  function Bullets(d: Dict, ks: seq<Value>, env: Env): string
    decreases |ks|
  {
    if ks == [] then "" else Bullets(d, ks[..|ks| - 1], env) + Bullet(d, ks[|ks| - 1], env)
  }

  /** Every key of the annotations but the last. */
  function ListedKeys(d: Dict): (r: seq<Value>)
    ensures |r| == if d == [] then 0 else |d| - 1
    ensures forall i :: 0 <= i < |r| ==> r[i] == d[i].0
  {
    if d == [] then [] else Keys(d)[..|d| - 1]
  }

  /** The heading of the question: the dedented docstring, the function name and `Arguments:`. */
  function Heading(doc: string, fname: Value, env: Env): string
  {
    Dedent(doc) + "\nFunction name: `" + Str(env, fname) + "`:\n\n" + "Arguments:\n\n"
  }

  /** `FunctionTestCase.question()` (nbquiz/__init__.py:65-74). */
  function QuestionTextSpec(attrs: map<string, Value>, env: Env): (r: Result<string>)
    ensures r.Ok? ==> Validate(attrs).Ok? && "__doc__" in attrs && attrs["__doc__"].VStr?
                      && attrs["func_info"].fiAnnotations.VDict?
    ensures r.Ok? ==>
              var fi := attrs["func_info"];
              var d := fi.fiAnnotations.entries;
              HasKey(d, VStr("return"))
              && r.value == Heading(attrs["__doc__"].s, fi.fiName, env) + Bullets(d, ListedKeys(d), env)
                            + "\nReturns: `" + FormatType(Get(d, VStr("return")).value, env) + "`\n\n"
  {
    var v := Validate(attrs);
    if v.Err? then Err(v.error)
    else if "__doc__" !in attrs then Err(AttributeError("__doc__"))
    else if !attrs["__doc__"].VStr? then Err(TypeError)
    else
      var fi := attrs["func_info"];
      if !fi.fiAnnotations.VDict? then Err(TypeError)
      else
        var d := fi.fiAnnotations.entries;
        match Get(d, VStr("return"))
        case None => Err(KeyError(VStr("return")))
        case Some(rt) =>
          Ok(Heading(attrs["__doc__"].s, fi.fiName, env) + Bullets(d, ListedKeys(d), env)
             + "\nReturns: `" + FormatType(rt, env) + "`\n\n")
  }

  /** The bullet lines of `question()`, one loop step per key. */
  method BulletText(d: Dict, ks: seq<Value>, env: Env) returns (text: string)
    ensures text == Bullets(d, ks, env)
  {
    text := "";
    var i := 0;
    while i < |ks|
      invariant 0 <= i <= |ks|
      invariant text == Bullets(d, ks[..i], env)
    {
      assert ks[..i + 1][..i] == ks[..i];
      text := text + Bullet(d, ks[i], env);
      i := i + 1;
    }
    assert ks[..i] == ks;
  }

  /** `question()` builds the text line by line. */
  method QuestionText(c: PyClass, env: Env) returns (r: Result<string>)
    ensures r == QuestionTextSpec(c.Attrs(), env)
  {
    var attrs := c.Attrs();
    var v := Validate(attrs);
    if v.Err? {
      return Err(v.error);
    }
    if "__doc__" !in attrs {
      return Err(AttributeError("__doc__"));
    }
    if !attrs["__doc__"].VStr? {
      return Err(TypeError);
    }
    var fi := attrs["func_info"];
    var text := Heading(attrs["__doc__"].s, fi.fiName, env);
    if !fi.fiAnnotations.VDict? {
      return Err(TypeError);
    }
    var d := fi.fiAnnotations.entries;
    var bullets := BulletText(d, ListedKeys(d), env);
    text := text + bullets;
    var rt := Get(d, VStr("return"));
    if rt.None? {
      return Err(KeyError(VStr("return")));
    }
    r := Ok(text + "\nReturns: `" + FormatType(rt.value, env) + "`\n\n");
  }

  /** When `return` is the last annotation, as in the annotations Python records for a function, the
      bullets list exactly the argument names, in order. */
  lemma {:induction false} ListedKeysAreArguments(d: Dict)
    requires d != [] && d[|d| - 1].0 == VStr("return") && DistinctKeys(d)
    ensures ListedKeys(d) == Question.ArgNames(d)
    decreases |d|
  {
    if |d| == 1 {
      assert Question.ArgNames(d[1..]) == [];
    } else {
      var t := d[1..];
      assert DistinctKeys(t);
      ListedKeysAreArguments(t);
      assert d[0].0 != VStr("return");
      assert ListedKeys(d) == [d[0].0] + ListedKeys(t);
    }
  }

  /** `CellTestCase.question()` (nbquiz/__init__.py:107-110): only the dedented docstring. */
  function CellQuestionText(attrs: map<string, Value>, env: Env): (r: Result<string>)
    ensures r.Ok? <==> "__doc__" in attrs && attrs["__doc__"].VStr?
    ensures r.Ok? ==> r.value == Dedent(attrs["__doc__"].s)
  {
    if "__doc__" !in attrs then Err(AttributeError("__doc__"))
    else if !attrs["__doc__"].VStr? then Err(TypeError)
    else Ok(Dedent(attrs["__doc__"].s))
  }

  /** A cell question's text is the start of the text its function form would render: the function
      name, arguments and return type are left off. */
  lemma CellTextIsPrefix(attrs: map<string, Value>, env: Env)
    requires QuestionTextSpec(attrs, env).Ok?
    ensures CellQuestionText(attrs, env).Ok?
    ensures StartsWith(QuestionTextSpec(attrs, env).value, CellQuestionText(attrs, env).value)
  {
    var fi := attrs["func_info"];
    var d := fi.fiAnnotations.entries;
    var dd := Dedent(attrs["__doc__"].s);
    var h := Heading(attrs["__doc__"].s, fi.fiName, env);
    HeadingStarts(attrs["__doc__"].s, fi.fiName, env);
    var x1 := h + Bullets(d, ListedKeys(d), env);
    StartsWithAppend(h, dd, Bullets(d, ListedKeys(d), env));
    var x2 := x1 + "\nReturns: `";
    StartsWithAppend(x1, dd, "\nReturns: `");
    var x3 := x2 + FormatType(Get(d, VStr("return")).value, env);
    StartsWithAppend(x2, dd, FormatType(Get(d, VStr("return")).value, env));
    StartsWithAppend(x3, dd, "`\n\n");
  }

  /** The heading opens with the dedented docstring. */
  lemma HeadingStarts(doc: string, fname: Value, env: Env)
    ensures StartsWith(Heading(doc, fname, env), Dedent(doc))
  {
    var dd := Dedent(doc);
    StartsWithConcat(dd, "\nFunction name: `");
    StartsWithAppend(dd + "\nFunction name: `", dd, Str(env, fname));
    StartsWithAppend(dd + "\nFunction name: `" + Str(env, fname), dd, "`:\n\n");
    StartsWithAppend(dd + "\nFunction name: `" + Str(env, fname) + "`:\n\n", dd, "Arguments:\n\n");
  }
}
