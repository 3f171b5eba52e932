/**
 * Model of src/nbquiz/cli/test.py: the checker puts the student's code and the test bank's search
 * paths into a notebook template, lets Jupyter execute it, and turns the error outputs of four
 * tagged cells into an exit status and a printed report.
 */
module Checker {
  import opened PyModel
  import opened Notebook
  import Strings

  // ================================================================ finding cells

  /** Whether the cell's metadata tags contain `tag`; a cell without metadata or tags has none. */
  function TaggedWith(c: Cell, tag: string): (r: Result<bool>)
    ensures c.metadata.None? || "tags" !in c.metadata.value ==> r == Ok(false)
    ensures r.Err? ==> r.error == TypeError
  {
    if c.metadata.None? || "tags" !in c.metadata.value then Ok(false)
    else Contains(c.metadata.value["tags"], VStr(tag))
  }

  /** The indices of the cells tagged `tag`, in notebook order. The comprehension looks at every cell,
      so a tag list that cannot be searched raises even after a match. */
  function Tagged(cells: seq<Cell>, tag: string): (r: Result<seq<nat>>)
    ensures r.Ok? <==> forall k :: 0 <= k < |cells| ==> TaggedWith(cells[k], tag).Ok?
    ensures r.Ok? ==> forall k: nat :: k in r.value <==> k < |cells| && TaggedWith(cells[k], tag) == Ok(true)
    ensures r.Ok? ==> forall i, j :: 0 <= i < j < |r.value| ==> r.value[i] < r.value[j]
    ensures r.Err? ==> exists k :: 0 <= k < |cells| && TaggedWith(cells[k], tag) == Err(r.error)
    decreases |cells|
  {
    if cells == [] then Ok([])
    else
      var n := |cells| - 1;
      var front := cells[..n];
      assert forall k :: 0 <= k < n ==> front[k] == cells[k];
      match Tagged(front, tag)
      case Err(e) => Err(e)
      case Ok(ks) =>
        match TaggedWith(cells[n], tag)
        case Err(e) => Err(e)
        case Ok(b) =>
          assert forall k: nat :: k in ks ==> k < n;
          AppendIndex(ks, n, b);
          Ok(ks + if b then [n] else [])
  }

  /** Appending an index above all of an increasing list keeps it increasing. */
  lemma AppendIndex(ks: seq<nat>, n: nat, b: bool)
    requires forall k :: k in ks ==> k < n
    requires forall i, j :: 0 <= i < j < |ks| ==> ks[i] < ks[j]
    ensures var r := ks + if b then [n] else [];
            && (forall k :: k in r <==> k in ks || (b && k == n))
            && (forall i, j :: 0 <= i < j < |r| ==> r[i] < r[j])
  {
    assert forall i :: 0 <= i < |ks| ==> ks[i] in ks;
  }

  /** `cell_for_tag` (src/nbquiz/cli/test.py:23-28): the index of the first cell tagged `tag`;
      `IndexError` when no cell is. */
  function CellForTag(cells: seq<Cell>, tag: string): (r: Result<nat>)
    ensures r.Ok? ==> r.value < |cells| && TaggedWith(cells[r.value], tag) == Ok(true)
    ensures r.Ok? ==> forall k :: 0 <= k < r.value ==> TaggedWith(cells[k], tag) == Ok(false)
    ensures r == Err(IndexError) <==> forall k :: 0 <= k < |cells| ==> TaggedWith(cells[k], tag) == Ok(false)
  {
    match Tagged(cells, tag)
    case Err(e) => Err(e)
    case Ok(ks) =>
      if ks == [] then
        assert forall k :: 0 <= k < |cells| ==> TaggedWith(cells[k], tag) == Ok(false);
        Err(IndexError)
      else
        assert ks[0] in ks;
        assert forall k :: 0 <= k < ks[0] ==> k !in ks;
        Ok(ks[0])
  }

  /** Rewriting a cell's source changes no cell's tags, so the same cells are found afterwards. */
  lemma CellForTagIgnoresSource(cells: seq<Cell>, i: nat, src: string, tag: string)
    requires i < |cells|
    ensures CellForTag(cells[i := cells[i].(source := src)], tag) == CellForTag(cells, tag)
  {
    var cells' := cells[i := cells[i].(source := src)];
    assert forall k :: 0 <= k < |cells| ==> TaggedWith(cells'[k], tag) == TaggedWith(cells[k], tag);
    TaggedSame(cells, cells', tag);
  }

  lemma {:induction false} TaggedSame(cells: seq<Cell>, cells': seq<Cell>, tag: string)
    requires |cells| == |cells'|
    requires forall k :: 0 <= k < |cells| ==> TaggedWith(cells'[k], tag) == TaggedWith(cells[k], tag)
    ensures Tagged(cells', tag) == Tagged(cells, tag)
    decreases |cells|
  {
    if cells != [] {
      var n := |cells| - 1;
      TaggedSame(cells[..n], cells'[..n], tag);
    }
  }

  // ================================================================ reading outputs

  /** `cell["outputs"]`. */
  function Outputs(c: Cell): (r: Result<seq<Value>>)
    ensures r.Ok? <==> c.outputs.Some?
  {
    if c.outputs.None? then Err(KeyError(VStr("outputs"))) else Ok(c.outputs.value)
  }

  /** Whether `"ename" in output`. */
  function HasEname(output: Value): Result<bool>
  {
    Contains(output, VStr("ename"))
  }

  /** Whether some output names an exception, testing every output as `any([...])` does. */
  function AnyEname(outs: seq<Value>): (r: Result<bool>)
    ensures r.Ok? <==> forall i :: 0 <= i < |outs| ==> HasEname(outs[i]).Ok?
    ensures r == Ok(true) <==> r.Ok? && exists i :: 0 <= i < |outs| && HasEname(outs[i]) == Ok(true)
    decreases |outs|
  {
    if outs == [] then Ok(false)
    else
      var n := |outs| - 1;
      var front := outs[..n];
      assert forall k :: 0 <= k < n ==> front[k] == outs[k];
      match AnyEname(front)
      case Err(e) => Err(e)
      case Ok(b) =>
        match HasEname(outs[n])
        case Err(e) => Err(e)
        case Ok(last) => Ok(b || last)
  }

  /** `has_error` (src/nbquiz/cli/test.py:31-32): the outputs are non-empty and one of them names an
      exception. A cell without outputs raises `KeyError`. */
  function HasError(c: Cell): (r: Result<bool>)
    ensures (r == Ok(true)) <==> c.outputs.Some? && c.outputs.value != []
                                  && AnyEname(c.outputs.value) == Ok(true)
    ensures c.outputs.None? ==> r == Err(KeyError(VStr("outputs")))
    ensures c.outputs == Some([]) ==> r == Ok(false)
  {
    match Outputs(c)
    case Err(e) => Err(e)
    case Ok(outs) => if outs == [] then Ok(false) else AnyEname(outs)
  }

  /** The first output that `test` accepts; the search stops there, so later outputs are not tested. */
  function FirstWhere(outs: seq<Value>, test: Value -> Result<bool>): (r: Result<Option<nat>>)
    ensures r.Ok? && r.value.Some? ==> r.value.value < |outs| && test(outs[r.value.value]) == Ok(true)
    ensures r.Ok? && r.value.Some? ==> forall j :: 0 <= j < r.value.value ==> test(outs[j]) == Ok(false)
    ensures r == Ok(None) <==> forall j :: 0 <= j < |outs| ==> test(outs[j]) == Ok(false)
    ensures r.Err? ==> exists i :: 0 <= i < |outs| && test(outs[i]) == Err(r.error)
                                   && forall j :: 0 <= j < i ==> test(outs[j]) == Ok(false)
    decreases |outs|
  {
    if outs == [] then Ok(None)
    else
      assert forall j :: 1 <= j < |outs| ==> outs[1..][j - 1] == outs[j];
      match test(outs[0])
      case Err(e) => Err(e)
      case Ok(true) => Ok(Some(0))
      case Ok(false) =>
        match FirstWhere(outs[1..], test)
        case Err(e) => Err(e)
        case Ok(None) => Ok(None)
        case Ok(Some(i)) => Ok(Some(i + 1))
  }

  const NoErrorText := "No error in get_error():"
  const NoHtmlText := "No html in get_html(): "

  /** What `get_error` returns or raises (src/nbquiz/cli/test.py:35-39). */
  function ErrorOf(c: Cell): (r: Result<(Value, Value)>)
  {
    match Outputs(c)
    case Err(e) => Err(e)
    case Ok(outs) =>
      match FirstWhere(outs, HasEname)
      case Err(e) => Err(e)
      case Ok(None) => Err(ValueError(NoErrorText))
      case Ok(Some(i)) =>
        match Subscript(outs[i], "ename")
        case Err(e) => Err(e)
        case Ok(ename) =>
          match Subscript(outs[i], "evalue")
          case Err(e) => Err(e)
          case Ok(evalue) => Ok((ename, evalue))
  }

  /** Whether `"data" in output and "text/html" in output["data"]`. */
  function CarriesHtml(output: Value): Result<bool>
  {
    match Contains(output, VStr("data"))
    case Err(e) => Err(e)
    case Ok(false) => Ok(false)
    case Ok(true) =>
      match Subscript(output, "data")
      case Err(e) => Err(e)
      case Ok(data) => Contains(data, VStr("text/html"))
  }

  /** What `get_html` returns or raises (src/nbquiz/cli/test.py:42-46). */
  function HtmlOf(c: Cell): (r: Result<Value>)
  {
    match Outputs(c)
    case Err(e) => Err(e)
    case Ok(outs) =>
      match FirstWhere(outs, CarriesHtml)
      case Err(e) => Err(e)
      case Ok(None) => Err(ValueError(NoHtmlText))
      case Ok(Some(i)) =>
        match Subscript(outs[i], "data")
        case Err(e) => Err(e)
        case Ok(data) => Subscript(data, "text/html")
  }

  /** A cell whose outputs name an exception yields the first one's name and value; a cell whose
      outputs do not makes `get_error` raise its `ValueError`. */
  lemma ErrorOfAgreesWithHasError(c: Cell)
    requires HasError(c).Ok?
    ensures HasError(c) == Ok(true) ==> ErrorOf(c) != Err(ValueError(NoErrorText))
    ensures HasError(c) == Ok(true) && ErrorOf(c).Ok? ==>
              exists i :: 0 <= i < |c.outputs.value| && HasEname(c.outputs.value[i]) == Ok(true)
                          && Subscript(c.outputs.value[i], "ename") == Ok(ErrorOf(c).value.0)
                          && Subscript(c.outputs.value[i], "evalue") == Ok(ErrorOf(c).value.1)
    ensures HasError(c) == Ok(false) ==> ErrorOf(c) == Err(ValueError(NoErrorText))
  {
    var outs := c.outputs.value;
    if HasError(c) == Ok(true) {
      var i :| 0 <= i < |outs| && HasEname(outs[i]) == Ok(true);
      assert FirstWhere(outs, HasEname) != Ok(None);
    } else if outs != [] {
      assert forall j :: 0 <= j < |outs| ==> HasEname(outs[j]) == Ok(false);
    }
  }

  /** `get_error` as the loop it is. */
  method GetError(c: Cell) returns (r: Result<(Value, Value)>)
    ensures r == ErrorOf(c)
  {
    if c.outputs.None? {
      return Err(KeyError(VStr("outputs")));
    }
    var outs := c.outputs.value;
    var i := 0;
    while i < |outs|
      invariant 0 <= i <= |outs|
      invariant forall j :: 0 <= j < i ==> HasEname(outs[j]) == Ok(false)
    {
      var has := Contains(outs[i], VStr("ename"));
      if has.Err? {
        return Err(has.error);
      }
      if has.value {
        var ename := Subscript(outs[i], "ename");
        if ename.Err? {
          return Err(ename.error);
        }
        var evalue := Subscript(outs[i], "evalue");
        if evalue.Err? {
          return Err(evalue.error);
        }
        return Ok((ename.value, evalue.value));
      }
      i := i + 1;
    }
    return Err(ValueError(NoErrorText));
  }

  /** `get_html` as the loop it is. */
  method GetHtml(c: Cell) returns (r: Result<Value>)
    ensures r == HtmlOf(c)
  {
    if c.outputs.None? {
      return Err(KeyError(VStr("outputs")));
    }
    var outs := c.outputs.value;
    var i := 0;
    while i < |outs|
      invariant 0 <= i <= |outs|
      invariant forall j :: 0 <= j < i ==> CarriesHtml(outs[j]) == Ok(false)
    {
      var carries := CarriesHtml(outs[i]);
      if carries.Err? {
        return Err(carries.error);
      }
      if carries.value {
        var data := Subscript(outs[i], "data");
        return Subscript(data.value, "text/html");
      }
      i := i + 1;
    }
    return Err(ValueError(NoHtmlText));
  }

  // ================================================================ preparing the notebook

  /** The line that registers one search path with the bank. */
  function AddPathLine(p: string): string
  {
    "\nbank.add_path(\"" + p + "\")"
  }

  /** The lines for all search paths, in order. */
  function AddPathLines(paths: seq<string>): string
    decreases |paths|
  {
    if paths == [] then "" else AddPathLines(paths[..|paths| - 1]) + AddPathLine(paths[|paths| - 1])
  }

  /** The search paths' lines follow each other in path order: the lines of the first `k` paths, the
      line of path `k`, then the lines of the rest. */
  lemma {:induction false} AddPathLinesSplit(paths: seq<string>, k: nat)
    requires k < |paths|
    ensures AddPathLines(paths) == AddPathLines(paths[..k]) + AddPathLine(paths[k]) + AddPathLines(paths[k + 1..])
    decreases |paths|
  {
    var n := |paths| - 1;
    if k == n {
      assert paths[..n] == paths[..k];
      assert paths[k + 1..] == [];
    } else {
      var front := paths[..n];
      AddPathLinesSplit(front, k);
      AddPathLinesRest(paths, k);
      Strings.ConcatAssoc(AddPathLines(paths[..k]) + AddPathLine(paths[k]), AddPathLines(front[k + 1..]), AddPathLine(paths[n]));
    }
  }

  /** Dropping the last path off the paths after `k`, and off all of them, agree on what they keep. */
  lemma AddPathLinesRest(paths: seq<string>, k: nat)
    requires k < |paths| - 1
    ensures var front := paths[..|paths| - 1];
            && front[..k] == paths[..k] && front[k] == paths[k]
            && AddPathLines(paths[k + 1..]) == AddPathLines(front[k + 1..]) + AddPathLine(paths[|paths| - 1])
  {
    var front, rest := paths[..|paths| - 1], paths[k + 1..];
    assert rest[..|rest| - 1] == front[k + 1..];
    assert rest[|rest| - 1] == paths[|paths| - 1];
  }

  /** The notebook's cells with cell `i`'s source replaced. */
  function WithSource(cells: seq<Cell>, i: nat, src: string): (r: seq<Cell>)
    requires i < |cells|
    ensures |r| == |cells| && r[i].source == src
    ensures forall k :: 0 <= k < |cells| && k != i ==> r[k] == cells[k]
  {
    cells[i := cells[i].(source := src)]
  }

  /** The source the testbank cell ends with: its own, a line per search path, the load call. */
  function TestbankSource(src: string, paths: seq<string>): string
  {
    src + AddPathLines(paths) + "\nbank.load()"
  }

  /** The `+=` loop over the search paths (src/nbquiz/cli/test.py:61-63). */
  method AppendPaths(nb: NotebookDoc, t: nat, paths: seq<string>)
    requires t < |nb.cells|
    modifies nb
    ensures nb.cells == WithSource(old(nb.cells), t, TestbankSource(old(nb.cells[t].source), paths))
  {
    ghost var base := nb.cells;
    var k := 0;
    assert base[t].source + AddPathLines(paths[..0]) == base[t].source;
    assert WithSource(base, t, base[t].source) == base;
    while k < |paths|
      invariant 0 <= k <= |paths|
      invariant nb.cells == WithSource(base, t, base[t].source + AddPathLines(paths[..k]))
    {
      assert paths[..k + 1][..k] == paths[..k];
      assert AddPathLines(paths[..k + 1]) == AddPathLines(paths[..k]) + AddPathLine(paths[k]);
      assert base[t].source + AddPathLines(paths[..k + 1])
          == (base[t].source + AddPathLines(paths[..k])) + AddPathLine(paths[k]);
      nb.cells := nb.cells[t := nb.cells[t].(source := nb.cells[t].source + AddPathLine(paths[k]))];
      k := k + 1;
    }
    assert paths[..k] == paths;
    nb.cells := nb.cells[t := nb.cells[t].(source := nb.cells[t].source + "\nbank.load()")];
  }

  /** The first part of `main` (src/nbquiz/cli/test.py:57-63): the student's code replaces the source
      of the `student` cell, then the `testbank` cell gets the search paths and the load call. Either
      lookup can raise; what was written before stays. */
  method Prepare(nb: NotebookDoc, code: string, paths: seq<string>) returns (r: Result<()>)
    modifies nb
    ensures match CellForTag(old(nb.cells), "student")
            case Err(e) => r == Err(e) && nb.cells == old(nb.cells)
            case Ok(s) =>
              var written := WithSource(old(nb.cells), s, code);
              match CellForTag(old(nb.cells), "testbank")
              case Err(e) => r == Err(e) && nb.cells == written
              case Ok(t) => r == Ok(()) && nb.cells == WithSource(written, t, TestbankSource(written[t].source, paths))
  {
    var s := CellForTag(nb.cells, "student");
    if s.Err? {
      return Err(s.error);
    }
    CellForTagIgnoresSource(nb.cells, s.value, code, "testbank");
    nb.cells := nb.cells[s.value := nb.cells[s.value].(source := code)];
    var t := CellForTag(nb.cells, "testbank");
    if t.Err? {
      return Err(t.error);
    }
    AppendPaths(nb, t.value, paths);
    r := Ok(());
  }

  // ================================================================ classifying the result

  /** What the checker prints for an erroring cell: `ename: evalue`. */
  function ErrorLine(e: (Value, Value), env: Env): string
  {
    Str(env, e.0) + ": " + Str(env, e.1)
  }

  /** The exit status and the printed report of an executed notebook (src/nbquiz/cli/test.py:85-117):
      the four cells are looked up in order, then the first of student, testbank and runner that
      errored decides the status 10, 11 or 12 and prints its error; otherwise the runner's HTML is
      printed, with status 13 when the checker errored and 0 when it did not. */
  function Outcome(cells: seq<Cell>, env: Env): Result<(int, string)>
  {
    match CellForTag(cells, "student")
    case Err(e) => Err(e)
    case Ok(s) =>
      match CellForTag(cells, "testbank")
      case Err(e) => Err(e)
      case Ok(t) =>
        match CellForTag(cells, "runner")
        case Err(e) => Err(e)
        case Ok(u) =>
          match CellForTag(cells, "checker")
          case Err(e) => Err(e)
          case Ok(c) => Ladder(cells[s], cells[t], cells[u], cells[c], env)
  }

  function Ladder(student: Cell, testbank: Cell, runner: Cell, checker: Cell, env: Env): Result<(int, string)>
  {
    match HasError(student)
    case Err(e) => Err(e)
    case Ok(true) => Report(10, student, env)
    case Ok(false) =>
      match HasError(testbank)
      case Err(e) => Err(e)
      case Ok(true) => Report(11, testbank, env)
      case Ok(false) =>
        match HasError(runner)
        case Err(e) => Err(e)
        case Ok(true) => Report(12, runner, env)
        case Ok(false) =>
          match HasError(checker)
          case Err(e) => Err(e)
          case Ok(b) =>
            match HtmlOf(runner)
            case Err(e) => Err(e)
            case Ok(html) => Ok((if b then 13 else 0, Str(env, html)))
  }

  function Report(status: int, c: Cell, env: Env): Result<(int, string)>
  {
    match ErrorOf(c)
    case Err(e) => Err(e)
    case Ok(e) => Ok((status, ErrorLine(e, env)))
  }

  /** The status names the first cell, in the order student, testbank, runner, checker, whose outputs
      hold an error, and 0 means none did; 10 to 12 print that cell's error and 13 and 0 the runner's
      HTML. */
  lemma LadderPriority(student: Cell, testbank: Cell, runner: Cell, checker: Cell, env: Env)
    requires Ladder(student, testbank, runner, checker, env).Ok?
    ensures var (status, out) := Ladder(student, testbank, runner, checker, env).value;
            status in {0, 10, 11, 12, 13}
            && (status == 10 <==> HasError(student) == Ok(true))
            && (status == 11 <==> HasError(student) == Ok(false) && HasError(testbank) == Ok(true))
            && (status == 12 <==> HasError(student) == Ok(false) && HasError(testbank) == Ok(false)
                                  && HasError(runner) == Ok(true))
            && (status == 13 <==> HasError(student) == Ok(false) && HasError(testbank) == Ok(false)
                                  && HasError(runner) == Ok(false) && HasError(checker) == Ok(true))
            && (status == 0 <==> HasError(student) == Ok(false) && HasError(testbank) == Ok(false)
                                 && HasError(runner) == Ok(false) && HasError(checker) == Ok(false))
            && (status == 10 ==> out == ErrorLine(ErrorOf(student).value, env))
            && (status == 11 ==> out == ErrorLine(ErrorOf(testbank).value, env))
            && (status == 12 ==> out == ErrorLine(ErrorOf(runner).value, env))
            && (status in {0, 13} ==> out == Str(env, HtmlOf(runner).value))
  {
  }

  /** The second part of `main`: the four cells are found, then the ladder of `if`/`elif` assigns the
      status. */
  method Classify(nb: NotebookDoc, env: Env) returns (r: Result<(int, string)>)
    ensures r == Outcome(nb.cells, env)
  {
    var cells := nb.cells;
    var s := CellForTag(cells, "student");
    if s.Err? { return Err(s.error); }
    var t := CellForTag(cells, "testbank");
    if t.Err? { return Err(t.error); }
    var u := CellForTag(cells, "runner");
    if u.Err? { return Err(u.error); }
    var c := CellForTag(cells, "checker");
    if c.Err? { return Err(c.error); }
    var rval := 0;
    var out: string;
    var studentError := HasError(cells[s.value]);
    if studentError.Err? { return Err(studentError.error); }
    if studentError.value {
      rval := 10;
      var e := GetError(cells[s.value]);
      if e.Err? { return Err(e.error); }
      out := ErrorLine(e.value, env);
    } else {
      var testbankError := HasError(cells[t.value]);
      if testbankError.Err? { return Err(testbankError.error); }
      if testbankError.value {
        rval := 11;
        var e := GetError(cells[t.value]);
        if e.Err? { return Err(e.error); }
        out := ErrorLine(e.value, env);
      } else {
        var runnerError := HasError(cells[u.value]);
        if runnerError.Err? { return Err(runnerError.error); }
        if runnerError.value {
          rval := 12;
          var e := GetError(cells[u.value]);
          if e.Err? { return Err(e.error); }
          out := ErrorLine(e.value, env);
        } else {
          var checkerError := HasError(cells[c.value]);
          if checkerError.Err? { return Err(checkerError.error); }
          if checkerError.value {
            rval := 13;
          }
          var html := GetHtml(cells[u.value]);
          if html.Err? { return Err(html.error); }
          out := Str(env, html.value);
        }
      }
    }
    r := Ok((rval, out));
  }
}
