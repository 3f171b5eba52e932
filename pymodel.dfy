/**
 * The slice of Python's object model the quiz system touches: values, exceptions, class
 * objects whose attributes are assigned at run time, cached notebook cells and the
 * question groups.
 */
module PyModel {
  import opened Strings

  datatype Option<T> = None | Some(value: T)

  /** A Python value as far as the system inspects it. */
  datatype Value =
    | VNone
    | VBool(b: bool)
    | VInt(i: int)
    | VStr(s: string)
    | VList(items: seq<Value>)
    | VDict(entries: seq<(Value, Value)>)
    /** A built-in or `ast` type object such as `int`, `str` or `ast.For`. */
    | VType(tname: string)
    /** A class object of a quiz bank, named by its `__name__`. */
    | VClass(cname: string)
    /** An instance of a user class. */
    | VObject(oclass: string, oid: nat)
    /** A function defined in a notebook cell. */
    | VFunction(fname: string)
    /** A `FunctionInfo` named tuple of the legacy package. */
    | VFunctionInfo(fiName: Value, fiAnnotations: Value)
    /** The `_cell_wrapper` closure that binds its arguments to the named cell variables. */
    | VCellWrapper(argnames: seq<Value>)
    /** The legacy `CellTestCase` wrapper; it binds arguments by position over the keys of the annotations it holds. */
    | VPositionalWrapper(posAnnotations: Value)
    /** The `_wrapper` closure that checks the return value of `inner` against `annotations["return"]`;
        `noneMeansNone` tells whether a `None` return annotation demands a `None` result. */
    | VChecked(inner: Value, checkedName: Value, annotations: Value, noneMeansNone: bool)

  type Dict = seq<(Value, Value)>

  // ---------------------------------------------------------------- dictionaries (insertion ordered)

  function Keys(d: Dict): (r: seq<Value>)
    ensures |r| == |d|
    ensures forall i :: 0 <= i < |d| ==> r[i] == d[i].0
  {
    seq(|d|, i requires 0 <= i < |d| => d[i].0)
  }

  predicate HasKey(d: Dict, k: Value)
  {
    exists i :: 0 <= i < |d| && d[i].0 == k
  }

  predicate DistinctKeys(d: Dict)
  {
    forall i, j :: 0 <= i < j < |d| ==> d[i].0 != d[j].0
  }

  function IndexOfKey(d: Dict, k: Value): (r: nat)
    ensures r <= |d|
    ensures r < |d| ==> d[r].0 == k
    ensures forall i :: 0 <= i < r ==> d[i].0 != k
    decreases |d|
  {
    if d == [] then 0 else if d[0].0 == k then 0 else 1 + IndexOfKey(d[1..], k)
  }

  /** `d.get(k)`. */
  function Get(d: Dict, k: Value): (r: Option<Value>)
    ensures r.Some? <==> HasKey(d, k)
  {
    var i := IndexOfKey(d, k);
    if i < |d| then Some(d[i].1) else None
  }

  /** `d[k] = v`: an existing key keeps its position, a new key goes last. */
  function Set(d: Dict, k: Value, v: Value): (r: Dict)
    ensures |r| == if HasKey(d, k) then |d| else |d| + 1
  {
    var i := IndexOfKey(d, k);
    if i < |d| then d[i := (k, v)] else d + [(k, v)]
  }

  lemma GetSetSame(d: Dict, k: Value, v: Value)
    ensures Get(Set(d, k, v), k) == Some(v)
  {
    var i := IndexOfKey(d, k);
    if i == |d| {
      assert IndexOfKey(Set(d, k, v), k) == |d| by {
        IndexOfKeyAppend(d, k, v);
      }
    } else {
      IndexOfKeyUpdate(d, i, k, v, k);
    }
  }

  lemma GetSetOther(d: Dict, k: Value, v: Value, k2: Value)
    requires k2 != k
    ensures Get(Set(d, k, v), k2) == Get(d, k2)
  {
    var i := IndexOfKey(d, k);
    if i == |d| {
      IndexOfKeyAppendOther(d, k, v, k2);
    } else {
      IndexOfKeyUpdate(d, i, k, v, k2);
    }
  }

  lemma {:induction false} IndexOfKeyAppend(d: Dict, k: Value, v: Value)
    requires IndexOfKey(d, k) == |d|
    ensures IndexOfKey(d + [(k, v)], k) == |d|
    decreases |d|
  {
    if d != [] {
      assert (d + [(k, v)])[1..] == d[1..] + [(k, v)];
      IndexOfKeyAppend(d[1..], k, v);
    }
  }

  lemma {:induction false} IndexOfKeyAppendOther(d: Dict, k: Value, v: Value, k2: Value)
    requires k2 != k
    ensures IndexOfKey(d + [(k, v)], k2) == (if IndexOfKey(d, k2) < |d| then IndexOfKey(d, k2) else |d| + 1)
    decreases |d|
  {
    if d != [] {
      assert (d + [(k, v)])[1..] == d[1..] + [(k, v)];
      IndexOfKeyAppendOther(d[1..], k, v, k2);
    }
  }

  lemma {:induction false} IndexOfKeyUpdate(d: Dict, i: nat, k: Value, v: Value, k2: Value)
    requires i < |d| && d[i].0 == k
    ensures IndexOfKey(d[i := (k, v)], k2) == IndexOfKey(d, k2)
  {
    var d' := d[i := (k, v)];
    assert forall j :: 0 <= j < |d| ==> d'[j].0 == d[j].0;
  }

  /** A key never seen before is appended at the end. */
  lemma SetFresh(d: Dict, k: Value, v: Value)
    requires !HasKey(d, k)
    ensures Set(d, k, v) == d + [(k, v)]
  {
  }

  // ---------------------------------------------------------------- built-in behaviour of values

  /** What `iter(v)` produces, or `None` when `isinstance(v, Iterable)` is false. */
  function Iterate(v: Value): (r: Option<seq<Value>>)
    ensures r.Some? <==> (v.VStr? || v.VList? || v.VDict?)
  {
    match v
    case VStr(s) => Some(seq(|s|, i requires 0 <= i < |s| => VStr([s[i]])))
    case VList(xs) => Some(xs)
    case VDict(d) => Some(Keys(d))
    case _ => None
  }

  predicate IsIterable(v: Value)
  {
    Iterate(v).Some?
  }

  /** `bool(v)`. */
  predicate Truthy(v: Value)
  {
    match v
    case VNone => false
    case VBool(b) => b
    case VInt(i) => i != 0
    case VStr(s) => s != []
    case VList(xs) => xs != []
    case VDict(d) => d != []
    case _ => true
  }

  /** An iterable is true exactly when iterating it yields something. */
  lemma TruthyIterable(v: Value)
    requires IsIterable(v)
    ensures Truthy(v) <==> |Iterate(v).value| > 0
  {
  }

  /** Hashable values may be dictionary keys and set members; lists and dicts may not. */
  predicate Hashable(v: Value)
  {
    !v.VList? && !v.VDict?
  }

  /** `x in container`: substring for strings, membership for lists, key lookup for dicts. */
  function Contains(container: Value, x: Value): (r: Result<bool>)
    ensures container.VList? ==> r == Ok(x in container.items)
    ensures container.VStr? && x.VStr? ==> r == Ok(!Absent(container.s, x.s))
    ensures r.Err? ==> r.error == TypeError
  {
    match container
    case VStr(s) => if x.VStr? then Ok(!Absent(s, x.s)) else Err(TypeError)
    case VList(xs) => Ok(x in xs)
    case VDict(d) => if Hashable(x) then Ok(HasKey(d, x)) else Err(TypeError)
    case _ => Err(TypeError)
  }

  /** `container[name]` for a string key: dictionaries look the key up, other values cannot be
      subscripted by a string. */
  function Subscript(container: Value, name: string): (r: Result<Value>)
    ensures container.VDict? && HasKey(container.entries, VStr(name)) <==> r.Ok?
    ensures r.Ok? ==> Get(container.entries, VStr(name)) == Some(r.value)
    ensures r.Err? ==> r.error == if container.VDict? then KeyError(VStr(name)) else TypeError
  {
    if !container.VDict? then Err(TypeError)
    else match Get(container.entries, VStr(name))
      case Some(v) => Ok(v)
      case None => Err(KeyError(VStr(name)))
  }

  /** `isinstance(v, Callable)`. */
  predicate IsCallable(v: Value)
  {
    v.VType? || v.VClass? || v.VFunction? || v.VCellWrapper? || v.VPositionalWrapper? || v.VChecked?
  }

  /** `type(v).__name__`. */
  function TypeName(v: Value): string
  {
    match v
    case VNone => "NoneType"
    case VBool(_) => "bool"
    case VInt(_) => "int"
    case VStr(_) => "str"
    case VList(_) => "list"
    case VDict(_) => "dict"
    case VType(_) => "type"
    case VClass(_) => "type"
    case VObject(c, _) => c
    case VFunctionInfo(_, _) => "FunctionInfo"
    case _ => "function"
  }

  /** `isinstance(v, t)`: `t` must be a type; `bool` counts as an `int` and everything as an `object`. */
  function IsInstance(v: Value, t: Value): (r: Result<bool>)
    ensures r.Err? <==> !(t.VType? || t.VClass?)
    ensures r == Ok(true) && t.VType? && t.tname !in {"object", "int"} ==> TypeName(v) == t.tname
  {
    match t
    case VType(n) => Ok(n == "object" || TypeName(v) == n || (n == "int" && v.VBool?))
    case VClass(n) => Ok(v.VObject? && v.oclass == n)
    case _ => Err(TypeError)
  }

  /** What the quiz system gets from the outside world: the SHA-1 hex digest, `str()` of values the
      model does not spell out, and the attributes a class object it only names (`VType`, `VClass`)
      provides to a class that lists it among its bases. */
  datatype Env = Env(sha1Hex: string -> string, show: Value -> string, attrsOf: Value -> map<string, Value>)

  /** `hexdigest()`: forty lowercase hexadecimal digits. */
  predicate IsHexDigest(h: string)
  {
    |h| == 40 && forall i :: 0 <= i < |h| ==> h[i] in "0123456789abcdef"
  }

  /** The digest function behaves as SHA-1's `hexdigest()` does for every input. */
  ghost predicate HexDigests(env: Env)
  {
    forall s :: IsHexDigest(env.sha1Hex(s))
  }

  /** `str(v)`. */
  function Str(env: Env, v: Value): string
  {
    match v
    case VStr(s) => s
    case VNone => "None"
    case VBool(b) => if b then "True" else "False"
    case VInt(i) => IntToString(i)
    case _ => env.show(v)
  }

  /** `str(v.__class__)`. */
  function ClassText(v: Value): string
  {
    "<class '" + TypeName(v) + "'>"
  }

  // ---------------------------------------------------------------- exceptions

  /** The assertion messages the system raises, one constructor per message. */
  datatype Msg =
    | NoSolutionTag(tag: string)
    | NoCellWithTag(cellTag: Value)
    | MissingSyntax
    | ForbiddenSyntax
    | NotIterable(attr: string, v: Value)
    | UndefinedDocVariable(key: string)
    | NameRequired
    | AnnotationsRequired
    | AnnotationsNotDict
    | AnnotationsNoReturn
    | AnnotationRefMissing(ref: string)
    | AnnotationRefMissingLegacy(ref: string)
    | NameNotDefined(name: Value)
    | NotDefined(name: Value)
    | NotCallable(name: Value)
    | NotAFunction(name: Value)
    | NoDocstring(name: Value)
    | WrongArgCount(name: Value)
    | MisplacedArgument(arg: string)
    | AnnotationsNone
    | WrongReturnType(name: Value, rval: Value, typ: Value)
    | NotNone(name: Value, rval: Value)
    | NeverAssigned(variable: Value)
    | FuncInfoMissing
    | FuncInfoWrongType
    | NoCellTagged(tag: string)
    | NoFunctionNamed(name: Value)

  /** The text of each assertion message. */
  function MsgText(m: Msg, env: Env): string
  {
    match m
    case NoSolutionTag(t) => "I can't find a solution with the tag " + t + "."
    case NoCellWithTag(t) => "I can't find a cell with the tag " + Str(env, t) + " in the docstring."
    case MissingSyntax => "The solution is missing required syntax."
    case ForbiddenSyntax => "The solution uses forbidden syntax."
    case NotIterable(a, v) => "`" + a + "` must be iterable, not a " + ClassText(v)
    case UndefinedDocVariable(k) =>
      "The question text references a variable '" + k + "' that is not present in the class definition."
    case NameRequired => "The `name` attribute is required in a FunctionQuestion."
    case AnnotationsRequired => "The attribute `annotations` is required in a FunctionQuestion"
    case AnnotationsNotDict => "The `annotations` attribute must be a dictionary"
    case AnnotationsNoReturn => "The `annotations` dictionary must contain the \"return\" key."
    case AnnotationRefMissing(a) =>
      "The annotation dictionary references \"" + a + "\" but the class does not have a matching variable."
    case AnnotationRefMissingLegacy(a) =>
      "The annotation dictionary references " + a + " but the class does not have a matching attribute."
    case NameNotDefined(n) => "The name " + Str(env, n) + " has not been defined."
    case NotDefined(n) => Str(env, n) + " is not defined."
    case NotCallable(n) => Str(env, n) + " is not a function (did you redefine it?)."
    case NotAFunction(n) => Str(env, n) + " is not a function."
    case NoDocstring(n) => "The function " + Str(env, n) + " has no docstring."
    case WrongArgCount(n) => "The function " + Str(env, n) + " has the wrong number of arguments."
    case MisplacedArgument(a) => "The argument \"" + a + "\" is misspelled or in the wrong place."
    case AnnotationsNone => "annotations cannot be none in a FunctionQuestion."
    case WrongReturnType(n, r, t) =>
      "The function " + Str(env, n) + " returned " + Str(env, r) + " not a " + Str(env, t)
    case NotNone(n, r) => "The function " + Str(env, n) + " returned " + Str(env, r) + " instead of None"
    case NeverAssigned(v) => "The variable \"" + Str(env, v) + "\" was never assigned."
    case FuncInfoMissing => "Function tests must have the \"func_info\" attribute."
    case FuncInfoWrongType => "The func_info attribute must be a FunctionInfo"
    case NoCellTagged(t) => "I can't find a cell with the tag " + t
    case NoFunctionNamed(n) => "I can't find a function named \"" + Str(env, n) + "\" "
  }

  /** A raised exception. `Raised` stands for an exception out of code the model does not see
      (reading a notebook file, executing its source). */
  datatype Error =
    | AssertionError(msg: Msg)
    | AttributeError(attr: string)
    | KeyError(key: Value)
    | IndexError
    | TypeError
    | ValueError(text: string)
    | Raised(reason: string)

  datatype Result<T> = Ok(value: T) | Err(error: Error)

  /** A successful outcome without a value is `Ok(())`. */
  lemma OkUnit(r: Result<()>)
    requires r.Ok?
    ensures r == Ok(())
  {
    match r.value { case () => }
  }

  // ---------------------------------------------------------------- class objects and cells

  /** Which framework base class a question class derives from. */
  datatype Kind = QuestionKind | FunctionKind | CellKind

  /**
   * A question class object. Its attribute lookup sees its own `__dict__` first and then what it
   * inherits. `validate()` assigns class attributes, so `own` is mutable; the inherited attributes
   * are those of the bases at the time the class is examined.
   */
  class PyClass {
    const name: string
    const kind: Kind
    /** One of the framework classes `TestQuestion`, `FunctionQuestion` or `CellQuestion` itself. */
    const framework: bool
    const bases: seq<string>
    const inherited: map<string, Value>
    var own: map<string, Value>

    constructor (name: string, kind: Kind, framework: bool, bases: seq<string>,
                 inherited: map<string, Value>, own: map<string, Value>)
      ensures this.name == name && this.kind == kind && this.framework == framework
      ensures this.bases == bases && this.inherited == inherited && this.own == own
    {
      this.name := name;
      this.kind := kind;
      this.framework := framework;
      this.bases := bases;
      this.inherited := inherited;
      this.own := own;
    }

    /** Every attribute `getattr` finds, as `dir(cls)` lists them. */
    function Attrs(): map<string, Value>
      reads this
    {
      inherited + own
    }
  }

  /** What the notebook analysis records about a function defined in a cell. */
  datatype FunctionFacts = FunctionFacts(arguments: seq<string>, hasDocstring: bool)

  /**
   * A cached, executed notebook cell: the syntax node types of its tree, the functions, classes and
   * variables it defines, and its namespace, which the question code writes wrappers into.
   */
  class CellEntry {
    const kinds: set<Value>
    const functions: map<string, FunctionFacts>
    const classes: set<string>
    const assignments: set<string>
    var ns: map<string, Value>

    constructor (kinds: set<Value>, functions: map<string, FunctionFacts>, classes: set<string>,
                 assignments: set<string>, ns: map<string, Value>)
      ensures this.kinds == kinds && this.functions == functions && this.classes == classes
      ensures this.assignments == assignments && this.ns == ns
    {
      this.kinds := kinds;
      this.functions := functions;
      this.classes := classes;
      this.assignments := assignments;
      this.ns := ns;
    }
  }

  /** A `QuestionGroup`: an ordered list of question classes. */
  class QuestionGroup {
    const data: seq<PyClass>

    constructor (data: seq<PyClass>)
      ensures this.data == data
    {
      this.data := data;
    }
  }

  /** What executing a test bank notebook binds to a top-level name. */
  datatype NsValue =
    | NsQuestion(q: PyClass)
    | NsGroup(g: QuestionGroup)
    | NsClass(c: Value)
    | NsOther(v: Value)

  /** What a running test case holds in `self.solution`. */
  datatype Solution = SEntry(entry: CellEntry) | SValue(v: Value)

  /** A test case instance of a question class. */
  class TestInstance {
    const cls: PyClass
    var solutionCell: Option<CellEntry>
    var solution: Option<Solution>

    constructor (cls: PyClass, solutionCell: Option<CellEntry>)
      ensures this.cls == cls && this.solutionCell == solutionCell && this.solution.None?
    {
      this.cls := cls;
      this.solutionCell := solutionCell;
      this.solution := None;
    }
  }
}
