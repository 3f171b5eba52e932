/**
 * Model of the question classes of src/nbquiz/question.py: `TestQuestion`, `FunctionQuestion`,
 * `CellQuestion` and `QuestionGroup`. Class-level operations (`validate`, `question`, `variant`)
 * take the class object; the test case life cycle (`__init__`, `setUp`) works on a `TestInstance`.
 */
module Question {
  import opened Strings
  import opened PyModel

  // ================================================================ tags

  /** `cellid()`: the class name in tag format. */
  function Cellid(name: string): (r: string)
    ensures |r| == |name| + 1 && r[0] == '@' && r[1..] == name
  {
    "@" + name
  }

  /** The lowercased upper-case letters of `s`, in order. */
  function Initials(s: string): (r: string)
    ensures |r| <= |s|
    decreases |s|
  {
    if s == [] then "" else (if IsUpper(s[0]) then [Lower(s[0])] else "") + Initials(s[1..])
  }

  /** The initials are lower-case letters. */
  lemma {:induction false} InitialsLower(s: string)
    ensures forall i :: 0 <= i < |Initials(s)| ==> IsLower(Initials(s)[i])
    decreases |s|
  {
    if s != [] {
      InitialsLower(s[1..]);
    }
  }

  /** `celltag()`: `@`, the lowercased first letter and the initials of the rest of the name, a dash
      and the first four hex digits of the SHA-1 of the name. An empty name cannot be indexed. */
  function Celltag(name: string, env: Env): (r: Result<string>)
    ensures r.Err? <==> name == []
    ensures r.Err? ==> r.error == IndexError
  {
    if name == [] then Err(IndexError)
    else Ok("@" + [Lower(name[0])] + Initials(name[1..]) + "-" + Take(env.sha1Hex(name), 4))
  }

  /** A tag splits at its first dash into the abbreviated name and the hash prefix. */
  lemma CelltagShape(name: string, env: Env)
    requires name != [] && name[0] != '-'
    ensures Celltag(name, env).Ok?
    ensures var t := Celltag(name, env).value;
            var d := FirstIndex(t, '-');
            t[0] == '@' && t[1] == Lower(name[0])
            && d == 2 + |Initials(name[1..])| && t[2..d] == Initials(name[1..])
            && t[d + 1..] == Take(env.sha1Hex(name), 4) && |t[d + 1..]| <= 4
  {
    var ini := Initials(name[1..]);
    InitialsLower(name[1..]);
    var t := Celltag(name, env).value;
    var h := Take(env.sha1Hex(name), 4);
    assert t == "@" + [Lower(name[0])] + ini + "-" + h;
    var d := 2 + |ini|;
    assert t[d] == '-';
    assert forall i :: 2 <= i < d ==> t[i] == ini[i - 2];
    assert Lower(name[0]) != '-';
    assert FirstIndex(t, '-') == d;
    assert t[2..d] == ini;
    assert t[d + 1..] == h;
  }

  /** With a digest of forty hexadecimal digits, the tag ends in exactly four of them. */
  lemma CelltagDigits(name: string, env: Env)
    requires HexDigests(env) && name != [] && name[0] != '-'
    ensures Celltag(name, env).Ok?
    ensures var t := Celltag(name, env).value;
            var d := FirstIndex(t, '-');
            |t| == d + 5 && forall i :: d < i < |t| ==> t[i] in "0123456789abcdef"
  {
    CelltagShape(name, env);
    var h := env.sha1Hex(name);
    assert IsHexDigest(h);
    var t := Celltag(name, env).value;
    var d := FirstIndex(t, '-');
    assert t[d + 1..] == h[..4];
    forall i | d < i < |t|
      ensures t[i] in "0123456789abcdef"
    {
      assert t[i] == t[d + 1..][i - d - 1] == h[i - d - 1];
    }
  }

  // ================================================================ class attributes

  function Attr(attrs: map<string, Value>, a: string): (r: Result<Value>)
    ensures r.Ok? <==> a in attrs
    ensures r.Ok? ==> r.value == attrs[a]
  {
    if a in attrs then Ok(attrs[a]) else Err(AttributeError(a))
  }

  /** The keyword arguments `{item: getattr(cls, item) for item in dir(cls)}` as a format sees them. */
  function Rendered(attrs: map<string, Value>, env: Env): (r: map<string, string>)
    ensures r.Keys == attrs.Keys
  {
    map a | a in attrs :: Str(env, attrs[a])
  }

  /** The same attributes, each rendered inside backticks. */
  function Backticked(attrs: map<string, Value>, env: Env): (r: map<string, string>)
    ensures r.Keys == attrs.Keys
  {
    map a | a in attrs :: "`" + Str(env, attrs[a]) + "`"
  }

  /** `assert isinstance(cls.<a>, Iterable)`. */
  function CheckIterable(attrs: map<string, Value>, a: string): (r: Result<()>)
    ensures r.Ok? <==> a in attrs && IsIterable(attrs[a])
  {
    if a !in attrs then Err(AttributeError(a))
    else if IsIterable(attrs[a]) then Ok(())
    else Err(AssertionError(NotIterable(a, attrs[a])))
  }

  /** Formatting the docstring with the class attributes (question.py:108-113): a missing key is
      reported by name; every other failure escapes as it is, the `IndexError` of a positional
      field such as `{}` or `{0}` included, since only `KeyError` is caught. */
  function DocCheck(attrs: map<string, Value>, env: Env): (r: Result<()>)
    ensures r.Ok? <==> "__doc__" in attrs && attrs["__doc__"].VStr?
                       && Format(attrs["__doc__"].s, Rendered(attrs, env)).Formatted?
  {
    if "__doc__" !in attrs then Err(AttributeError("__doc__"))
    else if !attrs["__doc__"].VStr? then Err(AttributeError("format"))
    else
      match Format(attrs["__doc__"].s, Rendered(attrs, env))
      case Formatted(_) => Ok(())
      case MissingKey(k) => Err(AssertionError(UndefinedDocVariable(k)))
      case Malformed => Err(ValueError("invalid format string"))
      case Positional => Err(IndexError)
  }

  /** A docstring holding a positional field such as `{}` or `{0}` fails the docstring check with
      `IndexError`, which the `except KeyError` there does not catch. */
  lemma DocCheckPositional(attrs: map<string, Value>, env: Env, a: string, k: string, b: string)
    requires "__doc__" in attrs && attrs["__doc__"] == VStr(a + "{" + k + "}" + b)
    requires BraceFree(a) && BraceFree(b) && BraceFree(k) && PositionalField(k)
    ensures DocCheck(attrs, env) == Err(IndexError)
  {
    FormatOnePlaceholder(a, k, b, Rendered(attrs, env));
  }

  /** `TestQuestion.validate` (question.py:96-113). */
  function BaseValidate(attrs: map<string, Value>, env: Env): Result<()>
  {
    var req := CheckIterable(attrs, "tokens_required");
    if req.Err? then req
    else
      var forb := CheckIterable(attrs, "tokens_forbidden");
      if forb.Err? then forb
      else DocCheck(attrs, env)
  }

  /** The checks of `FunctionQuestion.validate` before the annotations are resolved
      (question.py:254-263); yields the annotation entries. */
  function FunctionPrechecks(attrs: map<string, Value>): (r: Result<Dict>)
    ensures r.Ok? ==> "annotations" in attrs && attrs["annotations"] == VDict(r.value)
  {
    if "name" !in attrs then Err(AttributeError("name"))
    else if attrs["name"] == VNone then Err(AssertionError(NameRequired))
    else if "annotations" !in attrs then Err(AssertionError(AnnotationsRequired))
    else if !attrs["annotations"].VDict? then Err(AssertionError(AnnotationsNotDict))
    else if !HasKey(attrs["annotations"].entries, VStr("return")) then Err(AssertionError(AnnotationsNoReturn))
    else Ok(attrs["annotations"].entries)
  }

  /** `FunctionQuestion.validate` (question.py:252-265), inherited by `CellQuestion`. */
  function FunctionValidate(attrs: map<string, Value>, env: Env): Result<()>
  {
    var pre := FunctionPrechecks(attrs);
    if pre.Err? then Err(pre.error)
    else
      var res := Resolve(attrs, false);
      if res.Err? then Err(res.error)
      else BaseValidate(attrs, env)
  }

  /** What `validate()` reports for a class of the given kind with the given attributes. */
  function ValidateSpec(kind: Kind, attrs: map<string, Value>, env: Env): Result<()>
  {
    if kind == QuestionKind then BaseValidate(attrs, env) else FunctionValidate(attrs, env)
  }

  /** The class dictionary after `validate()`: a `CellQuestion` names its solution `_cell_wrapper`
      (question.py:291-295); nothing else is assigned. */
  function ValidatedOwn(kind: Kind, own: map<string, Value>): (r: map<string, Value>)
    ensures kind != CellKind ==> r == own
    ensures kind == CellKind ==> r.Keys == own.Keys + {"name"} && r["name"] == VStr("_cell_wrapper")
  {
    if kind == CellKind then own["name" := VStr("_cell_wrapper")] else own
  }

  /** Validation assigns nothing but the solution's name. */
  lemma ValidatedOwnKeeps(kind: Kind, own: map<string, Value>)
    ensures forall a :: a in own && a != "name" ==> a in ValidatedOwn(kind, own) && ValidatedOwn(kind, own)[a] == own[a]
  {
  }

  /** Every requirement `validate()` enforces, stated independently of the order it checks them in. */
  predicate WellFormed(kind: Kind, attrs: map<string, Value>, env: Env)
  {
    && "tokens_required" in attrs && IsIterable(attrs["tokens_required"])
    && "tokens_forbidden" in attrs && IsIterable(attrs["tokens_forbidden"])
    && "__doc__" in attrs && attrs["__doc__"].VStr?
    && Format(attrs["__doc__"].s, Rendered(attrs, env)).Formatted?
    && (kind != QuestionKind ==>
          && "name" in attrs && attrs["name"] != VNone
          && "annotations" in attrs && attrs["annotations"].VDict?
          && HasKey(attrs["annotations"].entries, VStr("return"))
          && AllResolvable(attrs["annotations"].entries, attrs, false))
  }

  /** `validate()` passes exactly when the class is well formed. */
  lemma ValidateIff(kind: Kind, attrs: map<string, Value>, env: Env)
    ensures ValidateSpec(kind, attrs, env).Ok? <==> WellFormed(kind, attrs, env)
  {
    if kind != QuestionKind && "annotations" in attrs && attrs["annotations"].VDict? {
      ResolveOkIff([], attrs["annotations"].entries, attrs, false);
    }
  }

  /** `validate()` as it runs: it may assign `name`, then checks the attributes it then sees. */
  method Validate(c: PyClass, env: Env) returns (r: Result<()>)
    modifies c
    ensures c.own == ValidatedOwn(c.kind, old(c.own))
    ensures r == ValidateSpec(c.kind, c.Attrs(), env)
  {
    if c.kind == CellKind {
      c.own := c.own["name" := VStr("_cell_wrapper")];
    }
    var attrs := c.Attrs();
    if c.kind == QuestionKind {
      return BaseValidate(attrs, env);
    }
    var pre := FunctionPrechecks(attrs);
    if pre.Err? {
      return Err(pre.error);
    }
    var resolved := ResolveAnnotations(attrs, false);
    if resolved.Err? {
      return Err(resolved.error);
    }
    r := BaseValidate(attrs, env);
  }

  /** The attributes a class has once `validate()` has run on it. */
  function ValidatedAttrs(c: PyClass): map<string, Value>
    reads c
  {
    c.inherited + ValidatedOwn(c.kind, c.own)
  }

  /** What `validate()` reports for `c`, however often it has already run. */
  function Verdict(c: PyClass, env: Env): Result<()>
    reads c
  {
    ValidateSpec(c.kind, ValidatedAttrs(c), env)
  }

  /** Running `validate()` again changes nothing and reports the same. */
  lemma ValidateIdempotent(kind: Kind, inherited: map<string, Value>, own: map<string, Value>, env: Env)
    ensures ValidatedOwn(kind, ValidatedOwn(kind, own)) == ValidatedOwn(kind, own)
    ensures ValidateSpec(kind, inherited + ValidatedOwn(kind, ValidatedOwn(kind, own)), env)
         == ValidateSpec(kind, inherited + ValidatedOwn(kind, own), env)
  {
    if kind == CellKind {
      assert own["name" := VStr("_cell_wrapper")]["name" := VStr("_cell_wrapper")] == own["name" := VStr("_cell_wrapper")];
    }
  }

  /** `QuestionGroup.validate` (question.py:168-170): validates the members in order and stops at the
      first failure. */
  method GroupValidate(g: QuestionGroup, env: Env) returns (r: Result<()>)
    modifies set q | q in g.data
    ensures r == old(GroupVerdict(g.data, env))
    ensures forall j :: 0 <= j < |g.data| ==>
              g.data[j].own == old(g.data[j].own) || g.data[j].own == ValidatedOwn(g.data[j].kind, old(g.data[j].own))
    ensures r.Ok? ==> forall j :: 0 <= j < |g.data| ==> g.data[j].own == ValidatedOwn(g.data[j].kind, old(g.data[j].own))
  {
    ghost var owns := Owns(g.data);
    ghost var done := seq(|owns|, k requires 0 <= k < |owns| => ValidatedOwn(g.data[k].kind, owns[k]));
    ghost var expected := GroupVerdict(g.data, env);
    GroupVerdictOwns(g.data, env);
    var i := 0;
    while i < |g.data|
      invariant i <= |g.data|
      invariant Progress(g.data, owns, done, i)
      invariant expected == FirstFailure(g.data, owns, i, env)
    {
      var v := ValidateMember(g.data, i, owns, done, env);
      if v.Err? {
        return v;
      }
      i := i + 1;
    }
    r := Ok(());
  }

  /** Validation of the members has reached member `i`: the members before it hold their validated
      dictionaries `done`, and every member holds either that or its original dictionary `owns`. A
      member may be a class already validated as an earlier member. */
  ghost predicate Progress(qs: seq<PyClass>, owns: seq<map<string, Value>>, done: seq<map<string, Value>>, i: nat)
    reads set q | q in qs
  {
    && |owns| == |qs| == |done| && i <= |qs|
    && (forall j :: 0 <= j < |qs| ==> done[j] == ValidatedOwn(qs[j].kind, owns[j]))
    && (forall j :: 0 <= j < |qs| ==> qs[j].own == owns[j] || qs[j].own == done[j])
    && (forall j :: 0 <= j < i ==> qs[j].own == done[j])
  }

  /** One pass of the loop of `QuestionGroup.validate`: validates member `i`. */
  method ValidateMember(qs: seq<PyClass>, i: nat, ghost owns: seq<map<string, Value>>, ghost done: seq<map<string, Value>>,
                        env: Env) returns (r: Result<()>)
    requires i < |qs| && Progress(qs, owns, done, i)
    modifies qs[i]
    ensures r == MemberVerdict(qs[i], owns[i], env)
    ensures Progress(qs, owns, done, i + 1)
  {
    var q := qs[i];
    r := ValidateAgain(q, owns[i], env);
    forall j | 0 <= j < |qs|
      ensures qs[j].own == owns[j] || qs[j].own == done[j]
      ensures j <= i ==> qs[j].own == done[j]
    {
      if qs[j] == q {
        assert done[j] == done[i];
      } else {
        assert qs[j].own == old(qs[j].own);
      }
    }
  }

  /** The class dictionaries of the members, as they are now. */
  function Owns(qs: seq<PyClass>): (r: seq<map<string, Value>>)
    reads set q | q in qs
    ensures |r| == |qs| && forall k :: 0 <= k < |qs| ==> r[k] == qs[k].own
    decreases |qs|
  {
    if qs == [] then [] else [qs[0].own] + Owns(qs[1..])
  }

  /** What `validate()` reports for `c` had its dictionary been `own`. */
  function MemberVerdict(c: PyClass, own: map<string, Value>, env: Env): Result<()>
  {
    ValidateSpec(c.kind, c.inherited + ValidatedOwn(c.kind, own), env)
  }

  /** The first failing verdict among the members from `i` on, whose dictionaries were `owns`. */
  function FirstFailure(qs: seq<PyClass>, owns: seq<map<string, Value>>, i: nat, env: Env): Result<()>
    requires |owns| == |qs| && i <= |qs|
    decreases |qs| - i
  {
    if i == |qs| then Ok(())
    else if MemberVerdict(qs[i], owns[i], env).Err? then MemberVerdict(qs[i], owns[i], env)
    else FirstFailure(qs, owns, i + 1, env)
  }

  /** The group's verdict is the first failure over a snapshot of the members' dictionaries. */
  lemma GroupVerdictOwns(qs: seq<PyClass>, env: Env)
    ensures GroupVerdict(qs, env) == FirstFailure(qs, Owns(qs), 0, env)
  {
    GroupVerdictFrom(qs, Owns(qs), 0, env);
  }

  lemma {:induction false} GroupVerdictFrom(qs: seq<PyClass>, owns: seq<map<string, Value>>, i: nat, env: Env)
    requires |owns| == |qs| && i <= |qs|
    requires forall k :: 0 <= k < |qs| ==> owns[k] == qs[k].own
    ensures GroupVerdict(qs[i..], env) == FirstFailure(qs, owns, i, env)
    decreases |qs| - i
  {
    if i < |qs| {
      assert qs[i..][0] == qs[i] && qs[i..][1..] == qs[i + 1..];
      GroupVerdictFrom(qs, owns, i + 1, env);
    }
  }

  /** `validate()` of a member that may already have been validated since its dictionary was `own`. */
  method ValidateAgain(c: PyClass, ghost own: map<string, Value>, env: Env) returns (r: Result<()>)
    requires c.own == own || c.own == ValidatedOwn(c.kind, own)
    modifies c
    ensures c.own == ValidatedOwn(c.kind, own)
    ensures r == MemberVerdict(c, own, env)
  {
    ValidateIdempotent(c.kind, c.inherited, own, env);
    r := Validate(c, env);
  }

  /** The first failing verdict among the members, if any. */
  function GroupVerdict(qs: seq<PyClass>, env: Env): (r: Result<()>)
    reads set q | q in qs
    ensures r.Ok? <==> forall i :: 0 <= i < |qs| ==> Verdict(qs[i], env).Ok?
    decreases |qs|
  {
    if qs == [] then Ok(())
    else if Verdict(qs[0], env).Err? then Verdict(qs[0], env)
    else GroupVerdict(qs[1..], env)
  }

  // ================================================================ annotation references

  /** `re.match(r"^\s*{\s*(\S+)\s*}\s*$", s)`: the referenced attribute name, if `s` is a reference. */
  function MatchRef(s: string): Option<string>
  {
    var t := Strip(s);
    if |t| >= 2 && t[0] == '{' && t[|t| - 1] == '}' then
      var g := Strip(t[1..|t| - 1]);
      if g != [] && NoSpace(g) then Some(g) else None
    else None
  }

  /** The whitespace runs around the braces and the name of a reference. */
  function RefSpacing(s: string): (string, string, string, string)
  {
    var l := LStrip(s);
    var t := Strip(s);
    var w1 := s[..|s| - |l|];
    var w4 := l[|t|..];
    if |t| < 2 then (w1, "", "", w4)
    else
      var inner := t[1..|t| - 1];
      var l2 := LStrip(inner);
      var g := Strip(inner);
      (w1, inner[..|inner| - |l2|], l2[|g|..], w4)
  }

  /** Every reference the pattern accepts has the shape the pattern describes. */
  lemma MatchRefSound(s: string)
    requires MatchRef(s).Some?
    ensures var g := MatchRef(s).value;
            var (w1, w2, w3, w4) := RefSpacing(s);
            g != [] && NoSpace(g) && AllSpace(w1) && AllSpace(w2) && AllSpace(w3) && AllSpace(w4)
            && s == w1 + "{" + w2 + g + w3 + "}" + w4
  {
    var t := Strip(s);
    StripSplit(s);
    var inner := t[1..|t| - 1];
    StripSplit(inner);
    var g := Strip(inner);
    var w1 := s[..|s| - |LStrip(s)|];
    var w4 := LStrip(s)[|t|..];
    var w2 := inner[..|inner| - |LStrip(inner)|];
    var w3 := LStrip(inner)[|g|..];
    assert RefSpacing(s) == (w1, w2, w3, w4);
    assert s == w1 + t + w4;
    assert t == "{" + inner + "}";
    assert inner == w2 + g + w3;
    ConcatShape(s, w1, t, w4, w2, g, w3, inner);
  }

  lemma ConcatShape(s: string, w1: string, t: string, w4: string, w2: string, g: string, w3: string, inner: string)
    requires s == w1 + t + w4 && t == "{" + inner + "}" && inner == w2 + g + w3
    ensures s == w1 + "{" + w2 + g + w3 + "}" + w4
  {
  }

  /** Every text of that shape is accepted, with the name in the braces as the reference. */
  lemma MatchRefComplete(w1: string, w2: string, g: string, w3: string, w4: string)
    requires AllSpace(w1) && AllSpace(w2) && AllSpace(w3) && AllSpace(w4)
    requires g != [] && NoSpace(g)
    ensures MatchRef(w1 + "{" + w2 + g + w3 + "}" + w4) == Some(g)
  {
    var x := "{" + w2 + g + w3 + "}";
    assert w1 + "{" + w2 + g + w3 + "}" + w4 == w1 + x + w4;
    StripExact(w1, x, w4);
    assert x[1..|x| - 1] == w2 + g + w3;
    StripExact(w2, g, w3);
  }

  /** The dictionary key an annotation key stands for (question.py:243-249): a reference `{ attr }`
      becomes the value of `attr`, which must exist and be hashable; any other string stays. */
  function ResolveKey(an: Value, attrs: map<string, Value>, legacy: bool): (r: Result<Value>)
    ensures r.Ok? ==> Hashable(r.value)
  {
    if !an.VStr? then Err(TypeError)
    else
      match MatchRef(an.s)
      case None => Ok(an)
      case Some(a) =>
        if a !in attrs then
          Err(AssertionError(if legacy then AnnotationRefMissingLegacy(a) else AnnotationRefMissing(a)))
        else if !Hashable(attrs[a]) then Err(TypeError)
        else Ok(attrs[a])
  }

  predicate AllResolvable(items: Dict, attrs: map<string, Value>, legacy: bool)
  {
    forall i :: 0 <= i < |items| ==> ResolveKey(items[i].0, attrs, legacy).Ok?
  }

  /** Resolving the remaining `items` into the dictionary built so far. */
  function ResolveInto(acc: Dict, items: Dict, attrs: map<string, Value>, legacy: bool): Result<Dict>
    decreases |items|
  {
    if items == [] then Ok(acc)
    else
      var k := ResolveKey(items[0].0, attrs, legacy);
      if k.Err? then Err(k.error)
      else ResolveInto(Set(acc, k.value, items[0].1), items[1..], attrs, legacy)
  }

  /** `_resolve_annotations()` of a class with these attributes. */
  function Resolve(attrs: map<string, Value>, legacy: bool): Result<Dict>
  {
    if "annotations" !in attrs then Err(AttributeError("annotations"))
    else if !attrs["annotations"].VDict? then Err(AttributeError("items"))
    else ResolveInto([], attrs["annotations"].entries, attrs, legacy)
  }

  /** `_resolve_annotations` (question.py:239-250), with the message of the legacy package when
      `legacy` holds (nbquiz/testcase.py:145-156). */
  method ResolveAnnotations(attrs: map<string, Value>, legacy: bool) returns (r: Result<Dict>)
    ensures r == Resolve(attrs, legacy)
  {
    if "annotations" !in attrs {
      return Err(AttributeError("annotations"));
    }
    if !attrs["annotations"].VDict? {
      return Err(AttributeError("items"));
    }
    var items := attrs["annotations"].entries;
    var formatted: Dict := [];
    var i := 0;
    while i < |items|
      invariant 0 <= i <= |items|
      invariant ResolveInto([], items, attrs, legacy) == ResolveInto(formatted, items[i..], attrs, legacy)
    {
      var an := items[i].0;
      var typ := items[i].1;
      assert items[i..][1..] == items[i + 1..];
      if !an.VStr? {
        return Err(TypeError);
      }
      var m := MatchRef(an.s);
      if m.Some? {
        var a := m.value;
        if a !in attrs {
          return Err(AssertionError(if legacy then AnnotationRefMissingLegacy(a) else AnnotationRefMissing(a)));
        }
        if !Hashable(attrs[a]) {
          return Err(TypeError);
        }
        formatted := Set(formatted, attrs[a], typ);
      } else {
        formatted := Set(formatted, an, typ);
      }
      i := i + 1;
    }
    r := Ok(formatted);
  }

  /** Resolution succeeds exactly when every key resolves. */
  lemma {:induction false} ResolveOkIff(acc: Dict, items: Dict, attrs: map<string, Value>, legacy: bool)
    ensures ResolveInto(acc, items, attrs, legacy).Ok? <==> AllResolvable(items, attrs, legacy)
    decreases |items|
  {
    if items != [] {
      var k := ResolveKey(items[0].0, attrs, legacy);
      if k.Ok? {
        ResolveOkIff(Set(acc, k.value, items[0].1), items[1..], attrs, legacy);
        assert AllResolvable(items, attrs, legacy) <==> AllResolvable(items[1..], attrs, legacy) by {
          assert forall i :: 1 <= i < |items| ==> items[1..][i - 1] == items[i];
        }
      }
    }
  }

  /** `items` with every key replaced by what it resolves to; meaningful when every key resolves. */
  function Rekeyed(items: Dict, attrs: map<string, Value>, legacy: bool): (r: Dict)
    requires AllResolvable(items, attrs, legacy)
    ensures |r| == |items|
    decreases |items|
  {
    if items == [] then []
    else
      assert AllResolvable(items[1..], attrs, legacy) by {
        assert forall i :: 0 <= i < |items| - 1 ==> items[1..][i] == items[i + 1];
      }
      [(ResolveKey(items[0].0, attrs, legacy).value, items[0].1)] + Rekeyed(items[1..], attrs, legacy)
  }

  /** When the resolved keys are all different, resolution replaces each reference by the attribute's
      value, keeps every other key, keeps every value and keeps the order. */
  lemma {:induction false} ResolveDistinct(acc: Dict, items: Dict, attrs: map<string, Value>, legacy: bool)
    requires AllResolvable(items, attrs, legacy)
    requires DistinctKeys(acc + Rekeyed(items, attrs, legacy))
    ensures ResolveInto(acc, items, attrs, legacy) == Ok(acc + Rekeyed(items, attrs, legacy))
    decreases |items|
  {
    if items == [] {
      assert acc + [] == acc;
    } else {
      var re := Rekeyed(items, attrs, legacy);
      var k := re[0].0;
      var rest := Rekeyed(items[1..], attrs, legacy);
      assert re == [re[0]] + rest;
      assert !HasKey(acc, k) by {
        forall j | 0 <= j < |acc| ensures acc[j].0 != k {
          assert (acc + re)[j] == acc[j] && (acc + re)[|acc|] == re[0];
        }
      }
      SetFresh(acc, k, items[0].1);
      assert acc + re == (acc + [re[0]]) + rest;
      ResolveDistinct(acc + [re[0]], items[1..], attrs, legacy);
    }
  }

  /** Plain keys resolve to themselves. */
  lemma {:induction false} ResolvePlain(items: Dict, attrs: map<string, Value>, legacy: bool)
    requires forall i :: 0 <= i < |items| ==> items[i].0.VStr? && MatchRef(items[i].0.s).None?
    requires AllResolvable(items, attrs, legacy)
    ensures Rekeyed(items, attrs, legacy) == items
    decreases |items|
  {
    if items != [] {
      assert AllResolvable(items[1..], attrs, legacy) by {
        assert forall i :: 0 <= i < |items| - 1 ==> items[1..][i] == items[i + 1];
      }
      ResolvePlain(items[1..], attrs, legacy);
    }
  }

  /** An annotation dictionary with no references and no repeated keys resolves to itself. */
  lemma PlainAnnotationsResolveToThemselves(items: Dict, attrs: map<string, Value>, legacy: bool)
    requires forall i :: 0 <= i < |items| ==> items[i].0.VStr? && MatchRef(items[i].0.s).None?
    requires DistinctKeys(items)
    ensures Resolve(attrs["annotations" := VDict(items)], legacy) == Ok(items)
  {
    var attrs' := attrs["annotations" := VDict(items)];
    assert AllResolvable(items, attrs', legacy);
    ResolvePlain(items, attrs', legacy);
    assert [] + items == items;
    ResolveDistinct([], items, attrs', legacy);
  }

  // ================================================================ setUp

  /** The syntax check of `TestQuestion.setUp` (question.py:66-75) against the node types of the
      solution cell. Each token is looked up in a set of node types, so a token that is a list or a
      dict raises `TypeError` before the assertion is reached. */
  function SyntaxCheck(attrs: map<string, Value>, kinds: set<Value>): Result<()>
  {
    if "tokens_required" !in attrs then Err(AttributeError("tokens_required"))
    else
      var req := Iterate(attrs["tokens_required"]);
      if req.None? then Err(TypeError)
      else if !(forall t :: t in req.value ==> Hashable(t)) then Err(TypeError)
      else if !(forall t :: t in req.value ==> t in kinds) then Err(AssertionError(MissingSyntax))
      else if "tokens_forbidden" !in attrs then Err(AttributeError("tokens_forbidden"))
      else if !Truthy(attrs["tokens_forbidden"]) then Ok(())
      else
        var forb := Iterate(attrs["tokens_forbidden"]);
        if forb.None? then Err(TypeError)
        else if !(forall t :: t in forb.value ==> Hashable(t)) then Err(TypeError)
        else if exists t :: t in forb.value && t in kinds then Err(AssertionError(ForbiddenSyntax))
        else Ok(())
  }

  /** The values an iterable attribute yields, as a set. */
  function Members(v: Value): set<Value>
    requires IsIterable(v)
  {
    set t | t in Iterate(v).value
  }

  /** With iterable token lists, the check passes exactly when every token can be looked up, every
      required node type occurs in the solution and no forbidden one does; it raises `TypeError`
      exactly when a required token, or once the required ones are all present a forbidden token,
      cannot be looked up, and fails its assertion otherwise. */
  lemma SyntaxCheckIff(attrs: map<string, Value>, kinds: set<Value>)
    requires "tokens_required" in attrs && IsIterable(attrs["tokens_required"])
    requires "tokens_forbidden" in attrs && IsIterable(attrs["tokens_forbidden"])
    ensures var req, forb := Members(attrs["tokens_required"]), Members(attrs["tokens_forbidden"]);
            SyntaxCheck(attrs, kinds).Ok?
            <==> (forall t :: t in req + forb ==> Hashable(t)) && req <= kinds && forb !! kinds
    ensures var req, forb := Members(attrs["tokens_required"]), Members(attrs["tokens_forbidden"]);
            SyntaxCheck(attrs, kinds) == Err(TypeError)
            <==> (exists t :: t in req && !Hashable(t)) || (req <= kinds && exists t :: t in forb && !Hashable(t))
    ensures SyntaxCheck(attrs, kinds).Err? ==>
              SyntaxCheck(attrs, kinds).error.AssertionError? || SyntaxCheck(attrs, kinds).error == TypeError
  {
    var forb := attrs["tokens_forbidden"];
    TruthyIterable(forb);
    if !Truthy(forb) {
      assert Members(forb) == {};
    }
  }

  /** The `FunctionQuestion.setUp` name lookup (question.py:200-201): the value bound to the name in
      the solution cell. */
  function NameLookup(attrs: map<string, Value>, ns: map<string, Value>): (r: Result<Value>)
    ensures r.Ok? ==> "name" in attrs && attrs["name"].VStr? && attrs["name"].s in ns
                      && r.value == ns[attrs["name"].s]
  {
    if "name" !in attrs then Err(AttributeError("name"))
    else
      var n := attrs["name"];
      if !Hashable(n) then Err(TypeError)
      else if !(n.VStr? && n.s in ns) then Err(AssertionError(NotDefined(n)))
      else Ok(ns[n.s])
  }

  /** The annotation keys other than `return`, in order. */
  function ArgNames(d: Dict): (r: seq<Value>)
    ensures |r| <= |d|
    ensures forall v :: v in r <==> (exists i :: 0 <= i < |d| && d[i].0 == v) && v != VStr("return")
    decreases |d|
  {
    if d == [] then []
    else (if d[0].0 == VStr("return") then [] else [d[0].0]) + ArgNames(d[1..])
  }

  /** The first position where the expected names and the declared parameters differ. */
  function FirstMismatch(expected: seq<Value>, actual: seq<string>): (r: nat)
    requires |expected| == |actual|
    ensures r <= |expected|
    ensures r < |expected| ==> expected[r] != VStr(actual[r])
    ensures forall i :: 0 <= i < r ==> expected[i] == VStr(actual[i])
    decreases |expected|
  {
    if expected == [] then 0
    else if expected[0] != VStr(actual[0]) then 0
    else 1 + FirstMismatch(expected[1..], actual[1..])
  }

  /** The checks on the solution function of a name that does not start with `_`
      (question.py:209-221). */
  function ArgumentCheck(name: Value, functions: map<string, FunctionFacts>, resolved: Result<Dict>): Result<()>
  {
    if !(name.VStr? && name.s in functions) then Err(AssertionError(NotAFunction(name)))
    else if !functions[name.s].hasDocstring then Err(AssertionError(NoDocstring(name)))
    else if resolved.Err? then Err(resolved.error)
    else
      var expected := ArgNames(resolved.value);
      var actual := functions[name.s].arguments;
      if |expected| != |actual| then Err(AssertionError(WrongArgCount(name)))
      else
        var i := FirstMismatch(expected, actual);
        if i < |expected| then Err(AssertionError(MisplacedArgument(actual[i])))
        else Ok(())
  }

  /** The function passes exactly when it is a documented cell function whose parameters are the
      resolved non-`return` annotation keys in order; a wrong parameter is named by its position. */
  lemma ArgumentCheckIff(name: Value, functions: map<string, FunctionFacts>, resolved: Result<Dict>)
    ensures ArgumentCheck(name, functions, resolved).Ok?
        <==> name.VStr? && name.s in functions && functions[name.s].hasDocstring && resolved.Ok?
             && ArgNames(resolved.value) == seq(|functions[name.s].arguments|,
                  i requires 0 <= i < |functions[name.s].arguments| => VStr(functions[name.s].arguments[i]))
    ensures var r := ArgumentCheck(name, functions, resolved);
            resolved.Ok? && r.Err? && r.error.AssertionError? && r.error.msg.MisplacedArgument? ==>
              name.VStr? && name.s in functions
              && var actual := functions[name.s].arguments;
                 var expected := ArgNames(resolved.value);
                 |expected| == |actual|
                 && var k := FirstMismatch(expected, actual);
                    k < |actual| && r.error.msg.arg == actual[k] && expected[k] != VStr(actual[k])
                    && forall i :: 0 <= i < k ==> expected[i] == VStr(actual[i])
  {
    if name.VStr? && name.s in functions && functions[name.s].hasDocstring && resolved.Ok? {
      var expected := ArgNames(resolved.value);
      var actual := functions[name.s].arguments;
      var want := seq(|actual|, i requires 0 <= i < |actual| => VStr(actual[i]));
      if |expected| == |actual| {
        var k := FirstMismatch(expected, actual);
        if k == |expected| {
          assert expected == want;
        } else {
          assert expected[k] != want[k];
        }
      } else {
        assert |want| == |actual|;
      }
    }
  }

  /** Whether the solution function passes the checks of setUp once it has been looked up
      (question.py:203-221). */
  function FunctionChecks(name: Value, raw: Value, functions: map<string, FunctionFacts>,
                          attrs: map<string, Value>): Result<()>
  {
    if !IsCallable(raw) then Err(AssertionError(NotCallable(name)))
    else if name.VStr? && StartsWith(name.s, "_") then Ok(())
    else ArgumentCheck(name, functions, Resolve(attrs, false))
  }

  /** The `_wrapper` that setUp installs around the solution function. */
  function Wrapped(attrs: map<string, Value>, raw: Value): Value
  {
    VChecked(raw, if "name" in attrs then attrs["name"] else VNone,
             if "annotations" in attrs then attrs["annotations"] else VNone, true)
  }

  /** `FunctionQuestion.setUp` (question.py:197-237): the syntax check, the name lookup, the function
      checks, then `self.solution` becomes the checking wrapper. A failed check after the lookup
      leaves the looked-up value in `self.solution`, as the source assigns it before checking. */
  method FunctionSetUp(t: TestInstance) returns (r: Result<()>)
    requires t.solutionCell.Some?
    modifies t
    ensures t.solutionCell == old(t.solutionCell)
    ensures var attrs := t.cls.Attrs();
            var cell := t.solutionCell.value;
            var syn := SyntaxCheck(attrs, cell.kinds);
            var look := NameLookup(attrs, cell.ns);
            if syn.Err? then r == syn && t.solution == old(t.solution)
            else if look.Err? then r == Err(look.error) && t.solution == old(t.solution)
            else
              var chk := FunctionChecks(attrs["name"], look.value, cell.functions, attrs);
              if chk.Err? then r == chk && t.solution == Some(SValue(look.value))
              else r == Ok(()) && t.solution == Some(SValue(Wrapped(attrs, look.value)))
  {
    var attrs := t.cls.Attrs();
    var cell := t.solutionCell.value;
    r := SyntaxCheck(attrs, cell.kinds);
    if r.Err? {
      return;
    }
    var look := NameLookup(attrs, cell.ns);
    if look.Err? {
      return Err(look.error);
    }
    var name := attrs["name"];
    t.solution := Some(SValue(look.value));
    if !IsCallable(look.value) {
      return Err(AssertionError(NotCallable(name)));
    }
    if !StartsWith(name.s, "_") {
      var resolved := ResolveAnnotations(attrs, false);
      r := ArgumentCheck(name, cell.functions, resolved);
      if r.Err? {
        return;
      }
    }
    t.solution := Some(SValue(Wrapped(attrs, look.value)));
    r := Ok(());
  }

  /** Calling the `_wrapper` (question.py:225-234) once the wrapped function has returned `rval`.
      With `noneMeansNone` false it is the wrapper of src/nbquiz/testcase.py:194-199, which always
      asks `isinstance`. */
  function CallChecked(w: Value, rval: Value): (r: Result<Value>)
    requires w.VChecked?
    ensures r.Ok? ==> r.value == rval
  {
    var ann := w.annotations;
    if !ann.VDict? then Err(TypeError)
    else
      match Get(ann.entries, VStr("return"))
      case None => Err(KeyError(VStr("return")))
      case Some(ret) =>
        if ret != VNone || !w.noneMeansNone then
          match IsInstance(rval, ret)
          case Err(e) => Err(e)
          case Ok(b) => if b then Ok(rval) else Err(AssertionError(WrongReturnType(w.checkedName, rval, ret)))
        else if rval == VNone then Ok(rval)
        else Err(AssertionError(NotNone(w.checkedName, rval)))
  }

  /** The wrapper passes the result through exactly when it has the annotated return type; a `None`
      annotation demands a `None` result. */
  lemma CallCheckedIff(w: Value, rval: Value)
    requires w.VChecked? && w.noneMeansNone && w.annotations.VDict?
    requires HasKey(w.annotations.entries, VStr("return"))
    ensures var ret := Get(w.annotations.entries, VStr("return")).value;
            (ret == VNone ==> (CallChecked(w, rval).Ok? <==> rval == VNone))
            && (ret.VType? ==> (CallChecked(w, rval).Ok? <==> IsInstance(rval, ret) == Ok(true)))
            && (ret != VNone && !ret.VType? && !ret.VClass? ==> CallChecked(w, rval) == Err(TypeError))
  {
  }

  /** Binds the arguments of a `_cell_wrapper` call (question.py:282-284): the i-th positional
      argument to the i-th variable, then the keyword arguments on top. */
  function BindCellArguments(argnames: seq<Value>, args: seq<Value>, kwargs: seq<(string, Value)>): Result<Dict>
  {
    if |args| < |argnames| then Err(IndexError) else Ok(UpdateWith(Positional(argnames, args), kwargs))
  }

  predicate Distinct(xs: seq<Value>)
  {
    forall i, j :: 0 <= i < j < |xs| ==> xs[i] != xs[j]
  }

  function Positional(argnames: seq<Value>, args: seq<Value>): Dict
    requires |args| >= |argnames|
    decreases |argnames|
  {
    if argnames == [] then []
    else Set(Positional(argnames[..|argnames| - 1], args), argnames[|argnames| - 1], args[|argnames| - 1])
  }

  function UpdateWith(d: Dict, kwargs: seq<(string, Value)>): Dict
    decreases |kwargs|
  {
    if kwargs == [] then d else UpdateWith(Set(d, VStr(kwargs[0].0), kwargs[0].1), kwargs[1..])
  }

  lemma {:induction false} PositionalGet(argnames: seq<Value>, args: seq<Value>, k: Value)
    requires |args| >= |argnames| && Distinct(argnames)
    ensures forall i :: 0 <= i < |argnames| && argnames[i] == k ==> Get(Positional(argnames, args), k) == Some(args[i])
    ensures k !in argnames ==> Get(Positional(argnames, args), k).None?
    decreases |argnames|
  {
    if argnames != [] {
      var n := |argnames| - 1;
      var init := argnames[..n];
      assert Distinct(init);
      PositionalGet(init, args, k);
      var p := Positional(init, args);
      if k == argnames[n] {
        GetSetSame(p, k, args[n]);
      } else {
        GetSetOther(p, argnames[n], args[n], k);
        forall i | 0 <= i < |argnames| && argnames[i] == k
          ensures Get(Positional(argnames, args), k) == Some(args[i])
        {
          assert i < n && init[i] == k;
        }
        if k !in argnames {
          assert k !in init;
        }
      }
    }
  }

  lemma {:induction false} UpdateWithGet(d: Dict, kwargs: seq<(string, Value)>, k: Value)
    requires forall i, j :: 0 <= i < j < |kwargs| ==> kwargs[i].0 != kwargs[j].0
    ensures forall j :: 0 <= j < |kwargs| && VStr(kwargs[j].0) == k ==> Get(UpdateWith(d, kwargs), k) == Some(kwargs[j].1)
    ensures (forall j :: 0 <= j < |kwargs| ==> VStr(kwargs[j].0) != k) ==> Get(UpdateWith(d, kwargs), k) == Get(d, k)
    decreases |kwargs|
  {
    if kwargs != [] {
      var d' := Set(d, VStr(kwargs[0].0), kwargs[0].1);
      UpdateWithGet(d', kwargs[1..], k);
      if VStr(kwargs[0].0) == k {
        GetSetSame(d, k, kwargs[0].1);
        assert forall j :: 1 <= j < |kwargs| ==> VStr(kwargs[j].0) != k;
      } else {
        GetSetOther(d, VStr(kwargs[0].0), kwargs[0].1, k);
      }
      forall j | 0 <= j < |kwargs| && VStr(kwargs[j].0) == k
        ensures Get(UpdateWith(d, kwargs), k) == Some(kwargs[j].1)
      {
        if j > 0 {
          assert kwargs[1..][j - 1] == kwargs[j];
        }
      }
    }
  }

  /** A `_cell_wrapper` call binds each keyword argument to its value and every other variable to the
      positional argument at its position; too few positional arguments raise `IndexError`. */
  lemma BindCellArgumentsSpec(argnames: seq<Value>, args: seq<Value>, kwargs: seq<(string, Value)>)
    requires Distinct(argnames)
    requires forall i, j :: 0 <= i < j < |kwargs| ==> kwargs[i].0 != kwargs[j].0
    ensures BindCellArguments(argnames, args, kwargs).Ok? <==> |args| >= |argnames|
    ensures BindCellArguments(argnames, args, kwargs).Err? ==> BindCellArguments(argnames, args, kwargs).error == IndexError
    ensures BindCellArguments(argnames, args, kwargs).Ok? ==>
              var d := BindCellArguments(argnames, args, kwargs).value;
              (forall j :: 0 <= j < |kwargs| ==> Get(d, VStr(kwargs[j].0)) == Some(kwargs[j].1))
              && (forall i :: 0 <= i < |argnames| && (forall j :: 0 <= j < |kwargs| ==> VStr(kwargs[j].0) != argnames[i])
                    ==> Get(d, argnames[i]) == Some(args[i]))
  {
    if |args| >= |argnames| {
      var p := Positional(argnames, args);
      var d := UpdateWith(p, kwargs);
      forall j | 0 <= j < |kwargs|
        ensures Get(d, VStr(kwargs[j].0)) == Some(kwargs[j].1)
      {
        UpdateWithGet(p, kwargs, VStr(kwargs[j].0));
      }
      forall i | 0 <= i < |argnames| && (forall j :: 0 <= j < |kwargs| ==> VStr(kwargs[j].0) != argnames[i])
        ensures Get(d, argnames[i]) == Some(args[i])
      {
        UpdateWithGet(p, kwargs, argnames[i]);
        PositionalGet(argnames, args, argnames[i]);
      }
    }
  }

  /** Whether the cell assigns the variable `v`. */
  predicate Assigned(cell: CellEntry, v: Value)
  {
    v.VStr? && v.s in cell.assignments
  }

  /** The first variable the cell does not assign. */
  function FirstUnassigned(cell: CellEntry, argnames: seq<Value>): (r: nat)
    ensures r <= |argnames|
    ensures r < |argnames| ==> !Assigned(cell, argnames[r])
    ensures forall i :: 0 <= i < r ==> Assigned(cell, argnames[i])
    decreases |argnames|
  {
    if argnames == [] then 0
    else if !Assigned(cell, argnames[0]) then 0
    else 1 + FirstUnassigned(cell, argnames[1..])
  }

  /** `CellQuestion.setUp` (question.py:273-289): every argument must be an assigned variable of the
      cell, `_cell_wrapper` is put into the cell's namespace, then `FunctionQuestion.setUp` runs. */
  method CellSetUp(t: TestInstance) returns (r: Result<()>)
    requires t.solutionCell.Some?
    modifies t, t.solutionCell.value
    ensures t.solutionCell == old(t.solutionCell)
    ensures var attrs := t.cls.Attrs();
            var cell := t.solutionCell.value;
            var res := Resolve(attrs, false);
            if res.Err? then r == Err(res.error) && t.solution == old(t.solution) && cell.ns == old(cell.ns)
            else
              var argnames := ArgNames(res.value);
              var k := FirstUnassigned(cell, argnames);
              if k < |argnames| then
                r == Err(AssertionError(NeverAssigned(argnames[k]))) && t.solution == old(t.solution) && cell.ns == old(cell.ns)
              else
                cell.ns == old(cell.ns)["_cell_wrapper" := VCellWrapper(argnames)]
                && var syn := SyntaxCheck(attrs, cell.kinds);
                   var look := NameLookup(attrs, cell.ns);
                   if syn.Err? then r == syn && t.solution == old(t.solution)
                   else if look.Err? then r == Err(look.error) && t.solution == old(t.solution)
                   else
                     var chk := FunctionChecks(attrs["name"], look.value, cell.functions, attrs);
                     if chk.Err? then r == chk && t.solution == Some(SValue(look.value))
                     else r == Ok(()) && t.solution == Some(SValue(Wrapped(attrs, look.value)))
  {
    var attrs := t.cls.Attrs();
    var cell := t.solutionCell.value;
    var resolved := ResolveAnnotations(attrs, false);
    if resolved.Err? {
      return Err(resolved.error);
    }
    var argnames := ArgNames(resolved.value);
    var i := 0;
    while i < |argnames|
      invariant 0 <= i <= |argnames|
      invariant forall j :: 0 <= j < i ==> Assigned(cell, argnames[j])
    {
      if !Assigned(cell, argnames[i]) {
        assert FirstUnassigned(cell, argnames) == i;
        return Err(AssertionError(NeverAssigned(argnames[i])));
      }
      i := i + 1;
    }
    assert FirstUnassigned(cell, argnames) == |argnames|;
    cell.ns := cell.ns["_cell_wrapper" := VCellWrapper(argnames)];
    r := FunctionSetUp(t);
  }

  // ================================================================ __init__

  /** Which cell holds the solution (question.py:49-58): the one tagged with the cell tag, else the one
      tagged with the class name. */
  function LookupSolution(doc: map<string, CellEntry>, celltag: string, cellid: string): (r: Result<CellEntry>)
    ensures r.Ok? <==> celltag in doc || cellid in doc
    ensures r.Ok? ==> r.value == if celltag in doc then doc[celltag] else doc[cellid]
    ensures r.Err? ==> r.error == AssertionError(NoSolutionTag(celltag))
  {
    if celltag in doc then Ok(doc[celltag])
    else if cellid in doc then Ok(doc[cellid])
    else Err(AssertionError(NoSolutionTag(celltag)))
  }

  /** What `__init__` finds for the solution: validation, then the tags, then the lookup. */
  function InitOutcome(kind: Kind, attrs: map<string, Value>, name: string, doc: map<string, CellEntry>,
                       env: Env): Result<CellEntry>
  {
    var v := ValidateSpec(kind, attrs, env);
    if v.Err? then Err(v.error)
    else
      var tag := Celltag(name, env);
      if tag.Err? then Err(tag.error)
      else LookupSolution(doc, tag.value, Cellid(name))
  }

  /** `TestQuestion.__init__` (question.py:39-58) with `doc` the tagged cells of the notebook. */
  method NewCase(c: PyClass, doc: map<string, CellEntry>, env: Env) returns (r: Result<TestInstance>)
    modifies c
    ensures c.own == ValidatedOwn(c.kind, old(c.own))
    ensures var o := InitOutcome(c.kind, c.Attrs(), c.name, doc, env);
            (r.Err? <==> o.Err?)
            && (r.Err? ==> r.error == o.error)
            && (r.Ok? ==> fresh(r.value) && r.value.cls == c && r.value.solutionCell == Some(o.value)
                          && r.value.solution.None?)
  {
    var v := Validate(c, env);
    if v.Err? {
      return Err(v.error);
    }
    var tag := Celltag(c.name, env);
    if tag.Err? {
      return Err(tag.error);
    }
    var found := LookupSolution(doc, tag.value, Cellid(c.name));
    if found.Err? {
      return Err(found.error);
    }
    var t := new TestInstance(c, Some(found.value));
    r := Ok(t);
  }

  /** A validated question is found under its cell tag whenever a cell carries that tag, and
      otherwise under its class name. */
  lemma InitFindsTaggedCell(kind: Kind, attrs: map<string, Value>, name: string, doc: map<string, CellEntry>, env: Env)
    requires WellFormed(kind, attrs, env) && name != []
    ensures var o := InitOutcome(kind, attrs, name, doc, env);
            var tag := Celltag(name, env).value;
            (o.Ok? <==> tag in doc || Cellid(name) in doc)
            && (tag in doc ==> o == Ok(doc[tag]))
            && (tag !in doc && Cellid(name) in doc ==> o == Ok(doc[Cellid(name)]))
  {
    ValidateIff(kind, attrs, env);
  }

  // ================================================================ question text

  /** The instruction that ends every question. */
  function Instruction(tag: string): string
  {
    "\n\nAdd the tag `" + tag + "` to the docstring in your solution cell.\n"
  }

  /** `question()` (question.py:115-128) of a class whose own `validate()` has run. */
  function QuestionTextSpec(kind: Kind, attrs: map<string, Value>, name: string, env: Env): Result<string>
  {
    var v := ValidateSpec(kind, attrs, env);
    if v.Err? then Err(v.error)
    else if "__doc__" !in attrs then Err(AttributeError("__doc__"))
    else if !attrs["__doc__"].VStr? then Err(TypeError)
    else
      match Format(Dedent(attrs["__doc__"].s), Backticked(attrs, env))
      case MissingKey(k) => Err(KeyError(VStr(k)))
      case Malformed => Err(ValueError("invalid format string"))
      case Positional => Err(IndexError)
      case Formatted(body) =>
        var tag := Celltag(name, env);
        if tag.Err? then Err(tag.error)
        else Ok("\n" + body + Instruction(tag.value))
  }

  /** `question()`: validates the class, then renders its docstring with every attribute in backticks
      and appends the instruction to tag the solution. */
  method QuestionText(c: PyClass, env: Env) returns (r: Result<string>)
    modifies c
    ensures c.own == ValidatedOwn(c.kind, old(c.own))
    ensures r == QuestionTextSpec(c.kind, c.Attrs(), c.name, env)
  {
    var v := Validate(c, env);
    if v.Err? {
      return Err(v.error);
    }
    var attrs := c.Attrs();
    r := QuestionTextSpec(c.kind, attrs, c.name, env);
  }

  /** A class that passes `validate()`, and whose docstring's replacement fields close on the
      lines they open on, always renders: the text is a newline, the dedented docstring formatted
      with every attribute in backticks, and the instruction naming its cell tag. */
  lemma ValidQuestionRenders(kind: Kind, attrs: map<string, Value>, name: string, env: Env)
    requires ValidateSpec(kind, attrs, env).Ok? && name != []
    requires "__doc__" in attrs && attrs["__doc__"].VStr? && FieldsWithinLines(attrs["__doc__"].s)
    ensures var f := Format(Dedent(attrs["__doc__"].s), Backticked(attrs, env));
            f.Formatted? && QuestionTextSpec(kind, attrs, name, env) == Ok("\n" + f.text + Instruction(Celltag(name, env).value))
  {
    ValidateIff(kind, attrs, env);
    FormatDependsOnKeys(attrs["__doc__"].s, Rendered(attrs, env), Backticked(attrs, env));
    FormatDedent(attrs["__doc__"].s, Backticked(attrs, env));
  }

  // ================================================================ variant

  /** A base class added by `variant(extra_bases=...)`, with the attributes it provides. */
  datatype BaseClass = BaseClass(bname: string, battrs: map<string, Value>)

  /** The text `variant` feeds the hash for one parameter. */
  function Feed(p: (string, Value), env: Env): string
  {
    p.0 + ":" + Str(env, p.1)
  }

  function FeedAll(params: seq<(string, Value)>, env: Env): string
    decreases |params|
  {
    if params == [] then "" else Feed(params[0], env) + FeedAll(params[1..], env)
  }

  lemma {:induction false} FeedAllAppend(params: seq<(string, Value)>, p: (string, Value), env: Env)
    ensures FeedAll(params + [p], env) == FeedAll(params, env) + Feed(p, env)
    decreases |params|
  {
    if params == [] {
      assert params + [p] == [p];
    } else {
      assert (params + [p])[1..] == params[1..] + [p];
      FeedAllAppend(params[1..], p, env);
    }
  }

  /** The text `variant` hashes (question.py:134-137): the base name, then each parameter as
      `name:value` in order. Successive `update` calls hash their concatenation. */
  method HashInput(base: string, params: seq<(string, Value)>, env: Env) returns (fed: string)
    ensures fed == base + FeedAll(params, env)
  {
    fed := base;
    var i := 0;
    while i < |params|
      invariant 0 <= i <= |params|
      invariant fed == base + FeedAll(params[..i], env)
    {
      assert params[..i + 1] == params[..i] + [params[i]];
      FeedAllAppend(params[..i], params[i], env);
      ConcatAssoc(base, FeedAll(params[..i], env), Feed(params[i], env));
      fed := fed + Feed(params[i], env);
      i := i + 1;
    }
    assert params[..|params|] == params;
  }

  /** The name of a variant: the given `classname`, or the base name, `_` and four hex digits of the
      hash of the base name and the parameters in order. */
  function VariantName(base: string, classname: Value, params: seq<(string, Value)>, env: Env): Value
  {
    if classname == VNone then VStr(base + "_" + Take(env.sha1Hex(base + FeedAll(params, env)), 4))
    else classname
  }

  /** A derived variant name extends the base name with `_`, so it never collides with the base's own
      tag; an explicit name is used verbatim. */
  lemma VariantNaming(base: string, classname: Value, params: seq<(string, Value)>, env: Env)
    ensures classname == VNone ==>
              var n := VariantName(base, classname, params, env);
              n.VStr? && StartsWith(n.s, base + "_") && n.s != base && Cellid(n.s) != Cellid(base)
              && |n.s| <= |base| + 5
    ensures classname != VNone ==> VariantName(base, classname, params, env) == classname
  {
    if classname == VNone {
      var n := VariantName(base, classname, params, env).s;
      assert n[..|base| + 1] == base + "_";
      assert |Cellid(n)| != |Cellid(base)|;
    }
  }

  /** With a digest of forty hexadecimal digits, a derived name is the base name, `_` and exactly
      four hexadecimal digits. */
  lemma VariantNameDigits(base: string, params: seq<(string, Value)>, env: Env)
    requires HexDigests(env)
    ensures var n := VariantName(base, VNone, params, env);
            n.VStr? && |n.s| == |base| + 5 && n.s[..|base| + 1] == base + "_"
            && forall i :: |base| < i < |n.s| ==> n.s[i] in "0123456789abcdef"
  {
    var h := env.sha1Hex(base + FeedAll(params, env));
    assert IsHexDigest(h);
    var n := VariantName(base, VNone, params, env).s;
    assert n == base + "_" + h[..4];
    forall i | |base| < i < |n|
      ensures n[i] in "0123456789abcdef"
    {
      assert n[i] == h[i - |base| - 1];
    }
  }

  /** The parameters as a class dictionary. */
  function ParamMap(params: seq<(string, Value)>): map<string, Value>
    decreases |params|
  {
    if params == [] then map[] else ParamMap(params[..|params| - 1])[params[|params| - 1].0 := params[|params| - 1].1]
  }

  function BaseNames(extra: seq<BaseClass>): seq<string>
  {
    seq(|extra|, i requires 0 <= i < |extra| => extra[i].bname)
  }

  /** What the extra bases provide, the earlier base winning. */
  function ExtraAttrs(extra: seq<BaseClass>): map<string, Value>
    decreases |extra|
  {
    if extra == [] then map[] else ExtraAttrs(extra[1..]) + extra[0].battrs
  }

  /** `variant()` (question.py:130-151): validates the base, names the variant, copies the base's class
      dictionary with the parameters on top, adds the extra bases, creates the class and validates it. */
  method Variant(c: PyClass, classname: Value, extra: seq<BaseClass>, params: seq<(string, Value)>, env: Env)
      returns (r: Result<PyClass>)
    modifies c
    ensures c.own == ValidatedOwn(c.kind, old(c.own))
    ensures var n := VariantName(c.name, classname, params, env);
            var inh := ExtraAttrs(extra) + c.inherited;
            var locals := c.own + ParamMap(params);
            (r.Ok? <==> ValidateSpec(c.kind, c.Attrs(), env).Ok? && n.VStr?
                        && ValidateSpec(c.kind, inh + ValidatedOwn(c.kind, locals), env).Ok?)
            && (r.Ok? ==> fresh(r.value) && r.value.name == n.s && r.value.kind == c.kind
                          && !r.value.framework && r.value.bases == c.bases + BaseNames(extra)
                          && r.value.inherited == inh && r.value.own == ValidatedOwn(c.kind, locals))
  {
    var v := Validate(c, env);
    if v.Err? {
      return Err(v.error);
    }
    var fed := HashInput(c.name, params, env);
    var n := if classname == VNone then VStr(c.name + "_" + Take(env.sha1Hex(fed), 4)) else classname;
    if !n.VStr? {
      return Err(TypeError);
    }
    var locals := c.own + ParamMap(params);
    var nt := new PyClass(n.s, c.kind, false, c.bases + BaseNames(extra), ExtraAttrs(extra) + c.inherited, locals);
    var v2 := Validate(nt, env);
    if v2.Err? {
      return Err(v2.error);
    }
    r := Ok(nt);
  }
}
