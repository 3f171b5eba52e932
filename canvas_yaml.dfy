/**
 * Model of `CanvasExport.from_yaml` and its generator `elaborate_group` (src/nbquiz/canvas/export.py:181-225).
 * The YAML document arrives already loaded, as a value; its `questions` entries name questions and
 * groups of the test bank, or variants of questions, and each becomes one entry of the quiz.
 */
module CanvasYaml {
  import opened Strings
  import opened PyModel
  import Question
  import TestBank
  import opened CanvasExport

  const GroupsInGroupsText := "Canvas does not allow groups in groups."
  const NotUnderstoodText := "I don't understand this: "

  // ================================================================ the shapes of an entry

  /** A mapping with both keys: what a mapping pattern of those two keys matches. */
  predicate HasKeys(v: Value, a: string, b: string)
  {
    v.VDict? && HasKey(v.entries, VStr(a)) && HasKey(v.entries, VStr(b))
  }

  /** Which case of the `match` an entry falls under. */
  datatype Shape =
    | GroupShaped(members: Value)
    | NameParams(name: Value, params: Value)
    | NameOnly(s: string)
    | Other

  /** The cases are tried in order: a group mapping first, then a name-and-parameters mapping,
      then a string; the first that matches wins. */
  function ShapeOf(v: Value): (r: Shape)
    ensures r.GroupShaped? <==> HasKeys(v, "group", "questions")
    ensures r.NameParams? <==> !HasKeys(v, "group", "questions") && HasKeys(v, "name", "params")
    ensures r.NameOnly? <==> v.VStr?
    ensures r.GroupShaped? ==> Get(v.entries, VStr("questions")) == Some(r.members)
    ensures r.NameParams? ==> Get(v.entries, VStr("name")) == Some(r.name) && Get(v.entries, VStr("params")) == Some(r.params)
    ensures r.NameOnly? ==> r.s == v.s
  {
    if HasKeys(v, "group", "questions") then GroupShaped(Get(v.entries, VStr("questions")).value)
    else if HasKeys(v, "name", "params") then NameParams(Get(v.entries, VStr("name")).value, Get(v.entries, VStr("params")).value)
    else if v.VStr? then NameOnly(v.s)
    else Other
  }

  // ================================================================ `variant(**params)`

  /** The keyword arguments of a `variant` call: `classname` and `extra_bases` are taken out, the
      rest become the variant's parameters. */
  datatype Kwargs = Kwargs(classname: Value, extraBases: Value, params: seq<(string, Value)>)

  function GetOr(d: Dict, k: Value, default: Value): Value
  {
    match Get(d, k)
    case Some(v) => v
    case None => default
  }

  /** Unpacking a mapping into keyword arguments: every key must be a string, and `cls` is already
      bound by the class method, so it may not be passed again. */
  function Keywords(entries: Dict): (r: Result<Kwargs>)
    ensures r.Ok? <==> forall i :: 0 <= i < |entries| ==> entries[i].0.VStr? && entries[i].0.s != "cls"
    ensures r.Err? ==> r.error == TypeError
    ensures r.Ok? ==> r.value.classname == GetOr(entries, VStr("classname"), VNone)
                      && r.value.extraBases == GetOr(entries, VStr("extra_bases"), VNone)
    decreases |entries|
  {
    if entries == [] then Ok(Kwargs(VNone, VNone, []))
    else
      var (k, v) := entries[0];
      if !k.VStr? || k.s == "cls" then Err(TypeError)
      else
        var rest := Keywords(entries[1..]);
        if rest.Err? then rest
        else if k.s == "classname" then Ok(rest.value.(classname := v))
        else if k.s == "extra_bases" then Ok(rest.value.(extraBases := v))
        else Ok(rest.value.(params := [(k.s, v)] + rest.value.params))
  }

  /** The variant's parameters are exactly the other entries of the mapping. */
  lemma {:induction false} KeywordsParams(entries: Dict)
    requires Keywords(entries).Ok?
    ensures var ps := Keywords(entries).value.params;
            && (forall j :: 0 <= j < |ps| ==>
                  ps[j].0 != "classname" && ps[j].0 != "extra_bases" && (VStr(ps[j].0), ps[j].1) in entries)
            && (forall i :: 0 <= i < |entries| && entries[i].0 != VStr("classname") && entries[i].0 != VStr("extra_bases") ==>
                  (entries[i].0.s, entries[i].1) in ps)
  {
    ParamsFromEntries(entries);
    EntriesInParams(entries);
  }

  lemma {:induction false} ParamsFromEntries(entries: Dict)
    requires Keywords(entries).Ok?
    ensures var ps := Keywords(entries).value.params;
            forall j :: 0 <= j < |ps| ==>
              ps[j].0 != "classname" && ps[j].0 != "extra_bases" && (VStr(ps[j].0), ps[j].1) in entries
    decreases |entries|
  {
    if entries != [] {
      ParamsFromEntries(entries[1..]);
      assert forall x :: x in entries[1..] ==> x in entries;
    }
  }

  lemma {:induction false} EntriesInParams(entries: Dict)
    requires Keywords(entries).Ok?
    ensures var ps := Keywords(entries).value.params;
            forall i :: 0 <= i < |entries| && entries[i].0 != VStr("classname") && entries[i].0 != VStr("extra_bases") ==>
              (entries[i].0.s, entries[i].1) in ps
    decreases |entries|
  {
    if entries != [] {
      EntriesInParams(entries[1..]);
      assert forall i :: 1 <= i < |entries| ==> entries[i] == entries[1..][i - 1];
    }
  }

  /** `**params`: only a mapping can be unpacked. */
  function KwargsOf(params: Value): (r: Result<Kwargs>)
    ensures !params.VDict? ==> r == Err(TypeError)
    ensures params.VDict? ==> r == Keywords(params.entries)
  {
    if params.VDict? then Keywords(params.entries) else Err(TypeError)
  }

  /** `bank.find(f"@{name}").variant(**params)` up to the call: the lookup, then the attribute
      `variant`, which a group does not have, then the unpacking of the parameters. */
  function Resolve(questions: map<string, TestBank.Entity>, name: Value, params: Value, env: Env): (r: Result<(PyClass, Kwargs)>)
    ensures var tag := "@" + Str(env, name);
            && (r.Ok? <==> tag in questions && questions[tag].EQuestion? && KwargsOf(params).Ok?)
            && (r.Ok? ==> r.value == (questions[tag].q, KwargsOf(params).value))
            && (tag !in questions ==> r == Err(ValueError(TestBank.NoTagText)))
            && (tag in questions && questions[tag].EGroup? ==> r == Err(AttributeError("variant")))
  {
    var f := Lookup(questions, "@" + Str(env, name));
    if f.Err? then Err(f.error)
    else if f.value.EGroup? then Err(AttributeError("variant"))
    else
      var kw := KwargsOf(params);
      if kw.Err? then Err(kw.error) else Ok((f.value.q, kw.value))
  }

  /** A class object the document names, as a base of a new class. */
  function AsBase(x: Value, env: Env): Question.BaseClass
    requires x.VType? || x.VClass?
  {
    Question.BaseClass(if x.VType? then x.tname else x.cname, env.attrsOf(x))
  }

  /** `bases + tuple(extra_bases)` when `extra_bases` is truthy: `tuple` needs an iterable, and
      `type()` needs every element to be a class. */
  function ExtraBases(v: Value, env: Env): (r: Result<seq<Question.BaseClass>>)
    ensures !Truthy(v) ==> r == Ok([])
    ensures Truthy(v) ==>
              (r.Ok? <==> IsIterable(v) && forall k :: 0 <= k < |Iterate(v).value| ==> Iterate(v).value[k].VType? || Iterate(v).value[k].VClass?)
    ensures r.Err? ==> r.error == TypeError
    ensures r.Ok? && Truthy(v) ==>
              var xs := Iterate(v).value;
              |r.value| == |xs| && forall k :: 0 <= k < |xs| ==> (xs[k].VType? || xs[k].VClass?) && r.value[k] == AsBase(xs[k], env)
  {
    if !Truthy(v) then Ok([])
    else
      var it := Iterate(v);
      if it.None? then Err(TypeError)
      else if forall k :: 0 <= k < |it.value| ==> it.value[k].VType? || it.value[k].VClass? then
        Ok(seq(|it.value|, k requires 0 <= k < |it.value| => AsBase(it.value[k], env)))
      else Err(TypeError)
  }

  /** `variant` called with unpacked keyword arguments: the base is validated, the extra bases are
      added after the base's own bases, and the new class is created and validated. */
  method MakeVariant(c: PyClass, kw: Kwargs, env: Env) returns (r: Result<PyClass>)
    modifies c
    ensures c.own == Question.ValidatedOwn(c.kind, old(c.own))
    ensures ExtraBases(kw.extraBases, env).Err? ==> r.Err?
    ensures ExtraBases(kw.extraBases, env).Ok? ==>
              var extra := ExtraBases(kw.extraBases, env).value;
              r.Ok? <==> && Question.ValidateSpec(c.kind, c.Attrs(), env).Ok?
                         && Question.VariantName(c.name, kw.classname, kw.params, env).VStr?
                         && Question.ValidateSpec(c.kind, Question.ExtraAttrs(extra) + c.inherited
                                                  + Question.ValidatedOwn(c.kind, c.own + Question.ParamMap(kw.params)), env).Ok?
    ensures r.Ok? ==> fresh(r.value) && Made(r.value, c, kw, env)
                      && r.value.own == Question.ValidatedOwn(c.kind, c.own + Question.ParamMap(kw.params))
  {
    var extra := ExtraBases(kw.extraBases, env);
    if extra.Err? {
      var v := Question.Validate(c, env);
      if v.Err? {
        return Err(v.error);
      }
      return Err(TypeError);
    }
    r := Question.Variant(c, kw.classname, extra.value, kw.params, env);
  }

  /** The class object `variant` returns for these arguments: named as the variant's name, of the
      base's kind, with the base's bases then the extra ones, and the attributes they provide. */
  predicate Made(v: PyClass, c: PyClass, kw: Kwargs, env: Env)
  {
    && ExtraBases(kw.extraBases, env).Ok?
    && var extra := ExtraBases(kw.extraBases, env).value;
       && Question.VariantName(c.name, kw.classname, kw.params, env) == VStr(v.name)
       && v.kind == c.kind && v.bases == c.bases + Question.BaseNames(extra)
       && v.inherited == Question.ExtraAttrs(extra) + c.inherited && !v.framework
  }

  // ================================================================ `elaborate_group`

  /** `bank.find(tag)` on the bank's map. */
  function Lookup(questions: map<string, TestBank.Entity>, tag: string): (r: Result<TestBank.Entity>)
    ensures r.Ok? <==> tag in questions
    ensures r.Ok? ==> r.value == questions[tag]
    ensures r.Err? ==> r.error == ValueError(TestBank.NoTagText)
  {
    if tag in questions then Ok(questions[tag]) else Err(ValueError(TestBank.NoTagText))
  }

  /** Looking a tag up in the map is what `find` does. */
  lemma LookupIsFind(bank: TestBank.Bank, tag: string)
    ensures Lookup(bank.questions, tag) == bank.Find(tag)
  {
  }

  /** What `elaborate_group` does with one entry: yield a class the bank holds, yield a variant of
      one, or skip an entry no case matches. */
  datatype Pick = Found(c: PyClass) | Derive(c: PyClass, kw: Kwargs) | Skip

  function MemberPick(questions: map<string, TestBank.Entity>, v: Value, env: Env): (r: Result<Pick>)
    ensures HasKeys(v, "group", "questions") ==> r == Err(ValueError(GroupsInGroupsText))
    ensures v.VStr? ==>
              var tag := "@" + v.s;
              && (tag !in questions ==> r == Err(ValueError(TestBank.NoTagText)))
              && (tag in questions && questions[tag].EGroup? ==> r == Err(ValueError(GroupsInGroupsText)))
              && (tag in questions && questions[tag].EQuestion? ==> r == Ok(Found(questions[tag].q)))
    ensures ShapeOf(v).NameParams? ==>
              var x := Resolve(questions, ShapeOf(v).name, ShapeOf(v).params, env);
              (r.Ok? <==> x.Ok?) && (r.Ok? ==> r.value == Derive(x.value.0, x.value.1))
    ensures r == Ok(Skip) <==> ShapeOf(v).Other?
  {
    match ShapeOf(v)
    case GroupShaped(_) => Err(ValueError(GroupsInGroupsText))
    case NameParams(n, p) =>
      var x := Resolve(questions, n, p, env);
      if x.Err? then Err(x.error) else Ok(Derive(x.value.0, x.value.1))
    case NameOnly(s) =>
      var f := Lookup(questions, "@" + s);
      if f.Err? then Err(f.error)
      else if f.value.EGroup? then Err(ValueError(GroupsInGroupsText))
      else Ok(Found(f.value.q))
    case Other => Ok(Skip)
  }

  /** The picks of a group's entries, leaving out the skipped ones, or the first entry's error. */
  function Picks(questions: map<string, TestBank.Entity>, vs: seq<Value>, env: Env): (r: Result<seq<Pick>>)
    ensures r.Ok? ==> |r.value| <= |vs| && forall k :: 0 <= k < |r.value| ==> !r.value[k].Skip?
    decreases |vs|
  {
    if vs == [] then Ok([])
    else
      var n := |vs| - 1;
      var front := Picks(questions, vs[..n], env);
      if front.Err? then front
      else
        var p := MemberPick(questions, vs[n], env);
        if p.Err? then Err(p.error)
        else if p.value.Skip? then front
        else Ok(front.value + [p.value])
  }

  /** The picks succeed exactly when every entry resolves; otherwise the error is the first entry's. */
  lemma {:induction false} PicksOutcome(questions: map<string, TestBank.Entity>, vs: seq<Value>, env: Env)
    ensures Picks(questions, vs, env).Ok? <==> forall i :: 0 <= i < |vs| ==> MemberPick(questions, vs[i], env).Ok?
    ensures Picks(questions, vs, env).Err? ==>
              exists i :: 0 <= i < |vs| && MemberPick(questions, vs[i], env) == Err(Picks(questions, vs, env).error)
                          && forall j :: 0 <= j < i ==> MemberPick(questions, vs[j], env).Ok?
    decreases |vs|
  {
    if vs != [] {
      var n := |vs| - 1;
      PicksOutcome(questions, vs[..n], env);
      assert forall i :: 0 <= i < n ==> vs[..n][i] == vs[i];
    }
  }

  /** "Canvas does not allow groups in groups": a group mapping, or a string naming a group, among a
      group's entries makes the whole group fail. */
  lemma NoGroupsInGroups(questions: map<string, TestBank.Entity>, vs: seq<Value>, env: Env, i: nat)
    requires i < |vs|
    requires HasKeys(vs[i], "group", "questions")
             || (vs[i].VStr? && "@" + vs[i].s in questions && questions["@" + vs[i].s].EGroup?)
    ensures Picks(questions, vs, env).Err?
  {
    assert MemberPick(questions, vs[i], env) == Err(ValueError(GroupsInGroupsText));
    PicksOutcome(questions, vs, env);
  }

  /** Member `k` of an elaborated group is what its pick promises. */
  predicate Yields(v: PyClass, p: Pick, env: Env)
  {
    match p
    case Found(c) => v == c
    case Derive(c, kw) => Made(v, c, kw, env)
    case Skip => false
  }

  /** The class objects an entry of the bank stands for. */
  function Members(e: TestBank.Entity): seq<PyClass>
  {
    match e
    case EQuestion(q) => [q]
    case EGroup(g) => g.data
  }

  /** Every class object the bank holds, alone or in a group. */
  ghost function BankClasses(bank: TestBank.Bank): set<PyClass>
    reads bank
  {
    set t, q | t in bank.questions && q in Members(bank.questions[t]) :: q
  }

  /** One step of `elaborate_group`: what it yields for one entry, if anything. */
  method ElaborateOne(v: Value, bank: TestBank.Bank, env: Env, ghost settled: map<PyClass, map<string, Value>>, ghost render: Render)
      returns (r: Result<Option<PyClass>>)
    requires SettledAs(BankClasses(bank), settled) && Renders(render, env)
    modifies BankClasses(bank)
    ensures SettledAs(BankClasses(bank), settled)
    ensures r.Ok? && r.value.Some? ==>
              MemberPick(bank.questions, v, env).Ok? && MadeFrom(r.value.value, MemberPick(bank.questions, v, env).value, settled)
    ensures MemberRenders(bank.questions, v, settled, render, env) ==> r.Ok?
    ensures MemberPick(bank.questions, v, env).Err? ==> r == Err(MemberPick(bank.questions, v, env).error)
    ensures r.Ok? ==> var p := MemberPick(bank.questions, v, env);
                      && p.Ok? && (p.value.Skip? <==> r.value.None?)
                      && (r.value.Some? ==> Yields(r.value.value, p.value, env))
                      && (r.value.Some? ==> r.value.value in old(BankClasses(bank)) || fresh(r.value.value))
                      && (r.value.Some? && p.value.Derive? ==> fresh(r.value.value))
    ensures MemberPick(bank.questions, v, env).Ok? && !MemberPick(bank.questions, v, env).value.Derive? ==> r.Ok?
  {
    var p := MemberPick(bank.questions, v, env);
    if p.Err? {
      return Err(p.error);
    }
    match p.value {
      case Skip =>
        r := Ok(None);
      case Found(c) =>
        assert c in Members(bank.questions["@" + v.s]);
        r := Ok(Some(c));
      case Derive(c, kw) =>
        assert c in Members(bank.questions["@" + Str(env, ShapeOf(v).name)]);
        var made := MakeAsked(c, kw, BankClasses(bank), settled, env);
        assert render(PickAsked(p.value, settled[c])) == AskedText(VariantOf(c.kind, c.inherited, settled[c], c.name, kw), env);
        if made.Err? {
          return Err(made.error);
        }
        r := Ok(Some(made.value));
    }
  }

  /** The entry asks for a variant of a question of the bank. */
  predicate Derives(questions: map<string, TestBank.Entity>, v: Value, env: Env)
  {
    MemberPick(questions, v, env).Ok? && MemberPick(questions, v, env).value.Derive?
  }

  /** `list(elaborate_group(questions))`: runs the generator to its end, in entry order. */
  method Elaborate(members: Value, bank: TestBank.Bank, env: Env, ghost settled: map<PyClass, map<string, Value>>, ghost render: Render)
      returns (r: Result<seq<PyClass>>)
    requires SettledAs(BankClasses(bank), settled) && Renders(render, env)
    modifies BankClasses(bank)
    ensures SettledAs(BankClasses(bank), settled)
    ensures !IsIterable(members) ==> r == Err(TypeError)
    ensures IsIterable(members) && Picks(bank.questions, Iterate(members).value, env).Err? ==> r.Err?
    ensures r.Ok? ==> IsIterable(members) && Picks(bank.questions, Iterate(members).value, env).Ok?
    ensures r.Ok? ==> var ps := Picks(bank.questions, Iterate(members).value, env).value;
                      |r.value| == |ps| && forall k :: 0 <= k < |ps| ==> Yields(r.value[k], ps[k], env)
    ensures r.Ok? ==> var ps := Picks(bank.questions, Iterate(members).value, env).value;
                      forall k :: 0 <= k < |ps| && ps[k].Derive? ==> fresh(r.value[k])
    ensures r.Ok? ==> forall k :: 0 <= k < |r.value| ==> r.value[k] in old(BankClasses(bank)) || fresh(r.value[k])
    /** Only deriving a variant can fail once every entry has been resolved. */
    ensures IsIterable(members) && Picks(bank.questions, Iterate(members).value, env).Ok?
            && (forall i :: 0 <= i < |Iterate(members).value| ==> !Derives(bank.questions, Iterate(members).value[i], env))
            ==> r.Ok?
    ensures r.Ok? ==> var ps := Picks(bank.questions, Iterate(members).value, env).value;
                      forall k :: 0 <= k < |ps| ==> MadeFrom(r.value[k], ps[k], settled)
    /** A group whose every entry can be added is elaborated. */
    ensures IsIterable(members) && (forall i :: 0 <= i < |Iterate(members).value| ==>
                                      MemberRenders(bank.questions, Iterate(members).value[i], settled, render, env))
            ==> r.Ok?
  {
    var it := Iterate(members);
    if it.None? {
      return Err(TypeError);
    }
    r := ElaborateAll(it.value, bank, env, settled, render);
  }

  /** The generator run over the entries `vs`. */
  method ElaborateAll(vs: seq<Value>, bank: TestBank.Bank, env: Env, ghost settled: map<PyClass, map<string, Value>>, ghost render: Render)
      returns (r: Result<seq<PyClass>>)
    requires SettledAs(BankClasses(bank), settled) && Renders(render, env)
    modifies BankClasses(bank)
    ensures SettledAs(BankClasses(bank), settled)
    ensures r.Ok? ==> Picks(bank.questions, vs, env).Ok?
    ensures r.Ok? ==> var ps := Picks(bank.questions, vs, env).value;
                      |r.value| == |ps| && forall k :: 0 <= k < |ps| ==> Yields(r.value[k], ps[k], env)
    ensures r.Ok? ==> var ps := Picks(bank.questions, vs, env).value;
                      forall k :: 0 <= k < |ps| && ps[k].Derive? ==> fresh(r.value[k])
    ensures r.Ok? ==> forall k :: 0 <= k < |r.value| ==> r.value[k] in old(BankClasses(bank)) || fresh(r.value[k])
    ensures r.Ok? ==> var ps := Picks(bank.questions, vs, env).value;
                      forall k :: 0 <= k < |ps| ==> MadeFrom(r.value[k], ps[k], settled)
    ensures Unblocked(bank.questions, vs, settled, render, env) ==> r.Ok?
  {
    var out: seq<PyClass> := [];
    ghost var done: seq<Pick> := [];
    ghost var questions := bank.questions;
    ghost var classes := BankClasses(bank);
    var i := 0;
    while i < |vs|
      invariant 0 <= i <= |vs|
      invariant bank.questions == questions
      invariant Picks(questions, vs[..i], env) == Ok(done)
      invariant |out| == |done| && forall k :: 0 <= k < |done| ==> Yields(out[k], done[k], env)
      invariant forall k :: 0 <= k < |done| && done[k].Derive? ==> fresh(out[k])
      invariant forall k :: 0 <= k < |out| ==> out[k] in classes || fresh(out[k])
      invariant SettledAs(BankClasses(bank), settled)
      invariant forall k :: 0 <= k < |done| ==> MadeFrom(out[k], done[k], settled)
    {
      var one, p := ElaborateNext(vs, i, bank, env, done, settled, render);
      if one.Err? {
        return Err(one.error);
      }
      if one.value.Some? {
        out := out + [one.value.value];
        done := done + [p];
      }
      i := i + 1;
    }
    assert vs[..i] == vs;
    r := Ok(out);
  }

  /** Elaboration cannot fail: either every entry resolves without asking for a variant, or every
      entry resolves to a pick that renders. */
  predicate Unblocked(questions: map<string, TestBank.Entity>, vs: seq<Value>, settled: map<PyClass, map<string, Value>>,
                      render: Render, env: Env)
  {
    || (Picks(questions, vs, env).Ok? && forall j :: 0 <= j < |vs| ==> !Derives(questions, vs[j], env))
    || (forall j :: 0 <= j < |vs| ==> MemberRenders(questions, vs[j], settled, render, env))
  }

  /** Entry `i` of `elaborate_group`, seen from the picks of the entries before it. */
  method ElaborateNext(vs: seq<Value>, i: nat, bank: TestBank.Bank, env: Env, ghost done: seq<Pick>,
                       ghost settled: map<PyClass, map<string, Value>>, ghost render: Render)
      returns (r: Result<Option<PyClass>>, ghost p: Pick)
    requires i < |vs| && Picks(bank.questions, vs[..i], env) == Ok(done)
    requires SettledAs(BankClasses(bank), settled) && Renders(render, env)
    modifies BankClasses(bank)
    ensures SettledAs(BankClasses(bank), settled)
    ensures r.Err? ==> !Unblocked(bank.questions, vs, settled, render, env)
    ensures r.Ok? && r.value.Some? ==> MadeFrom(r.value.value, p, settled)
    ensures r.Ok? ==> Picks(bank.questions, vs[..i + 1], env) == Ok(if r.value.None? then done else done + [p])
    ensures r.Ok? && r.value.Some? ==> Yields(r.value.value, p, env) && (p.Derive? ==> fresh(r.value.value))
    ensures r.Ok? && r.value.Some? ==> r.value.value in BankClasses(bank) || fresh(r.value.value)
  {
    p := Skip;
    r := ElaborateOne(vs[i], bank, env, settled, render);
    if r.Err? {
      ElaborateStops(bank.questions, vs, env, i);
      return;
    }
    PicksStep(bank.questions, vs, env, i, done);
    p := MemberPick(bank.questions, vs[i], env).value;
  }

  /** One more entry of `elaborate_group` resolved: its pick joins those before it, unless it is skipped. */
  lemma PicksStep(questions: map<string, TestBank.Entity>, vs: seq<Value>, env: Env, i: nat, done: seq<Pick>)
    requires i < |vs| && Picks(questions, vs[..i], env) == Ok(done) && MemberPick(questions, vs[i], env).Ok?
    ensures var p := MemberPick(questions, vs[i], env).value;
            Picks(questions, vs[..i + 1], env) == Ok(if p.Skip? then done else done + [p])
  {
    assert vs[..i + 1][..i] == vs[..i] && vs[..i + 1][i] == vs[i];
  }

  /** An entry that fails to resolve, or asks for a variant, is one the group cannot be sure to survive. */
  lemma ElaborateStops(questions: map<string, TestBank.Entity>, vs: seq<Value>, env: Env, i: nat)
    requires i < |vs| && (MemberPick(questions, vs[i], env).Err? || Derives(questions, vs[i], env))
    ensures !(Picks(questions, vs, env).Ok? && forall j :: 0 <= j < |vs| ==> !Derives(questions, vs[j], env))
  {
    PicksOutcome(questions, vs, env);
  }

  // ================================================================ `from_yaml`

  /** What the loop of `from_yaml` does with one entry. */
  datatype Step =
    | AddOne(c: PyClass)
    | AddVariant(c: PyClass, kw: Kwargs)
    | AddMembers(g: QuestionGroup)
    | GroupEntry(members: Value)

  /** A top-level string finds a question class or a group; since the bank registers nothing else,
      the branch that ignores any other object cannot be taken. Any other shape is refused. */
  function Plan(questions: map<string, TestBank.Entity>, v: Value, env: Env): (r: Result<Step>)
    ensures ShapeOf(v).GroupShaped? <==> r.Ok? && r.value.GroupEntry?
    ensures ShapeOf(v).GroupShaped? ==> r.value.members == ShapeOf(v).members
    ensures ShapeOf(v).Other? ==> r == Err(ValueError(NotUnderstoodText + Str(env, v)))
    ensures v.VStr? ==>
              var tag := "@" + v.s;
              && (tag !in questions ==> r == Err(ValueError(TestBank.NoTagText)))
              && (tag in questions ==>
                    r == Ok(if questions[tag].EQuestion? then AddOne(questions[tag].q)
                            else AddMembers(questions[tag].g)))
  {
    match ShapeOf(v)
    case GroupShaped(ms) => Ok(GroupEntry(ms))
    case NameParams(n, p) =>
      var x := Resolve(questions, n, p, env);
      if x.Err? then Err(x.error) else Ok(AddVariant(x.value.0, x.value.1))
    case NameOnly(s) =>
      var f := Lookup(questions, "@" + s);
      if f.Err? then Err(f.error)
      else if f.value.EQuestion? then Ok(AddOne(f.value.q))
      else Ok(AddMembers(f.value.g))
    case Other => Err(ValueError(NotUnderstoodText + Str(env, v)))
  }

  /** A name-and-parameters entry at the top level adds a variant of the question it names. */
  lemma PlanVariant(questions: map<string, TestBank.Entity>, v: Value, env: Env)
    requires ShapeOf(v).NameParams?
    ensures var x := Resolve(questions, ShapeOf(v).name, ShapeOf(v).params, env);
            var r := Plan(questions, v, env);
            (r.Ok? <==> x.Ok?) && (r.Ok? ==> r.value == AddVariant(x.value.0, x.value.1))
  {
  }

  /** The validated class dictionary of each class of the bank. `question()` validates before it
      renders and validating again changes nothing, so these fix every text the quiz can get. */
  ghost function Settled(classes: set<PyClass>): map<PyClass, map<string, Value>>
    reads classes
  {
    map c | c in classes :: Question.ValidatedOwn(c.kind, c.own)
  }

  /** Validating the classes would still give the dictionaries `settled` records. */
  ghost predicate SettledAs(classes: set<PyClass>, settled: map<PyClass, map<string, Value>>)
    reads classes
  {
    forall c :: c in classes ==> c in settled && Question.ValidatedOwn(c.kind, c.own) == settled[c]
  }

  /** An essay item titled `title` holding as HTML the text `question()` gave. */
  predicate Holds(i: Item, title: string, text: Result<string>, toHtml: string -> string)
  {
    i.EssayItem? && i.title == title && text.Ok? && i.html == toHtml(text.value)
  }

  /** A class whose `question()` text the quiz asks for, by its kind, inherited attributes, validated
      dictionary and name: a class of the bank, or the variant `kw` makes of such a class. */
  datatype Asked =
    | Member(kind: Kind, inherited: map<string, Value>, own: map<string, Value>, name: string)
    | VariantOf(kind: Kind, inherited: map<string, Value>, own: map<string, Value>, name: string, kw: Kwargs)

  /** The class of the bank, as asked. */
  function MemberOf(c: PyClass, own: map<string, Value>): Asked
  {
    Member(c.kind, c.inherited, own, c.name)
  }

  /** What `question()` gives for the class asked. A variant is named by `VariantName`, inherits from
      its base and then from the extra bases, and its parameters override the base's dictionary. */
  function AskedText(a: Asked, env: Env): Result<string>
  {
    match a
    case Member(kind, inherited, own, name) => TextFor(kind, inherited, own, name, env)
    case VariantOf(kind, inherited, own, name, kw) =>
      var extra := ExtraBases(kw.extraBases, env);
      var n := Question.VariantName(name, kw.classname, kw.params, env);
      if extra.Err? then Err(extra.error)
      else if !n.VStr? then Err(TypeError)
      else TextFor(kind, Question.ExtraAttrs(extra.value) + inherited,
                   Question.ValidatedOwn(kind, own + Question.ParamMap(kw.params)), n.s, env)
  }

  /** A renderer of the classes asked. */
  type Render = Asked -> Result<string>

  /** `question()` as a renderer. */
  function Ask(env: Env): Render
  {
    a => AskedText(a, env)
  }

  /** `render` is `question()`'s. */
  ghost predicate Renders(render: Render, env: Env)
  {
    forall a {:trigger AskedText(a, env)} :: render(a) == AskedText(a, env)
  }

  lemma AskRenders(env: Env)
    ensures Renders(Ask(env), env)
  {
  }

  /** The class a pick asks `question()` for, the picked class's dictionary being `own`. */
  function PickAsked(p: Pick, own: map<string, Value>): Asked
    requires !p.Skip?
  {
    match p
    case Found(c) => MemberOf(c, own)
    case Derive(c, kw) => VariantOf(c.kind, c.inherited, own, c.name, kw)
  }

  /** The class a pick asks for can be added to the quiz: `question()` renders it, and for a variant
      the base validates first, as `variant` does. */
  predicate PickRenders(p: Pick, settled: map<PyClass, map<string, Value>>, render: Render, env: Env)
  {
    match p
    case Found(c) => c in settled && render(PickAsked(p, settled[c])).Ok?
    case Derive(c, _) =>
      && c in settled && Question.ValidateSpec(c.kind, c.inherited + settled[c], env).Ok?
      && render(PickAsked(p, settled[c])).Ok?
    case Skip => true
  }

  /** Item `i` is what a pick adds: an essay item titled with the class's name and holding its text
      as HTML; a variant is titled with the name `variant` gives it. */
  predicate PickAdded(i: Item, p: Pick, settled: map<PyClass, map<string, Value>>, render: Render,
                      toHtml: string -> string, env: Env)
  {
    match p
    case Found(c) => c in settled && Holds(i, c.name, render(PickAsked(p, settled[c])), toHtml)
    case Derive(c, kw) =>
      && c in settled && ExtraBases(kw.extraBases, env).Ok?
      && Question.VariantName(c.name, kw.classname, kw.params, env) == VStr(i.title)
      && Holds(i, i.title, render(PickAsked(p, settled[c])), toHtml)
    case Skip => false
  }

  /** An entry of a group resolves, and what it asks for can be added. */
  predicate MemberRenders(questions: map<string, TestBank.Entity>, v: Value, settled: map<PyClass, map<string, Value>>,
                          render: Render, env: Env)
  {
    MemberPick(questions, v, env).Ok? && PickRenders(MemberPick(questions, v, env).value, settled, render, env)
  }

  /** The class `v` elaborated from pick `p`: for a variant, the class `variant` made, whose
      dictionary is the base's validated one with the parameters on top, validated. */
  ghost predicate MadeFrom(v: PyClass, p: Pick, settled: map<PyClass, map<string, Value>>)
    reads v
  {
    p.Derive? ==> p.c in settled && v.own == Question.ValidatedOwn(p.c.kind, settled[p.c] + Question.ParamMap(p.kw.params))
  }

  /** The quiz entry a successful step appends, with the texts `render` gives for the classes as
      `settled` has them, and `toHtml` turning each into HTML. */
  predicate Added(e: QuizEntry, s: Step, settled: map<PyClass, map<string, Value>>, render: Render,
                  toHtml: string -> string, env: Env)
  {
    match s
    case AddOne(c) => e.QItem? && PickAdded(e.item, Found(c), settled, render, toHtml, env)
    case AddVariant(c, kw) => e.QItem? && PickAdded(e.item, Derive(c, kw), settled, render, toHtml, env)
    case AddMembers(g) =>
      && e.QSection? && e.section.title == "Group" && |e.section.items| == |g.data|
      && forall k :: 0 <= k < |g.data| ==> PickAdded(e.section.items[k], Found(g.data[k]), settled, render, toHtml, env)
    case GroupEntry(_) => false
  }

  /** The step adds its entry: every class it asks for can be added. The group mapping never is. */
  predicate StepRenders(s: Step, settled: map<PyClass, map<string, Value>>, render: Render, env: Env)
  {
    match s
    case AddOne(c) => PickRenders(Found(c), settled, render, env)
    case AddVariant(c, kw) => PickRenders(Derive(c, kw), settled, render, env)
    case AddMembers(g) => forall k :: 0 <= k < |g.data| ==> PickRenders(Found(g.data[k]), settled, render, env)
    case GroupEntry(_) => false
  }

  /** The top-level entry `v` resolves, and what it asks for can be added. */
  predicate EntryRenders(questions: map<string, TestBank.Entity>, v: Value, settled: map<PyClass, map<string, Value>>,
                         render: Render, env: Env)
  {
    Plan(questions, v, env).Ok? && StepRenders(Plan(questions, v, env).value, settled, render, env)
  }

  /** `test["questions"]` is present and iterable, and each of its entries can be added. */
  predicate ListRenders(test: Value, questions: map<string, TestBank.Entity>, settled: map<PyClass, map<string, Value>>,
                        render: Render, env: Env)
  {
    && Subscript(test, "questions").Ok? && IsIterable(Subscript(test, "questions").value)
    && var es := Iterate(Subscript(test, "questions").value).value;
       forall k :: 0 <= k < |es| ==> EntryRenders(questions, es[k], settled, render, env)
  }

  /** Entry `e` of the quiz is what the top-level entry `v` plans to add. */
  predicate EntryAdded(e: QuizEntry, questions: map<string, TestBank.Entity>, v: Value,
                       settled: map<PyClass, map<string, Value>>, render: Render, toHtml: string -> string, env: Env)
  {
    Plan(questions, v, env).Ok? && Added(e, Plan(questions, v, env).value, settled, render, toHtml, env)
  }

  /** The group branch as written: `QuestionGroup(group, list(...))` passes two positional arguments
      to a constructor that takes one, so once the members have been elaborated the call raises. */
  method GroupEntryAsWritten(members: Value, bank: TestBank.Bank, env: Env, ghost settled: map<PyClass, map<string, Value>>,
                             ghost render: Render) returns (r: Result<()>)
    requires SettledAs(BankClasses(bank), settled) && Renders(render, env)
    modifies BankClasses(bank)
    ensures r.Err?
    ensures !IsIterable(members) ==> r == Err(TypeError)
    ensures IsIterable(members) && Picks(bank.questions, Iterate(members).value, env).Ok?
            && (forall i :: 0 <= i < |Iterate(members).value| ==> !Derives(bank.questions, Iterate(members).value[i], env))
            ==> r == Err(TypeError)
    ensures IsIterable(members) && (forall i :: 0 <= i < |Iterate(members).value| ==>
                                      MemberRenders(bank.questions, Iterate(members).value[i], settled, render, env))
            ==> r == Err(TypeError)
  {
    var elaborated := Elaborate(members, bank, env, settled, render);
    if elaborated.Err? {
      return Err(elaborated.error);
    }
    r := Err(TypeError);
  }

  /** The group branch as intended, `add_group(QuestionGroup(list(elaborate_group(questions))))`:
      one section titled "Group" with an item per elaborated member, in entry order, holding the
      member's text. */
  method GroupEntryFixed(quiz: Export, members: Value, bank: TestBank.Bank, env: Env,
                         ghost settled: map<PyClass, map<string, Value>>, ghost render: Render) returns (r: Result<()>)
    requires quiz.Valid() && SettledAs(BankClasses(bank), settled) && Renders(render, env)
    modifies quiz, quiz.uuid, BankClasses(bank)
    ensures quiz.Valid() && quiz.resources == old(quiz.resources) && quiz.files == old(quiz.files)
    ensures !IsIterable(members) ==> r == Err(TypeError)
    ensures IsIterable(members) && Picks(bank.questions, Iterate(members).value, env).Err? ==> r.Err?
    ensures r.Ok? ==>
              && IsIterable(members) && Picks(bank.questions, Iterate(members).value, env).Ok?
              && |quiz.questions| == |old(quiz.questions)| + 1
              && quiz.questions[..|old(quiz.questions)|] == old(quiz.questions)
              && var e := quiz.questions[|old(quiz.questions)|];
                 && e.QSection? && e.section.title == "Group"
                 && var ps := Picks(bank.questions, Iterate(members).value, env).value;
                    && |e.section.items| == |ps|
                    && forall k :: 0 <= k < |ps| ==> PickAdded(e.section.items[k], ps[k], settled, render, quiz.outside.toHtml, env)
    /** A group whose every entry can be added is added. */
    ensures IsIterable(members) && (forall i :: 0 <= i < |Iterate(members).value| ==>
                                      MemberRenders(bank.questions, Iterate(members).value[i], settled, render, env))
            ==> r.Ok?
  {
    var elaborated := ElaboratePicks(members, bank, env, settled, render);
    if elaborated.Err? {
      return Err(elaborated.error);
    }
    r := AddPicked(quiz, elaborated.value, Picks(bank.questions, Iterate(members).value, env).value, settled, render, env);
  }

  /** `list(elaborate_group(questions))`, seen from the picks: each member renders as its pick asks. */
  method ElaboratePicks(members: Value, bank: TestBank.Bank, env: Env, ghost settled: map<PyClass, map<string, Value>>,
                        ghost render: Render) returns (r: Result<seq<PyClass>>)
    requires SettledAs(BankClasses(bank), settled) && Renders(render, env)
    modifies BankClasses(bank)
    ensures !IsIterable(members) ==> r == Err(TypeError)
    ensures IsIterable(members) && Picks(bank.questions, Iterate(members).value, env).Err? ==> r.Err?
    ensures r.Ok? ==>
              && IsIterable(members) && Picks(bank.questions, Iterate(members).value, env).Ok?
              && var ps := Picks(bank.questions, Iterate(members).value, env).value;
                 && |r.value| == |ps|
                 && forall k :: 0 <= k < |ps| ==>
                      && !ps[k].Skip? && ps[k].c in settled && Yields(r.value[k], ps[k], env)
                      && TextOf(r.value[k], env) == AskedText(PickAsked(ps[k], settled[ps[k].c]), env)
    ensures r.Ok? ==> forall k :: 0 <= k < |r.value| ==> r.value[k] in old(BankClasses(bank)) || fresh(r.value[k])
    ensures IsIterable(members) && (forall i :: 0 <= i < |Iterate(members).value| ==>
                                      MemberRenders(bank.questions, Iterate(members).value[i], settled, render, env))
            ==> && r.Ok?
                && var ps := Picks(bank.questions, Iterate(members).value, env).value;
                   forall k :: 0 <= k < |ps| ==> PickRenders(ps[k], settled, render, env)
  {
    r := Elaborate(members, bank, env, settled, render);
    if r.Err? {
      return;
    }
    ghost var vs := Iterate(members).value;
    PicksInBank(bank, vs, env);
    if forall i :: 0 <= i < |vs| ==> MemberRenders(bank.questions, vs[i], settled, render, env) {
      PicksRender(bank.questions, vs, settled, render, env);
    }
    PicksText(r.value, Picks(bank.questions, vs, env).value, settled, BankClasses(bank), env);
  }

  /** `add_group` of the members `qs` elaborated from the picks `ps`. */
  method AddPicked(quiz: Export, qs: seq<PyClass>, ghost ps: seq<Pick>, ghost settled: map<PyClass, map<string, Value>>,
                   ghost render: Render, env: Env) returns (r: Result<()>)
    requires quiz.Valid() && Renders(render, env) && |qs| == |ps|
    requires forall k :: 0 <= k < |ps| ==>
               && !ps[k].Skip? && ps[k].c in settled && Yields(qs[k], ps[k], env)
               && TextOf(qs[k], env) == AskedText(PickAsked(ps[k], settled[ps[k].c]), env)
    modifies quiz, quiz.uuid, set q | q in qs
    ensures quiz.Valid() && quiz.resources == old(quiz.resources) && quiz.files == old(quiz.files)
    ensures r.Ok? ==>
              && |quiz.questions| == |old(quiz.questions)| + 1
              && quiz.questions[..|old(quiz.questions)|] == old(quiz.questions)
              && var e := quiz.questions[|old(quiz.questions)|];
                 && e.QSection? && e.section.title == "Group" && |e.section.items| == |ps|
                 && forall k :: 0 <= k < |ps| ==> PickAdded(e.section.items[k], ps[k], settled, render, quiz.outside.toHtml, env)
    ensures (forall k :: 0 <= k < |ps| ==> PickRenders(ps[k], settled, render, env)) ==> r.Ok?
  {
    forall k | 0 <= k < |ps|
      ensures TextOf(qs[k], env) == render(PickAsked(ps[k], settled[ps[k].c]))
    {
      assert render(PickAsked(ps[k], settled[ps[k].c])) == AskedText(PickAsked(ps[k], settled[ps[k].c]), env);
    }
    r := AddSectionOf(quiz, qs, env);
  }

  /** The members elaborated from a group's picks render as the picks ask. */
  lemma PicksText(qs: seq<PyClass>, ps: seq<Pick>, settled: map<PyClass, map<string, Value>>, classes: set<PyClass>, env: Env)
    requires |qs| == |ps| && SettledAs(classes, settled)
    requires forall k :: 0 <= k < |ps| ==> !ps[k].Skip? && ps[k].c in classes && Yields(qs[k], ps[k], env) && MadeFrom(qs[k], ps[k], settled)
    ensures forall k :: 0 <= k < |ps| ==>
              ps[k].c in settled && TextOf(qs[k], env) == AskedText(PickAsked(ps[k], settled[ps[k].c]), env)
  {
    forall k | 0 <= k < |ps|
      ensures ps[k].c in settled && TextOf(qs[k], env) == AskedText(PickAsked(ps[k], settled[ps[k].c]), env)
    {
      PickText(qs[k], ps[k], settled, env);
    }
  }

  /** The class `v` elaborated from pick `p` renders as the pick asks. */
  lemma PickText(v: PyClass, p: Pick, settled: map<PyClass, map<string, Value>>, env: Env)
    requires !p.Skip? && p.c in settled && Yields(v, p, env) && MadeFrom(v, p, settled)
    requires p.Found? ==> Question.ValidatedOwn(p.c.kind, p.c.own) == settled[p.c]
    ensures TextOf(v, env) == AskedText(PickAsked(p, settled[p.c]), env)
  {
    match p
    case Found(c) =>
      TextForValidated(c.kind, c.inherited, c.own, c.name, env);
    case Derive(c, kw) =>
      VariantAsked(v, c, kw, settled[c], env);
  }

  /** The classes picked from a group's entries are the bank's. */
  lemma {:induction false} PicksInBank(bank: TestBank.Bank, vs: seq<Value>, env: Env)
    requires Picks(bank.questions, vs, env).Ok?
    ensures var ps := Picks(bank.questions, vs, env).value;
            forall k :: 0 <= k < |ps| ==> ps[k].c in BankClasses(bank)
    decreases |vs|
  {
    if vs != [] {
      var n := |vs| - 1;
      PicksInBank(bank, vs[..n], env);
      var p := MemberPick(bank.questions, vs[n], env).value;
      match p
      case Found(c) =>
        assert c in Members(bank.questions["@" + vs[n].s]);
      case Derive(c, _) =>
        assert c in Members(bank.questions["@" + Str(env, ShapeOf(vs[n]).name)]);
      case Skip =>
    }
  }

  /** When every entry of a group can be added, so can every class picked. */
  lemma {:induction false} PicksRender(questions: map<string, TestBank.Entity>, vs: seq<Value>,
                                       settled: map<PyClass, map<string, Value>>, render: Render, env: Env)
    requires forall i :: 0 <= i < |vs| ==> MemberRenders(questions, vs[i], settled, render, env)
    ensures Picks(questions, vs, env).Ok?
    ensures var ps := Picks(questions, vs, env).value;
            forall k :: 0 <= k < |ps| ==> PickRenders(ps[k], settled, render, env)
    decreases |vs|
  {
    if vs != [] {
      var n := |vs| - 1;
      assert forall i :: 0 <= i < n ==> vs[..n][i] == vs[i];
      PicksRender(questions, vs[..n], settled, render, env);
    }
  }

  /** One pass of the loop of `from_yaml`. */
  method AddEntry(quiz: Export, v: Value, bank: TestBank.Bank, env: Env, ghost settled: map<PyClass, map<string, Value>>, ghost render: Render)
      returns (r: Result<()>)
    requires quiz.Valid() && SettledAs(BankClasses(bank), settled) && Renders(render, env)
    modifies quiz, quiz.uuid, BankClasses(bank)
    ensures quiz.Valid() && quiz.resources == old(quiz.resources) && quiz.files == old(quiz.files)
    ensures Plan(bank.questions, v, env).Err? ==> r == Err(Plan(bank.questions, v, env).error)
    ensures Plan(bank.questions, v, env).Ok? && Plan(bank.questions, v, env).value.GroupEntry? ==> r.Err?
    ensures r.Ok? ==>
              && SettledAs(BankClasses(bank), settled)
              && |quiz.questions| == |old(quiz.questions)| + 1
              && quiz.questions[..|old(quiz.questions)|] == old(quiz.questions)
              && EntryAdded(quiz.questions[|old(quiz.questions)|], bank.questions, v, settled, render, quiz.outside.toHtml, env)
    ensures EntryRenders(bank.questions, v, settled, render, env) ==> r.Ok?
  {
    var step := Plan(bank.questions, v, env);
    if step.Err? {
      return Err(step.error);
    }
    PlanInBank(bank, v, env);
    r := Apply(quiz, step.value, bank, env, settled, render);
  }

  /** The class objects a step works on are the bank's. */
  predicate StepInBank(s: Step, classes: set<PyClass>)
  {
    match s
    case AddOne(c) => c in classes
    case AddVariant(c, _) => c in classes
    case AddMembers(g) => forall q :: q in g.data ==> q in classes
    case GroupEntry(_) => true
  }

  lemma PlanInBank(bank: TestBank.Bank, v: Value, env: Env)
    requires Plan(bank.questions, v, env).Ok?
    ensures StepInBank(Plan(bank.questions, v, env).value, BankClasses(bank))
  {
    match Plan(bank.questions, v, env).value
    case AddOne(c) =>
      assert c in Members(bank.questions["@" + v.s]);
    case AddVariant(c, kw) =>
      PlanVariant(bank.questions, v, env);
      assert c in Members(bank.questions["@" + Str(env, ShapeOf(v).name)]);
    case AddMembers(g) =>
      assert forall q :: q in g.data ==> q in Members(bank.questions["@" + v.s]);
    case GroupEntry(_) =>
  }

  /** Carrying out one planned step. */
  method Apply(quiz: Export, s: Step, bank: TestBank.Bank, env: Env, ghost settled: map<PyClass, map<string, Value>>, ghost render: Render)
      returns (r: Result<()>)
    requires quiz.Valid() && StepInBank(s, BankClasses(bank)) && SettledAs(BankClasses(bank), settled) && Renders(render, env)
    modifies quiz, quiz.uuid, BankClasses(bank)
    ensures quiz.Valid() && quiz.resources == old(quiz.resources) && quiz.files == old(quiz.files)
    ensures s.GroupEntry? ==> r.Err?
    ensures r.Ok? ==>
              && SettledAs(BankClasses(bank), settled)
              && |quiz.questions| == |old(quiz.questions)| + 1
              && quiz.questions[..|old(quiz.questions)|] == old(quiz.questions)
              && Added(quiz.questions[|old(quiz.questions)|], s, settled, render, quiz.outside.toHtml, env)
    ensures StepRenders(s, settled, render, env) ==> r.Ok?
  {
    match s
    case AddOne(c) =>
      r := AddOneOf(quiz, c, BankClasses(bank), settled, render, env);
    case AddVariant(c, kw) =>
      r := AddVariantOf(quiz, c, kw, BankClasses(bank), settled, render, env);
    case AddMembers(g) =>
      r := AddMembersOf(quiz, g, BankClasses(bank), settled, render, env);
    case GroupEntry(ms) =>
      r := GroupEntryAsWritten(ms, bank, env, settled, render);
  }

  /** A top-level name of a question class: its item. */
  method AddOneOf(quiz: Export, c: PyClass, ghost classes: set<PyClass>, ghost settled: map<PyClass, map<string, Value>>, ghost render: Render, env: Env)
      returns (r: Result<()>)
    requires quiz.Valid() && c in classes && SettledAs(classes, settled) && Renders(render, env)
    modifies quiz, quiz.uuid, c
    ensures quiz.Valid() && quiz.resources == old(quiz.resources) && quiz.files == old(quiz.files)
    ensures SettledAs(classes, settled)
    ensures r.Ok? ==>
              && |quiz.questions| == |old(quiz.questions)| + 1
              && quiz.questions[..|old(quiz.questions)|] == old(quiz.questions)
              && Added(quiz.questions[|old(quiz.questions)|], AddOne(c), settled, render, quiz.outside.toHtml, env)
    ensures PickRenders(Found(c), settled, render, env) ==> r.Ok?
  {
    ghost var own := c.own;
    TextForValidated(c.kind, c.inherited, own, c.name, env);
    r := AddAsked(quiz, c, MemberOf(c, settled[c]), render, env);
    Question.ValidateIdempotent(c.kind, c.inherited, own, env);
  }

  /** A top-level name with parameters: the item of the variant made of the class it names. */
  method AddVariantOf(quiz: Export, c: PyClass, kw: Kwargs, ghost classes: set<PyClass>,
                      ghost settled: map<PyClass, map<string, Value>>, ghost render: Render, env: Env) returns (r: Result<()>)
    requires quiz.Valid() && c in classes && SettledAs(classes, settled) && Renders(render, env)
    modifies quiz, quiz.uuid, c
    ensures quiz.Valid() && quiz.resources == old(quiz.resources) && quiz.files == old(quiz.files)
    ensures SettledAs(classes, settled)
    ensures r.Ok? ==>
              && |quiz.questions| == |old(quiz.questions)| + 1
              && quiz.questions[..|old(quiz.questions)|] == old(quiz.questions)
              && Added(quiz.questions[|old(quiz.questions)|], AddVariant(c, kw), settled, render, quiz.outside.toHtml, env)
    ensures PickRenders(Derive(c, kw), settled, render, env) ==> r.Ok?
  {
    var made := MakeAsked(c, kw, classes, settled, env);
    if made.Err? {
      return Err(made.error);
    }
    r := AddAsked(quiz, made.value, VariantOf(c.kind, c.inherited, settled[c], c.name, kw), render, env);
  }

  /** `variant` on a bank class: the new class renders as the variant asked of the base's validated
      dictionary, and the bank's classes stay settled. */
  method MakeAsked(c: PyClass, kw: Kwargs, ghost classes: set<PyClass>, ghost settled: map<PyClass, map<string, Value>>,
                   env: Env) returns (r: Result<PyClass>)
    requires c in classes && SettledAs(classes, settled)
    modifies c
    ensures SettledAs(classes, settled)
    ensures r.Ok? ==>
              && fresh(r.value) && ExtraBases(kw.extraBases, env).Ok?
              && Question.VariantName(c.name, kw.classname, kw.params, env) == VStr(r.value.name)
              && TextOf(r.value, env) == AskedText(VariantOf(c.kind, c.inherited, settled[c], c.name, kw), env)
    ensures r.Ok? ==> Made(r.value, c, kw, env) && r.value.own == Question.ValidatedOwn(c.kind, settled[c] + Question.ParamMap(kw.params))
    ensures (&& Question.ValidateSpec(c.kind, c.inherited + settled[c], env).Ok?
             && AskedText(VariantOf(c.kind, c.inherited, settled[c], c.name, kw), env).Ok?) ==> r.Ok?
  {
    ghost var own := c.own;
    if AskedText(VariantOf(c.kind, c.inherited, settled[c], c.name, kw), env).Ok? {
      VariantAskedOk(c.kind, c.inherited, settled[c], c.name, kw, env);
    }
    r := MakeVariant(c, kw, env);
    Question.ValidateIdempotent(c.kind, c.inherited, own, env);
    assert SettledAs(classes, settled);
    if r.Ok? {
      VariantAsked(r.value, c, kw, settled[c], env);
    }
  }

  /** The item of class `c`, asked as `asked`. */
  method AddAsked(quiz: Export, c: PyClass, ghost asked: Asked, ghost render: Render, env: Env) returns (r: Result<()>)
    requires quiz.Valid() && TextOf(c, env) == AskedText(asked, env) && Renders(render, env)
    modifies quiz, quiz.uuid, c
    ensures quiz.Valid() && quiz.resources == old(quiz.resources) && quiz.files == old(quiz.files)
    ensures c.own == Question.ValidatedOwn(c.kind, old(c.own))
    ensures r.Ok? ==>
              && |quiz.questions| == |old(quiz.questions)| + 1
              && quiz.questions[..|old(quiz.questions)|] == old(quiz.questions)
              && var e := quiz.questions[|old(quiz.questions)|];
                 e.QItem? && Holds(e.item, c.name, render(asked), quiz.outside.toHtml)
    ensures render(asked).Ok? ==> r.Ok?
  {
    r := AddItem(quiz, c, env);
    assert render(asked) == AskedText(asked, env);
  }

  /** The variant `variant` made renders as the variant asked of its base. */
  lemma VariantAsked(v: PyClass, c: PyClass, kw: Kwargs, own: map<string, Value>, env: Env)
    requires Made(v, c, kw, env) && v.own == Question.ValidatedOwn(c.kind, own + Question.ParamMap(kw.params))
    ensures TextOf(v, env) == AskedText(VariantOf(c.kind, c.inherited, own, c.name, kw), env)
  {
  }

  /** A variant that renders has valid extra bases and a name, and its class validates. */
  lemma VariantAskedOk(kind: Kind, inherited: map<string, Value>, own: map<string, Value>, name: string, kw: Kwargs, env: Env)
    requires AskedText(VariantOf(kind, inherited, own, name, kw), env).Ok?
    ensures ExtraBases(kw.extraBases, env).Ok?
    ensures Question.VariantName(name, kw.classname, kw.params, env).VStr?
    ensures Question.ValidateSpec(kind, Question.ExtraAttrs(ExtraBases(kw.extraBases, env).value) + inherited
                                  + Question.ValidatedOwn(kind, own + Question.ParamMap(kw.params)), env).Ok?
  {
    var extra := ExtraBases(kw.extraBases, env).value;
    var ps := own + Question.ParamMap(kw.params);
    Question.ValidateIdempotent(kind, Question.ExtraAttrs(extra) + inherited, ps, env);
  }

  /** A top-level name of a group: its section, an item per member. */
  method AddMembersOf(quiz: Export, g: QuestionGroup, ghost classes: set<PyClass>,
                      ghost settled: map<PyClass, map<string, Value>>, ghost render: Render, env: Env) returns (r: Result<()>)
    requires quiz.Valid() && (forall q :: q in g.data ==> q in classes) && SettledAs(classes, settled) && Renders(render, env)
    modifies quiz, quiz.uuid, set q | q in g.data
    ensures quiz.Valid() && quiz.resources == old(quiz.resources) && quiz.files == old(quiz.files)
    ensures SettledAs(classes, settled)
    ensures r.Ok? ==>
              && |quiz.questions| == |old(quiz.questions)| + 1
              && quiz.questions[..|old(quiz.questions)|] == old(quiz.questions)
              && Added(quiz.questions[|old(quiz.questions)|], AddMembers(g), settled, render, quiz.outside.toHtml, env)
    ensures StepRenders(AddMembers(g), settled, render, env) ==> r.Ok?
  {
    ghost var owns := Question.Owns(g.data);
    forall k | 0 <= k < |g.data|
      ensures TextOf(g.data[k], env) == render(MemberOf(g.data[k], settled[g.data[k]]))
    {
      TextForValidated(g.data[k].kind, g.data[k].inherited, owns[k], g.data[k].name, env);
      assert render(MemberOf(g.data[k], settled[g.data[k]])) == AskedText(MemberOf(g.data[k], settled[g.data[k]]), env);
    }
    r := AddSectionOf(quiz, g.data, env);
    forall q | q in g.data
      ensures Question.ValidatedOwn(q.kind, q.own) == Question.ValidatedOwn(q.kind, old(q.own))
    {
      Question.ValidateIdempotent(q.kind, q.inherited, old(q.own), env);
    }
    if r.Ok? {
      var e := quiz.questions[|old(quiz.questions)|];
      forall k | 0 <= k < |g.data|
        ensures Holds(e.section.items[k], g.data[k].name, render(MemberOf(g.data[k], settled[g.data[k]])), quiz.outside.toHtml)
      {
        TextForValidated(g.data[k].kind, g.data[k].inherited, owns[k], g.data[k].name, env);
        assert render(MemberOf(g.data[k], settled[g.data[k]])) == AskedText(MemberOf(g.data[k], settled[g.data[k]]), env);
      }
    }
  }

  /** `add_question`, seen from the loop: one essay item titled with the class name, holding the text
      `question()` gave. */
  method AddItem(quiz: Export, c: PyClass, env: Env) returns (r: Result<()>)
    requires quiz.Valid()
    modifies quiz, quiz.uuid, c
    ensures quiz.Valid() && quiz.resources == old(quiz.resources) && quiz.files == old(quiz.files)
    ensures c.own == Question.ValidatedOwn(c.kind, old(c.own))
    ensures old(TextOf(c, env)).Err? ==> r == Err(old(TextOf(c, env)).error)
    ensures old(TextOf(c, env)).Ok? ==> r.Ok?
    ensures r.Ok? ==>
              && |quiz.questions| == |old(quiz.questions)| + 1
              && quiz.questions[..|old(quiz.questions)|] == old(quiz.questions)
              && var e := quiz.questions[|old(quiz.questions)|];
                 e.QItem? && Holds(e.item, c.name, old(TextOf(c, env)), quiz.outside.toHtml)
  {
    r := quiz.AddQuestion(c, env);
    if r.Ok? {
      assert quiz.questions[..|old(quiz.questions)|] == old(quiz.questions);
    }
  }

  /** `add_group`, seen from the loop: one section titled "Group" with an item per member, holding
      the member's text. */
  method AddSectionOf(quiz: Export, qs: seq<PyClass>, env: Env) returns (r: Result<()>)
    requires quiz.Valid()
    modifies quiz, quiz.uuid, set q | q in qs
    ensures quiz.Valid() && quiz.resources == old(quiz.resources) && quiz.files == old(quiz.files)
    ensures forall q :: q in qs ==> q.own == old(q.own) || q.own == Question.ValidatedOwn(q.kind, old(q.own))
    ensures old(GroupTexts(qs, env)).Err? ==> r == Err(old(GroupTexts(qs, env)).error)
    ensures (forall k :: 0 <= k < |qs| ==> old(TextOf(qs[k], env)).Ok?) ==> r.Ok?
    ensures r.Ok? ==>
              && |quiz.questions| == |old(quiz.questions)| + 1
              && quiz.questions[..|old(quiz.questions)|] == old(quiz.questions)
              && var e := quiz.questions[|old(quiz.questions)|];
                 && e.QSection? && e.section.title == "Group" && TitledBy(e.section.items, qs)
                 && forall k :: 0 <= k < |qs| ==> Holds(e.section.items[k], qs[k].name, old(TextOf(qs[k], env)), quiz.outside.toHtml)
  {
    ghost var texts := GroupTexts(qs, env);
    ghost var ts := Texts(qs, env);
    TextsAt(qs, env);
    if forall k :: 0 <= k < |qs| ==> TextOf(qs[k], env).Ok? {
      CollectedAllOk(ts);
    }
    ghost var i0 := quiz.uuid.issued;
    r := quiz.AddGroup(qs, env);
    if r.Ok? {
      EssayItemsTitles(quiz.uuid.ids, i0, qs, texts.value, quiz.outside.toHtml);
      assert quiz.questions[..|old(quiz.questions)|] == old(quiz.questions);
      forall k | 0 <= k < |qs|
        ensures Holds(EssayItems(quiz.uuid.ids, i0, qs, texts.value, quiz.outside.toHtml)[k], qs[k].name, ts[k], quiz.outside.toHtml)
      {
        EssayItemsAt(quiz.uuid.ids, i0, qs, texts.value, quiz.outside.toHtml, k);
      }
    }
  }

  /** The loop of `from_yaml`: the entries in order, stopping at the first that raises. */
  method AddEntries(quiz: Export, es: seq<Value>, bank: TestBank.Bank, env: Env, ghost settled: map<PyClass, map<string, Value>>, ghost render: Render)
      returns (r: Result<()>)
    requires quiz.Valid() && SettledAs(BankClasses(bank), settled) && Renders(render, env)
    modifies quiz, quiz.uuid, BankClasses(bank)
    ensures quiz.Valid() && quiz.resources == old(quiz.resources) && quiz.files == old(quiz.files)
    ensures r.Ok? ==>
              && |quiz.questions| == |old(quiz.questions)| + |es|
              && quiz.questions[..|old(quiz.questions)|] == old(quiz.questions)
              && forall k :: 0 <= k < |es| ==>
                   EntryAdded(quiz.questions[|old(quiz.questions)| + k], bank.questions, es[k], settled, render, quiz.outside.toHtml, env)
    ensures (forall k :: 0 <= k < |es| ==> EntryRenders(bank.questions, es[k], settled, render, env)) ==> r.Ok?
  {
    ghost var n := |quiz.questions|;
    ghost var questions := bank.questions;
    ghost var toHtml := quiz.outside.toHtml;
    var i := 0;
    while i < |es|
      invariant 0 <= i <= |es|
      invariant quiz.Valid() && quiz.resources == old(quiz.resources) && quiz.files == old(quiz.files)
      invariant SettledAs(BankClasses(bank), settled)
      invariant |quiz.questions| == n + i && quiz.questions[..n] == old(quiz.questions)
      invariant forall k :: 0 <= k < i ==> EntryAdded(quiz.questions[n + k], questions, es[k], settled, render, toHtml, env)
    {
      ghost var before := quiz.questions;
      var added := AddEntry(quiz, es[i], bank, env, settled, render);
      if added.Err? {
        return Err(added.error);
      }
      EntriesStep(before, quiz.questions, n, i, es, (e, x) => EntryAdded(e, questions, x, settled, render, toHtml, env));
      i := i + 1;
    }
    r := Ok(());
  }

  /** The quiz's entries are, one for one and in order, what the `questions` entries of the document
      add. */
  predicate QuizFrom(entries: seq<QuizEntry>, test: Value, questions: map<string, TestBank.Entity>,
                     settled: map<PyClass, map<string, Value>>, render: Render, toHtml: string -> string, env: Env)
  {
    && Subscript(test, "questions").Ok? && IsIterable(Subscript(test, "questions").value)
    && var es := Iterate(Subscript(test, "questions").value).value;
       && |entries| == |es|
       && forall k :: 0 <= k < |es| ==> EntryAdded(entries[k], questions, es[k], settled, render, toHtml, env)
  }

  /** So a quiz is only produced when no top-level entry is a group mapping. */
  lemma QuizFromHasNoGroups(entries: seq<QuizEntry>, test: Value, questions: map<string, TestBank.Entity>,
                            settled: map<PyClass, map<string, Value>>, render: Render, toHtml: string -> string, env: Env)
    requires QuizFrom(entries, test, questions, settled, render, toHtml, env)
    ensures var es := Iterate(Subscript(test, "questions").value).value;
            forall k :: 0 <= k < |es| ==> !HasKeys(es[k], "group", "questions")
  {
  }

  /** The part of `from_yaml` after the quiz exists: the loop over `test["questions"]`. */
  method AddListed(quiz: Export, test: Value, bank: TestBank.Bank, env: Env, ghost settled: map<PyClass, map<string, Value>>, ghost render: Render)
      returns (r: Result<()>)
    requires quiz.Valid() && quiz.questions == [] && SettledAs(BankClasses(bank), settled) && Renders(render, env)
    modifies quiz, quiz.uuid, BankClasses(bank)
    ensures quiz.Valid() && quiz.resources == old(quiz.resources) && quiz.files == old(quiz.files)
    ensures r.Ok? ==> QuizFrom(quiz.questions, test, bank.questions, settled, render, quiz.outside.toHtml, env)
    ensures ListRenders(test, bank.questions, settled, render, env) ==> r.Ok?
  {
    var questions := Subscript(test, "questions");
    if questions.Err? {
      return Err(questions.error);
    }
    var it := Iterate(questions.value);
    if it.None? {
      return Err(TypeError);
    }
    r := AddEntries(quiz, it.value, bank, env, settled, render);
  }

  /** One more top-level entry added after those before it, for any relation `ok` between a quiz
      entry and the YAML entry it came from. */
  lemma EntriesStep(before: seq<QuizEntry>, after: seq<QuizEntry>, n: nat, i: nat, es: seq<Value>,
                    ok: (QuizEntry, Value) -> bool)
    requires i < |es| && |before| == n + i && |after| == n + i + 1 && after[..n + i] == before
    requires forall k :: 0 <= k < i ==> ok(before[n + k], es[k])
    requires ok(after[n + i], es[i])
    ensures after[..n] == before[..n]
    ensures forall k :: 0 <= k < i + 1 ==> ok(after[n + k], es[k])
  {
    assert forall k :: 0 <= k < n + i ==> after[k] == before[k];
  }

  /** `from_yaml`: reads the title and the description, creates the quiz, then adds the entries
      of `questions` in order and stops at the first that raises. */
  method FromYaml(test: Value, bank: TestBank.Bank, outside: Outside, uuid: IdSource, env: Env) returns (r: Result<Export>)
    modifies uuid, BankClasses(bank)
    ensures Subscript(test, "title").Err? ==> r == Err(Subscript(test, "title").error)
    ensures Subscript(test, "title").Ok? && Subscript(test, "description").Err? ==> r == Err(Subscript(test, "description").error)
    ensures Subscript(test, "description").Ok? && !Subscript(test, "description").value.VStr? ==> r.Err?
    ensures r.Ok? ==>
              && fresh(r.value) && r.value.Valid() && r.value.uuid == uuid && r.value.outside == outside
              && r.value.title == Str(env, Subscript(test, "title").value)
              && r.value.resources == [r.value.quizResource] && r.value.files == []
    ensures r.Ok? ==> QuizFrom(r.value.questions, test, bank.questions, old(Settled(BankClasses(bank))), Ask(env), outside.toHtml, env)
    ensures (&& Subscript(test, "title").Ok? && Subscript(test, "description").Ok? && Subscript(test, "description").value.VStr?
             && ListRenders(test, bank.questions, old(Settled(BankClasses(bank))), Ask(env), env)) ==> r.Ok?
  {
    r := FromYamlWith(test, bank, outside, uuid, env, Settled(BankClasses(bank)));
  }

  /** `from_yaml`, with the validated dictionaries of the bank's classes as they are on entry. */
  method FromYamlWith(test: Value, bank: TestBank.Bank, outside: Outside, uuid: IdSource, env: Env,
                      ghost settled: map<PyClass, map<string, Value>>) returns (r: Result<Export>)
    requires SettledAs(BankClasses(bank), settled)
    modifies uuid, BankClasses(bank)
    ensures Subscript(test, "title").Err? ==> r == Err(Subscript(test, "title").error)
    ensures Subscript(test, "title").Ok? && Subscript(test, "description").Err? ==> r == Err(Subscript(test, "description").error)
    ensures Subscript(test, "description").Ok? && !Subscript(test, "description").value.VStr? ==> r.Err?
    ensures r.Ok? ==>
              && fresh(r.value) && r.value.Valid() && r.value.uuid == uuid && r.value.outside == outside
              && r.value.title == Str(env, Subscript(test, "title").value)
              && r.value.resources == [r.value.quizResource] && r.value.files == []
    ensures r.Ok? ==> QuizFrom(r.value.questions, test, bank.questions, settled, Ask(env), outside.toHtml, env)
    ensures (&& Subscript(test, "title").Ok? && Subscript(test, "description").Ok? && Subscript(test, "description").value.VStr?
             && ListRenders(test, bank.questions, settled, Ask(env), env)) ==> r.Ok?
  {
    var title := Subscript(test, "title");
    if title.Err? {
      return Err(title.error);
    }
    var description := Subscript(test, "description");
    if description.Err? {
      return Err(description.error);
    }
    if !description.value.VStr? {
      return Err(TypeError);
    }
    var quiz := new Export(Str(env, title.value), description.value.s, outside, uuid);
    AskRenders(env);
    var added := AddListed(quiz, test, bank, env, settled, Ask(env));
    if added.Err? {
      return Err(added.error);
    }
    r := Ok(quiz);
  }
}
