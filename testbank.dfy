/**
 * Model of src/nbquiz/testbank.py: the test bank maps tags to question classes and question groups.
 * Loading a notebook extracts the source of its `question` cells, executes it, and registers every
 * question class of the resulting namespace under its two tags, and every group under `@` and the
 * name it is bound to.
 */
module TestBank {
  import opened Strings
  import opened PyModel
  import opened Notebook
  import Question

  /** What the bank maps a tag to. Equality of entities is identity of the objects. */
  datatype Entity = EQuestion(q: PyClass) | EGroup(g: QuestionGroup)

  /** The namespace `exec` leaves behind, in insertion order, or the exception it raised. */
  datatype ExecOutcome = Executed(ns: seq<(string, NsValue)>) | ExecFailed(reason: string)

  /**
   * The file system and the interpreter as the bank sees them: `absolute` and `pathExists` stand for
   * `Path.absolute` and `Path.exists`, `glob` for the notebooks a directory's `*.ipynb` pattern lists,
   * `documents` for what `nbformat.read` returns for a file, and `exec` for running a source text.
   */
  datatype Platform = Platform(
    absolute: string -> string,
    pathExists: string -> bool,
    glob: string -> seq<string>,
    documents: map<string, seq<Cell>>,
    exec: string -> ExecOutcome)

  // ================================================================ source extraction

  /** Whether `_load` keeps the cell (src/nbquiz/testbank.py:67-70): a code cell whose metadata tags
      contain `question`; its metadata is only looked at for code cells. */
  function IsQuestionCell(c: Cell): (r: Result<bool>)
    ensures c.cellType != "code" ==> r == Ok(false)
    ensures r == Ok(true) ==> c.cellType == "code" && c.metadata.Some? && "tags" in c.metadata.value
  {
    if c.cellType != "code" then Ok(false)
    else if c.metadata.None? then Err(KeyError(VStr("metadata")))
    else if "tags" !in c.metadata.value then Ok(false)
    else Contains(c.metadata.value["tags"], VStr("question"))
  }

  /** The sources of the question cells, in document order. */
  function TaggedSources(cells: seq<Cell>): (r: Result<seq<string>>)
    ensures r.Ok? <==> forall i :: 0 <= i < |cells| ==> IsQuestionCell(cells[i]).Ok?
    ensures r.Ok? ==> |r.value| <= |cells|
    ensures r.Ok? ==> forall s :: s in r.value ==>
                        exists i :: 0 <= i < |cells| && IsQuestionCell(cells[i]) == Ok(true) && cells[i].source == s
    decreases |cells|
  {
    if cells == [] then Ok([])
    else
      var head := IsQuestionCell(cells[0]);
      var rest := TaggedSources(cells[1..]);
      if head.Err? then Err(head.error)
      else if rest.Err? then rest
      else
        var r := (if head.value then [cells[0].source] else []) + rest.value;
        assert forall s :: s in r && s !in rest.value ==> head.value && s == cells[0].source;
        assert forall i :: 1 <= i < |cells| ==> cells[1..][i - 1] == cells[i];
        Ok(r)
  }

  /** Extraction works cell by cell: the sources of two consecutive runs of cells are those of the
      first followed by those of the second. */
  lemma {:induction false} TaggedSourcesConcat(a: seq<Cell>, b: seq<Cell>)
    requires TaggedSources(a).Ok? && TaggedSources(b).Ok?
    ensures TaggedSources(a + b) == Ok(TaggedSources(a).value + TaggedSources(b).value)
    decreases |a|
  {
    if a == [] {
      assert a + b == b;
      assert TaggedSources(a).value == [];
      assert TaggedSources(a).value + TaggedSources(b).value == TaggedSources(b).value;
    } else {
      TailConcat(a, b);
      TaggedSourcesTail(a);
      TaggedSourcesConcat(a[1..], b);
      TaggedSourcesUnfold(a);
      TaggedSourcesUnfold(a + b);
      var own: seq<string> := if IsQuestionCell(a[0]).value then [a[0].source] else [];
      ConcatAssoc(own, TaggedSources(a[1..]).value, TaggedSources(b).value);
    }
  }

  /** The cells after the first of a run that extracts cleanly also extract cleanly. */
  lemma TaggedSourcesTail(cells: seq<Cell>)
    requires cells != [] && TaggedSources(cells).Ok?
    ensures TaggedSources(cells[1..]).Ok?
  {
    forall i | 0 <= i < |cells[1..]| ensures IsQuestionCell(cells[1..][i]).Ok? {
      assert cells[1..][i] == cells[i + 1];
    }
  }

  /** One step of extraction: the first cell's source, if it is a question cell, then the rest. */
  lemma TaggedSourcesUnfold(cells: seq<Cell>)
    requires cells != [] && TaggedSources(cells).Ok?
    ensures TaggedSources(cells[1..]).Ok? && IsQuestionCell(cells[0]).Ok?
    ensures TaggedSources(cells).value
            == (if IsQuestionCell(cells[0]).value then [cells[0].source] else []) + TaggedSources(cells[1..]).value
  {
  }

  /** A single cell contributes its source exactly when it is a question cell. */
  lemma TaggedSourcesSingle(c: Cell)
    requires IsQuestionCell(c).Ok?
    ensures TaggedSources([c]) == Ok(if IsQuestionCell(c).value then [c.source] else [])
  {
    assert [c][1..] == [];
    assert [c][0] == c;
    var rest := TaggedSources([]);
    assert rest == Ok([]);
    var h := IsQuestionCell(c);
    var own: seq<string> := if h.value then [c.source] else [];
    assert TaggedSources([c]) == Ok(own + rest.value);
    assert own + rest.value == own;
  }

  /** The source text of a notebook (src/nbquiz/testbank.py:64-72). */
  function QuestionSource(cells: seq<Cell>): Result<string>
  {
    var parts := TaggedSources(cells);
    if parts.Err? then Err(parts.error) else Ok(Join("\n\n", parts.value))
  }

  // ================================================================ registration

  /** The validation outcome of every class the bank may meet. `validate()` is idempotent, so what it
      reports does not depend on how often it has already run. */
  ghost predicate VerdictsHold(verdict: map<PyClass, Result<()>>, env: Env)
    reads verdict.Keys
  {
    forall c {:trigger verdict[c]} :: c in verdict ==> verdict[c] == Question.Verdict(c, env)
  }

  /** Every class of the namespace, on its own or as a group member, has a verdict. */
  predicate Covers(ns: seq<(string, NsValue)>, verdict: map<PyClass, Result<()>>)
  {
    forall i :: 0 <= i < |ns| ==>
      (ns[i].1.NsQuestion? ==> ns[i].1.q in verdict)
      && (ns[i].1.NsGroup? ==> forall c :: c in ns[i].1.g.data ==> c in verdict)
  }

  ghost predicate CoversAll(pf: Platform, verdict: map<PyClass, Result<()>>)
  {
    forall src :: pf.exec(src).Executed? ==> Covers(pf.exec(src).ns, verdict)
  }

  /** The tag map after a registration step, and whether the step raised. */
  datatype Step = Step(questions: map<string, Entity>, outcome: Result<()>)

  /** Registers one question class (src/nbquiz/testbank.py:85-88 and 94-97): the log line computes
      `celltag()` before `validate()` runs, then the class is stored under its tag and its cell id. */
  function AddQuestion(qs: map<string, Entity>, c: PyClass, verdict: map<PyClass, Result<()>>, env: Env): (r: Step)
    requires c in verdict
    ensures r.outcome.Err? ==> r.questions == qs
  {
    match Question.Celltag(c.name, env)
    case Err(e) => Step(qs, Err(e))
    case Ok(tag) =>
      if verdict[c].Err? then Step(qs, verdict[c])
      else Step(qs[tag := EQuestion(c)][Question.Cellid(c.name) := EQuestion(c)], Ok(()))
  }

  /** A registered question is found under both of its tags, and nothing else is added. */
  lemma AddQuestionTags(qs: map<string, Entity>, c: PyClass, verdict: map<PyClass, Result<()>>, env: Env)
    requires c in verdict
    ensures var r := AddQuestion(qs, c, verdict, env);
            r.outcome.Ok? <==> c.name != [] && verdict[c].Ok?
    ensures var r := AddQuestion(qs, c, verdict, env);
            r.outcome.Ok? ==>
              var tag := Question.Celltag(c.name, env).value;
              r.questions[tag] == EQuestion(c) && r.questions[Question.Cellid(c.name)] == EQuestion(c)
              && r.questions.Keys == qs.Keys + {tag, Question.Cellid(c.name)}
              && forall t :: t in qs && t != tag && t != Question.Cellid(c.name) ==> r.questions[t] == qs[t]
  {
  }

  /** Registers the members of a group in order, stopping at the first that raises. */
  function AddMembers(qs: map<string, Entity>, cs: seq<PyClass>, verdict: map<PyClass, Result<()>>, env: Env): (r: Step)
    requires forall c :: c in cs ==> c in verdict
    decreases |cs|
  {
    if cs == [] then Step(qs, Ok(()))
    else
      var s := AddQuestion(qs, cs[0], verdict, env);
      if s.outcome.Err? then s else AddMembers(s.questions, cs[1..], verdict, env)
  }

  /** One member's turn, from position `i` of the members. */
  lemma AddMembersStep(qs: map<string, Entity>, cs: seq<PyClass>, i: nat, verdict: map<PyClass, Result<()>>, env: Env)
    requires i < |cs| && forall c :: c in cs ==> c in verdict
    ensures AddMembers(qs, cs[i..], verdict, env) ==
              var s := AddQuestion(qs, cs[i], verdict, env);
              if s.outcome.Err? then s else AddMembers(s.questions, cs[i + 1..], verdict, env)
  {
    assert cs[i..][0] == cs[i] && cs[i..][1..] == cs[i + 1..];
  }

  /** One namespace entry (src/nbquiz/testbank.py:77-97): a public, non-framework question class, or
      a question group under whatever name it is bound to. */
  function AddEntry(qs: map<string, Entity>, entry: (string, NsValue), verdict: map<PyClass, Result<()>>, env: Env): Step
    requires entry.1.NsQuestion? ==> entry.1.q in verdict
    requires entry.1.NsGroup? ==> forall c :: c in entry.1.g.data ==> c in verdict
  {
    match entry.1
    case NsQuestion(c) =>
      if !StartsWith(entry.0, "_") && !c.framework then AddQuestion(qs, c, verdict, env) else Step(qs, Ok(()))
    case NsGroup(g) => AddMembers(qs["@" + entry.0 := EGroup(g)], g.data, verdict, env)
    case _ => Step(qs, Ok(()))
  }

  /** The whole namespace, entry by entry, stopping at the first that raises. */
  function AddAll(qs: map<string, Entity>, ns: seq<(string, NsValue)>, verdict: map<PyClass, Result<()>>, env: Env): Step
    requires Covers(ns, verdict)
    decreases |ns|
  {
    if ns == [] then Step(qs, Ok(()))
    else
      var s := AddEntry(qs, ns[0], verdict, env);
      if s.outcome.Err? then s else AddAll(s.questions, ns[1..], verdict, env)
  }

  /** Where a registered entity comes from: a question class or a group of the namespace, or a
      member of such a group. */
  predicate FromNamespace(e: Entity, ns: seq<(string, NsValue)>)
  {
    exists i :: 0 <= i < |ns| &&
      match ns[i].1
      case NsQuestion(c) => e == EQuestion(c)
      case NsGroup(g) => e == EGroup(g) || (e.EQuestion? && e.q in g.data)
      case _ => false
  }

  lemma {:induction false} AddMembersOrigin(qs: map<string, Entity>, g: QuestionGroup, cs: seq<PyClass>,
                                            verdict: map<PyClass, Result<()>>, env: Env)
    requires forall c :: c in cs ==> c in verdict
    requires forall c :: c in cs ==> c in g.data
    ensures var r := AddMembers(qs, cs, verdict, env).questions;
            qs.Keys <= r.Keys
            && forall t :: t in r && !(t in qs && r[t] == qs[t]) ==> r[t].EQuestion? && r[t].q in g.data
    decreases |cs|
  {
    if cs != [] {
      var s := AddQuestion(qs, cs[0], verdict, env);
      if s.outcome.Ok? {
        AddMembersOrigin(s.questions, g, cs[1..], verdict, env);
      }
    }
  }

  /** Registration never removes a tag, and every entity it stores or overwrites a tag with comes
      from the namespace. */
  lemma {:induction false} AddAllOrigin(qs: map<string, Entity>, ns: seq<(string, NsValue)>,
                                        verdict: map<PyClass, Result<()>>, env: Env)
    requires Covers(ns, verdict)
    ensures var r := AddAll(qs, ns, verdict, env).questions;
            qs.Keys <= r.Keys
            && forall t :: t in r && !(t in qs && r[t] == qs[t]) ==> FromNamespace(r[t], ns)
    decreases |ns|
  {
    if ns != [] {
      var s := AddEntry(qs, ns[0], verdict, env);
      assert s.questions.Keys >= qs.Keys
             && forall t :: t in s.questions && !(t in qs && s.questions[t] == qs[t]) ==> FromNamespace(s.questions[t], ns)
      by {
        match ns[0].1
        case NsGroup(g) =>
          var q1 := qs["@" + ns[0].0 := EGroup(g)];
          AddMembersOrigin(q1, g, g.data, verdict, env);
        case _ =>
      }
      if s.outcome.Ok? {
        assert Covers(ns[1..], verdict);
        AddAllOrigin(s.questions, ns[1..], verdict, env);
        var r := AddAll(s.questions, ns[1..], verdict, env).questions;
        forall t | t in r && !(t in qs && r[t] == qs[t]) ensures FromNamespace(r[t], ns) {
          if t in s.questions && r[t] == s.questions[t] {
          } else {
            var i :| 0 <= i < |ns[1..]| && match ns[1..][i].1
              case NsQuestion(c) => r[t] == EQuestion(c)
              case NsGroup(g) => r[t] == EGroup(g) || (r[t].EQuestion? && r[t].q in g.data)
              case _ => false;
            assert ns[1..][i] == ns[i + 1];
          }
        }
      }
    }
  }

  /** A registered question class is found under its cell tag and under its cell id. */
  predicate Tagged(c: PyClass, qs: map<string, Entity>, env: Env)
  {
    Question.Celltag(c.name, env).Ok? && Question.Celltag(c.name, env).value in qs && Question.Cellid(c.name) in qs
  }

  /** The tags a namespace entry is found under once registered: a public, non-framework question
      class under both of its tags, a group under `@name` and each of its members under both tags. */
  predicate Registered(entry: (string, NsValue), qs: map<string, Entity>, env: Env)
  {
    match entry.1
    case NsQuestion(c) => !StartsWith(entry.0, "_") && !c.framework ==> Tagged(c, qs, env)
    case NsGroup(g) => "@" + entry.0 in qs && forall c :: c in g.data ==> Tagged(c, qs, env)
    case _ => true
  }

  /** Tags once present stay present. */
  lemma RegisteredGrows(entry: (string, NsValue), qs: map<string, Entity>, qs': map<string, Entity>, env: Env)
    requires qs.Keys <= qs'.Keys && Registered(entry, qs, env)
    ensures Registered(entry, qs', env)
  {
  }

  /** Registering a group's members without error leaves every member found under both of its tags. */
  lemma {:induction false} AddMembersRegisters(qs: map<string, Entity>, cs: seq<PyClass>,
                                               verdict: map<PyClass, Result<()>>, env: Env)
    requires forall c :: c in cs ==> c in verdict
    requires AddMembers(qs, cs, verdict, env).outcome.Ok?
    ensures var r := AddMembers(qs, cs, verdict, env).questions;
            qs.Keys <= r.Keys && forall c :: c in cs ==> Tagged(c, r, env)
    decreases |cs|
  {
    if cs != [] {
      var s := AddQuestion(qs, cs[0], verdict, env);
      AddQuestionTags(qs, cs[0], verdict, env);
      AddMembersRegisters(s.questions, cs[1..], verdict, env);
      var r := AddMembers(qs, cs, verdict, env).questions;
      forall c | c in cs ensures Tagged(c, r, env) {
        if c != cs[0] {
          assert c in cs[1..];
        }
      }
    }
  }

  /** One namespace entry registered without error is found under its tags. */
  lemma AddEntryRegisters(qs: map<string, Entity>, entry: (string, NsValue), verdict: map<PyClass, Result<()>>, env: Env)
    requires entry.1.NsQuestion? ==> entry.1.q in verdict
    requires entry.1.NsGroup? ==> forall c :: c in entry.1.g.data ==> c in verdict
    requires AddEntry(qs, entry, verdict, env).outcome.Ok?
    ensures var r := AddEntry(qs, entry, verdict, env).questions;
            qs.Keys <= r.Keys && Registered(entry, r, env)
  {
    match entry.1
    case NsQuestion(c) =>
      if !StartsWith(entry.0, "_") && !c.framework {
        AddQuestionTags(qs, c, verdict, env);
      }
    case NsGroup(g) =>
      AddMembersRegisters(qs["@" + entry.0 := EGroup(g)], g.data, verdict, env);
    case _ =>
  }

  /** A namespace registered without error has every entry found under its tags
      (src/nbquiz/testbank.py:77-97), and no tag of the bank before it is lost. */
  lemma {:induction false} AddAllRegisters(qs: map<string, Entity>, ns: seq<(string, NsValue)>,
                                           verdict: map<PyClass, Result<()>>, env: Env)
    requires Covers(ns, verdict)
    requires AddAll(qs, ns, verdict, env).outcome.Ok?
    ensures var r := AddAll(qs, ns, verdict, env).questions;
            qs.Keys <= r.Keys && forall i :: 0 <= i < |ns| ==> Registered(ns[i], r, env)
    decreases |ns|
  {
    if ns != [] {
      var s := AddEntry(qs, ns[0], verdict, env);
      AddEntryRegisters(qs, ns[0], verdict, env);
      assert Covers(ns[1..], verdict);
      AddAllRegisters(s.questions, ns[1..], verdict, env);
      var r := AddAll(qs, ns, verdict, env).questions;
      RegisteredGrows(ns[0], s.questions, r, env);
      forall i | 1 <= i < |ns| ensures Registered(ns[i], r, env) {
        assert ns[1..][i - 1] == ns[i];
      }
    }
  }

  // ================================================================ one notebook

  /** The bank's state after `_load(file)` (src/nbquiz/testbank.py:62-97): the tag map, the
      accumulated source, and whether loading raised. */
  datatype Loaded = Loaded(questions: map<string, Entity>, sources: string, outcome: Result<()>)

  function LoadOne(qs: map<string, Entity>, sources: string, file: string, pf: Platform,
                   verdict: map<PyClass, Result<()>>, env: Env): (r: Loaded)
    requires CoversAll(pf, verdict)
    ensures r.sources == sources || (file in pf.documents && QuestionSource(pf.documents[file]).Ok?
                                     && r.sources == sources + "\n\n" + QuestionSource(pf.documents[file]).value)
  {
    if file !in pf.documents then Loaded(qs, sources, Err(Raised("unreadable notebook")))
    else match QuestionSource(pf.documents[file])
      case Err(e) => Loaded(qs, sources, Err(e))
      case Ok(src) =>
        match pf.exec(src)
        case ExecFailed(reason) => Loaded(qs, sources, Err(Raised(reason)))
        case Executed(ns) =>
          var s := AddAll(qs, ns, verdict, env);
          Loaded(s.questions, sources + "\n\n" + src, s.outcome)
  }

  /** Loading the same notebook twice appends its source twice. */
  lemma ReloadRepeatsSource(qs: map<string, Entity>, sources: string, file: string, pf: Platform,
                            verdict: map<PyClass, Result<()>>, env: Env)
    requires CoversAll(pf, verdict)
    requires file in pf.documents && QuestionSource(pf.documents[file]).Ok?
    requires pf.exec(QuestionSource(pf.documents[file]).value).Executed?
    ensures var src := QuestionSource(pf.documents[file]).value;
            var l1 := LoadOne(qs, sources, file, pf, verdict, env);
            LoadOne(l1.questions, l1.sources, file, pf, verdict, env).sources
            == sources + "\n\n" + src + "\n\n" + src
  {
  }

  // ================================================================ all notebooks

  /** The notebooks `load()` visits: those of each search path, path by path. */
  function Globbed(paths: seq<string>, pf: Platform): seq<string>
    decreases |paths|
  {
    if paths == [] then [] else Globbed(paths[..|paths| - 1], pf) + pf.glob(paths[|paths| - 1])
  }

  /** Loading notebooks in order, stopping at the first that raises. */
  function LoadAll(qs: map<string, Entity>, sources: string, files: seq<string>, pf: Platform,
                   verdict: map<PyClass, Result<()>>, env: Env): Loaded
    requires CoversAll(pf, verdict)
    decreases |files|
  {
    if files == [] then Loaded(qs, sources, Ok(()))
    else
      var prev := LoadAll(qs, sources, files[..|files| - 1], pf, verdict, env);
      if prev.outcome.Err? then prev
      else LoadOne(prev.questions, prev.sources, files[|files| - 1], pf, verdict, env)
  }

  // ================================================================ the bank

  /** `_TestBank` (src/nbquiz/testbank.py:16-105). */
  class Bank {
    var questions: map<string, Entity>
    var sources: string
    var paths: seq<string>

    constructor ()
      ensures questions == map[] && sources == "" && paths == []
    {
      questions := map[];
      sources := "";
      paths := [];
    }

    /** `add_path` (src/nbquiz/testbank.py:24-29): a path that does not exist is refused and leaves
        the search paths as they were; otherwise its absolute form is appended. */
    method AddPath(path: string, pf: Platform) returns (r: Result<()>)
      modifies this
      ensures questions == old(questions) && sources == old(sources)
      ensures var p := pf.absolute(path);
              if pf.pathExists(p) then r == Ok(()) && paths == old(paths) + [p]
              else r == Err(ValueError("Path \"" + p + " does not exist.")) && paths == old(paths)
    {
      var p := pf.absolute(path);
      if !pf.pathExists(p) {
        return Err(ValueError("Path \"" + p + " does not exist."));
      }
      paths := paths + [p];
      r := Ok(());
    }

    /** `stats()["questions"]` (src/nbquiz/testbank.py:39-42): the number of distinct entities, which
        is at most the number of tags. */
    function Stats(): (r: nat)
      reads this
      ensures r <= |questions.Keys|
      ensures r == 0 <==> questions == map[]
    {
      ValuesAtMostKeys(questions);
      NonEmptyValues(questions);
      |questions.Values|
    }

    /** `match(tags)` (src/nbquiz/testbank.py:48-53): the entities of the registered tags, in the order
        given; raises when none is registered. */
    function Match(tags: seq<string>): (r: Result<seq<Entity>>)
      reads this
      ensures r.Ok? <==> exists i :: 0 <= i < |tags| && tags[i] in questions
      ensures r.Ok? ==> r.value == Lookups(questions, tags)
      ensures r.Err? ==> r.error == ValueError(NoTagText)
    {
      var found := Lookups(questions, tags);
      if found == [] then Err(ValueError(NoTagText)) else Ok(found)
    }

    /** `find(tag)` (src/nbquiz/testbank.py:55-60): the entity of a registered tag. The error is the
        one `match` raises, since `match` never returns an empty list. */
    function Find(tag: string): (r: Result<Entity>)
      reads this
      ensures r.Ok? <==> tag in questions
      ensures r.Ok? ==> r.value == questions[tag]
      ensures r.Err? ==> r.error == ValueError(NoTagText)
    {
      assert [tag][0] == tag;
      var found := Match([tag]);
      if found.Err? then Err(found.error) else Ok(found.value[0])
    }

    /** The registration loop of `_load` over one question class. */
    method RegisterQuestion(c: PyClass, env: Env, ghost verdict: map<PyClass, Result<()>>) returns (r: Result<()>)
      requires c in verdict && VerdictsHold(verdict, env)
      modifies this, c
      ensures Step(questions, r) == AddQuestion(old(questions), c, verdict, env)
      ensures sources == old(sources) && paths == old(paths)
      ensures VerdictsHold(verdict, env)
    {
      var tag := Question.Celltag(c.name, env);
      if tag.Err? {
        return Err(tag.error);
      }
      r := ValidateKnown(c, env, verdict);
      if r.Err? {
        return;
      }
      OkUnit(r);
      questions := questions[tag.value := EQuestion(c)][Question.Cellid(c.name) := EQuestion(c)];
    }

    /** `validate()` of a class whose verdict is known: it reports that verdict and keeps every verdict. */
    static method ValidateKnown(c: PyClass, env: Env, ghost verdict: map<PyClass, Result<()>>) returns (r: Result<()>)
      requires c in verdict && VerdictsHold(verdict, env)
      modifies c
      ensures r == verdict[c]
      ensures VerdictsHold(verdict, env)
    {
      Question.ValidateIdempotent(c.kind, c.inherited, c.own, env);
      r := Question.Validate(c, env);
    }

    method RegisterEntry(entry: (string, NsValue), env: Env, ghost verdict: map<PyClass, Result<()>>)
      returns (r: Result<()>)
      requires entry.1.NsQuestion? ==> entry.1.q in verdict
      requires entry.1.NsGroup? ==> forall c :: c in entry.1.g.data ==> c in verdict
      requires VerdictsHold(verdict, env)
      modifies this, verdict.Keys
      ensures Step(questions, r) == AddEntry(old(questions), entry, verdict, env)
      ensures sources == old(sources) && paths == old(paths)
      ensures VerdictsHold(verdict, env)
    {
      match entry.1 {
        case NsQuestion(c) =>
          if !StartsWith(entry.0, "_") && !c.framework {
            r := RegisterQuestion(c, env, verdict);
          } else {
            r := Ok(());
          }
        case NsGroup(g) =>
          questions := questions["@" + entry.0 := EGroup(g)];
          r := RegisterMembers(g.data, env, verdict);
        case _ =>
          r := Ok(());
      }
    }

    /** The loop of `_load` over a group's members, each registered as a question. */
    method RegisterMembers(cs: seq<PyClass>, env: Env, ghost verdict: map<PyClass, Result<()>>) returns (r: Result<()>)
      requires forall c :: c in cs ==> c in verdict
      requires VerdictsHold(verdict, env)
      modifies this, verdict.Keys
      ensures Step(questions, r) == AddMembers(old(questions), cs, verdict, env)
      ensures sources == old(sources) && paths == old(paths)
      ensures VerdictsHold(verdict, env)
      ensures r.Ok? ==> old(questions).Keys <= questions.Keys && forall c :: c in cs ==> Tagged(c, questions, env)
    {
      var i := 0;
      while i < |cs|
        invariant 0 <= i <= |cs|
        invariant VerdictsHold(verdict, env)
        invariant sources == old(sources) && paths == old(paths)
        invariant AddMembers(old(questions), cs, verdict, env) == AddMembers(questions, cs[i..], verdict, env)
      {
        AddMembersStep(questions, cs, i, verdict, env);
        r := RegisterQuestion(cs[i], env, verdict);
        if r.Err? {
          return;
        }
        i := i + 1;
      }
      r := Ok(());
      AddMembersRegisters(old(questions), cs, verdict, env);
    }

    /** The registration loop of `_load` over the executed namespace. */
    method RegisterAll(ns: seq<(string, NsValue)>, env: Env, ghost verdict: map<PyClass, Result<()>>)
      returns (r: Result<()>)
      requires Covers(ns, verdict) && VerdictsHold(verdict, env)
      modifies this, verdict.Keys
      ensures Step(questions, r) == AddAll(old(questions), ns, verdict, env)
      ensures sources == old(sources) && paths == old(paths)
      ensures VerdictsHold(verdict, env)
      ensures r.Ok? ==> old(questions).Keys <= questions.Keys && forall i :: 0 <= i < |ns| ==> Registered(ns[i], questions, env)
    {
      var i := 0;
      while i < |ns|
        invariant 0 <= i <= |ns|
        invariant VerdictsHold(verdict, env)
        invariant paths == old(paths) && sources == old(sources)
        invariant AddAll(old(questions), ns, verdict, env) == AddAll(questions, ns[i..], verdict, env)
      {
        assert ns[i..][1..] == ns[i + 1..];
        assert ns[i..][0] == ns[i];
        assert Covers(ns[i..], verdict) by {
          forall k | 0 <= k < |ns[i..]| ensures ns[i..][k] == ns[i + k] {
          }
        }
        r := RegisterEntry(ns[i], env, verdict);
        if r.Err? {
          return;
        }
        i := i + 1;
      }
      r := Ok(());
      AddAllRegisters(old(questions), ns, verdict, env);
    }

    /** `_load(file)`: reads the notebook, executes its question source, appends that source to the
        bank's source, then registers the namespace entry by entry. */
    method LoadFile(file: string, pf: Platform, env: Env, ghost verdict: map<PyClass, Result<()>>)
      returns (r: Result<()>)
      requires CoversAll(pf, verdict) && VerdictsHold(verdict, env)
      modifies this, verdict.Keys
      ensures Loaded(questions, sources, r) == LoadOne(old(questions), old(sources), file, pf, verdict, env)
      ensures paths == old(paths)
      ensures VerdictsHold(verdict, env)
    {
      if file !in pf.documents {
        return Err(Raised("unreadable notebook"));
      }
      var src := QuestionSource(pf.documents[file]);
      if src.Err? {
        return Err(src.error);
      }
      var ex := pf.exec(src.value);
      if ex.ExecFailed? {
        return Err(Raised(ex.reason));
      }
      sources := sources + "\n\n" + src.value;
      r := RegisterAll(ex.ns, env, verdict);
    }

    /** The inner loop of `load()`: the notebooks of one search path, in order. */
    method LoadFiles(files: seq<string>, pf: Platform, env: Env, ghost verdict: map<PyClass, Result<()>>)
      returns (r: Result<()>)
      requires CoversAll(pf, verdict) && VerdictsHold(verdict, env)
      modifies this, verdict.Keys
      ensures Loaded(questions, sources, r) == LoadAll(old(questions), old(sources), files, pf, verdict, env)
      ensures paths == old(paths)
      ensures VerdictsHold(verdict, env)
    {
      ghost var q0, s0 := questions, sources;
      var j := 0;
      while j < |files|
        invariant 0 <= j <= |files|
        invariant paths == old(paths) && VerdictsHold(verdict, env)
        invariant Loaded(questions, sources, Ok(())) == LoadAll(q0, s0, files[..j], pf, verdict, env)
      {
        LoadAllStep(q0, s0, files, j, pf, verdict, env);
        r := LoadFile(files[j], pf, env, verdict);
        if r.Err? {
          LoadAllStops(q0, s0, files, j, pf, verdict, env);
          return;
        }
        OkUnit(r);
        j := j + 1;
      }
      assert files[..j] == files;
      r := Ok(());
    }

    /** `load()` (src/nbquiz/testbank.py:31-37): every notebook of every search path, in order. */
    method Load(pf: Platform, env: Env, ghost verdict: map<PyClass, Result<()>>) returns (r: Result<()>)
      requires CoversAll(pf, verdict) && VerdictsHold(verdict, env)
      modifies this, verdict.Keys
      ensures Loaded(questions, sources, r)
              == LoadAll(old(questions), old(sources), Globbed(old(paths), pf), pf, verdict, env)
      ensures paths == old(paths)
    {
      ghost var q0, s0 := questions, sources;
      var i := 0;
      while i < |paths|
        invariant 0 <= i <= |paths|
        invariant paths == old(paths) && VerdictsHold(verdict, env)
        invariant Loaded(questions, sources, Ok(())) == LoadAll(q0, s0, Globbed(paths[..i], pf), pf, verdict, env)
      {
        ghost var done := Globbed(paths[..i], pf);
        var files := pf.glob(paths[i]);
        assert Globbed(paths[..i + 1], pf) == done + files by {
          assert paths[..i + 1][..i] == paths[..i];
        }
        LoadAllConcat(q0, s0, done, files, pf, verdict, env);
        r := LoadFiles(files, pf, env, verdict);
        if r.Err? {
          GlobbedConcat(paths[..i + 1], paths[i + 1..], pf);
          assert paths[..i + 1] + paths[i + 1..] == paths;
          LoadAllConcat(q0, s0, done + files, Globbed(paths[i + 1..], pf), pf, verdict, env);
          return;
        }
        OkUnit(r);
        i := i + 1;
      }
      assert paths[..i] == paths;
      r := Ok(());
    }
  }

  /** The notebooks of two runs of search paths are those of the first followed by those of the
      second. */
  lemma {:induction false} GlobbedConcat(a: seq<string>, b: seq<string>, pf: Platform)
    ensures Globbed(a + b, pf) == Globbed(a, pf) + Globbed(b, pf)
    decreases |b|
  {
    if b == [] {
      assert a + b == a;
    } else {
      var n := |b| - 1;
      assert (a + b)[..|a + b| - 1] == a + b[..n];
      assert (a + b)[|a + b| - 1] == b[n];
      GlobbedConcat(a, b[..n], pf);
    }
  }

  /** Loading one more notebook after a prefix that loaded cleanly. */
  lemma LoadAllStep(qs: map<string, Entity>, sources: string, files: seq<string>, j: nat,
                    pf: Platform, verdict: map<PyClass, Result<()>>, env: Env)
    requires CoversAll(pf, verdict) && j < |files|
    requires LoadAll(qs, sources, files[..j], pf, verdict, env).outcome.Ok?
    ensures var prev := LoadAll(qs, sources, files[..j], pf, verdict, env);
            LoadAll(qs, sources, files[..j + 1], pf, verdict, env) == LoadOne(prev.questions, prev.sources, files[j], pf, verdict, env)
  {
    assert files[..j + 1][..j] == files[..j];
  }

  /** Once a prefix raises, the notebooks after it are not loaded. */
  lemma LoadAllStops(qs: map<string, Entity>, sources: string, files: seq<string>, j: nat,
                     pf: Platform, verdict: map<PyClass, Result<()>>, env: Env)
    requires CoversAll(pf, verdict) && j < |files|
    requires LoadAll(qs, sources, files[..j + 1], pf, verdict, env).outcome.Err?
    ensures LoadAll(qs, sources, files, pf, verdict, env) == LoadAll(qs, sources, files[..j + 1], pf, verdict, env)
  {
    LoadAllConcat(qs, sources, files[..j + 1], files[j + 1..], pf, verdict, env);
    assert files[..j + 1] + files[j + 1..] == files;
  }

  /** Loading two runs of notebooks is loading the first, then, unless it raised, the second from
      the state it left. */
  lemma {:induction false} LoadAllConcat(qs: map<string, Entity>, sources: string, a: seq<string>, b: seq<string>,
                                         pf: Platform, verdict: map<PyClass, Result<()>>, env: Env)
    requires CoversAll(pf, verdict)
    ensures var prev := LoadAll(qs, sources, a, pf, verdict, env);
            LoadAll(qs, sources, a + b, pf, verdict, env)
            == if prev.outcome.Err? then prev else LoadAll(prev.questions, prev.sources, b, pf, verdict, env)
    decreases |b|
  {
    var prev := LoadAll(qs, sources, a, pf, verdict, env);
    if b == [] {
      assert a + b == a;
      if prev.outcome.Ok? {
        OkUnit(prev.outcome);
      }
    } else {
      var n := |b| - 1;
      assert (a + b)[..|a + b| - 1] == a + b[..n];
      assert (a + b)[|a + b| - 1] == b[n];
      LoadAllConcat(qs, sources, a, b[..n], pf, verdict, env);
    }
  }

  const NoTagText := "No question tag found. Did you add the tag from the question?"

  /** The entities of the registered tags among `tags`, in order. */
  function Lookups(qs: map<string, Entity>, tags: seq<string>): (r: seq<Entity>)
    ensures |r| <= |tags|
    ensures r == [] <==> forall i :: 0 <= i < |tags| ==> tags[i] !in qs
    ensures forall e :: e in r ==> exists i :: 0 <= i < |tags| && tags[i] in qs && qs[tags[i]] == e
    decreases |tags|
  {
    if tags == [] then []
    else
      var rest := Lookups(qs, tags[1..]);
      assert forall i :: 1 <= i < |tags| ==> tags[1..][i - 1] == tags[i];
      (if tags[0] in qs then [qs[tags[0]]] else []) + rest
  }

  /** Lookups of two runs of tags are the lookups of the first followed by those of the second. */
  lemma {:induction false} LookupsConcat(qs: map<string, Entity>, a: seq<string>, b: seq<string>)
    ensures Lookups(qs, a + b) == Lookups(qs, a) + Lookups(qs, b)
    decreases |a|
  {
    if a == [] {
      assert a + b == b;
    } else {
      assert (a + b)[1..] == a[1..] + b;
      LookupsConcat(qs, a[1..], b);
    }
  }

  /** A map has at most as many distinct values as keys. */
  lemma {:induction false} ValuesAtMostKeys<K, V>(m: map<K, V>)
    ensures |m.Values| <= |m.Keys|
    decreases |m.Keys|
  {
    if m != map[] {
      var k :| k in m;
      var m' := map k' | k' in m && k' != k :: m[k'];
      assert m'.Keys == m.Keys - {k};
      ValuesAtMostKeys(m');
      assert m.Values <= m'.Values + {m[k]} by {
        forall v | v in m.Values ensures v in m'.Values + {m[k]} {
          var k' :| k' in m && m[k'] == v;
          if k' != k {
            assert m'[k'] == v;
          }
        }
      }
      assert |m'.Values + {m[k]}| <= |m'.Values| + 1;
      SubsetCard(m.Values, m'.Values + {m[k]});
    }
  }

  lemma NonEmptyValues<K, V>(m: map<K, V>)
    ensures m != map[] ==> |m.Values| > 0
  {
    if m != map[] {
      var k :| k in m;
      assert m[k] in m.Values;
    }
  }

  lemma SubsetCard<T>(a: set<T>, b: set<T>)
    requires a <= b
    ensures |a| <= |b|
  {
    assert b == a + (b - a);
  }

  /** Registering one question into an empty bank gives one entity, whatever the number of tags. */
  lemma OneQuestionOneEntity(c: PyClass, verdict: map<PyClass, Result<()>>, env: Env)
    requires c in verdict && AddQuestion(map[], c, verdict, env).outcome.Ok?
    ensures var r := AddQuestion(map[], c, verdict, env).questions;
            r.Values == {EQuestion(c)} && 1 <= |r.Keys| <= 2
  {
    var tag := Question.Celltag(c.name, env).value;
    var r := AddQuestion(map[], c, verdict, env).questions;
    assert r == map[tag := EQuestion(c)][Question.Cellid(c.name) := EQuestion(c)];
    assert r.Keys == {tag, Question.Cellid(c.name)};
    assert forall v :: v in r.Values ==> v == EQuestion(c);
    assert r[tag] in r.Values;
  }
}
