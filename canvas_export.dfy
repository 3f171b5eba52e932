/**
 * Model of src/nbquiz/canvas/export.py: a Canvas quiz export is a manifest of resources and an
 * assessment whose questions are essay items and sections of essay items, built from a YAML
 * description whose entries name questions of the test bank.
 */
module CanvasExport {
  import opened Strings
  import opened PyModel
  import Question
  import TestBank

  // ================================================================ the chunks of a package

  /** `EssayItem` and `FileItem`. */
  datatype Item = EssayItem(id: string, title: string, html: string) | FileItem(id: string, title: string, html: string)

  datatype Section = Section(id: string, title: string, items: seq<Item>)

  /** An element of an assessment's question list. */
  datatype QuizEntry = QItem(item: Item) | QSection(section: Section)

  datatype AssessmentMeta = AssessmentMeta(id: string, assessmentId: string, title: string, description: string)

  /** `AssessmentResource` and `FileResource`, the entries of the manifest. */
  datatype Resource = AssessmentResource(id: string, assessmentId: string) | FileResource(id: string, filename: string)

  /** What `write` puts into the archive: a copy of a file, or a text. */
  datatype ZipEntry = Copied(arcname: string, path: string) | Written(arcname: string, text: string)

  /** The Jinja templates of the package resources and XML escaping. */
  datatype Templates = Templates(
    essay: (string, string, string) -> string,
    upload: (string, string, string) -> string,
    section: (string, string, string) -> string,
    assessment: (string, string, string) -> string,
    meta: (string, string, string, string) -> string,
    assessmentResource: (string, string) -> string,
    fileResource: (string, string) -> string,
    manifest: (string, string) -> string,
    escape: string -> string)

  /** What the export needs from outside: `md_to_canvas_html`, `Path.name` and the templates. */
  datatype Outside = Outside(toHtml: string -> string, baseName: string -> string, templates: Templates)

  // ================================================================ rendering

  function RenderItem(t: Templates, i: Item): string
  {
    match i
    case EssayItem(id, title, html) => t.essay(id, t.escape(title), t.escape(html))
    case FileItem(id, title, html) => t.upload(id, t.escape(title), t.escape(html))
  }

  function ItemRenders(t: Templates, items: seq<Item>): (r: seq<string>)
    ensures |r| == |items| && forall k :: 0 <= k < |items| ==> r[k] == RenderItem(t, items[k])
  {
    seq(|items|, k requires 0 <= k < |items| => RenderItem(t, items[k]))
  }

  /** `Section.render` (src/nbquiz/canvas/export.py:82-85): the items' renders, joined by newlines. */
  function RenderSection(t: Templates, s: Section): string
  {
    t.section(s.id, t.escape(s.title), Join("\n", ItemRenders(t, s.items)))
  }

  function RenderEntry(t: Templates, e: QuizEntry): string
  {
    match e
    case QItem(i) => RenderItem(t, i)
    case QSection(s) => RenderSection(t, s)
  }

  function EntryRenders(t: Templates, es: seq<QuizEntry>): (r: seq<string>)
    ensures |r| == |es| && forall k :: 0 <= k < |es| ==> r[k] == RenderEntry(t, es[k])
  {
    seq(|es|, k requires 0 <= k < |es| => RenderEntry(t, es[k]))
  }

  /** `Assessment.render` (src/nbquiz/canvas/export.py:98-103). */
  function RenderAssessment(t: Templates, id: string, title: string, questions: seq<QuizEntry>): string
  {
    t.assessment(id, t.escape(title), Join("\n", EntryRenders(t, questions)))
  }

  function RenderMeta(t: Templates, m: AssessmentMeta): string
  {
    t.meta(m.id, m.assessmentId, t.escape(m.title), t.escape(m.description))
  }

  function RenderResource(t: Templates, r: Resource): string
  {
    match r
    case AssessmentResource(id, aid) => t.assessmentResource(id, aid)
    case FileResource(id, filename) => t.fileResource(id, t.escape(filename))
  }

  function ResourceRenders(t: Templates, rs: seq<Resource>): (r: seq<string>)
    ensures |r| == |rs| && forall k :: 0 <= k < |rs| ==> r[k] == RenderResource(t, rs[k])
  {
    seq(|rs|, k requires 0 <= k < |rs| => RenderResource(t, rs[k]))
  }

  /** `Manifest.render` (src/nbquiz/canvas/export.py:161-164). */
  function RenderManifest(t: Templates, id: string, resources: seq<Resource>): string
  {
    t.manifest(id, Join("\n", ResourceRenders(t, resources)))
  }

  /** What a container hands its template for its children, for any way `render` of rendering a
      child: appending a child adds a newline and its render at the end, so the children appear in
      list order. */
  lemma RendersAppend<T>(render: T -> string, xs: seq<T>, x: T, rs: seq<string>, rs': seq<string>)
    requires |rs| == |xs| && forall k :: 0 <= k < |xs| ==> rs[k] == render(xs[k])
    requires |rs'| == |xs| + 1 && forall k :: 0 <= k < |xs| + 1 ==> rs'[k] == render((xs + [x])[k])
    ensures Join("\n", rs') == if xs == [] then render(x) else Join("\n", rs) + "\n" + render(x)
  {
    assert rs' == rs + [render(x)] by {
      forall k | 0 <= k < |xs|
        ensures rs'[k] == rs[k]
      {
        assert (xs + [x])[k] == xs[k];
      }
      assert (xs + [x])[|xs|] == x;
    }
    if xs != [] {
      JoinAppend("\n", rs, render(x));
    }
  }

  /** Adding an entry to the quiz adds its render after those of the entries before it, in the
      question list the assessment's template receives. */
  lemma AssessmentAppend(t: Templates, id: string, title: string, qs: seq<QuizEntry>, e: QuizEntry)
    ensures RenderAssessment(t, id, title, qs + [e])
         == t.assessment(id, t.escape(title),
                         if qs == [] then RenderEntry(t, e) else Join("\n", EntryRenders(t, qs)) + "\n" + RenderEntry(t, e))
  {
    RendersAppend((q: QuizEntry) => RenderEntry(t, q), qs, e, EntryRenders(t, qs), EntryRenders(t, qs + [e]));
  }

  // ================================================================ the export object

  /** `_Chunk._id`: every chunk draws a fresh identifier; `ids(n)` is the `n`-th one drawn. */
  class IdSource {
    const ids: nat -> string
    var issued: nat

    constructor (ids: nat -> string)
      ensures this.ids == ids && issued == 0
    {
      this.ids := ids;
      issued := 0;
    }

    method Next() returns (id: string)
      modifies this
      ensures id == ids(old(issued)) && issued == old(issued) + 1
    {
      id := ids(issued);
      issued := issued + 1;
    }
  }

  /** The text `question()` returns for a class of this kind, inherited attributes, class
      dictionary and name: `question()` validates the class first, then renders it. */
  function TextFor(kind: Kind, inherited: map<string, Value>, own: map<string, Value>, name: string, env: Env): Result<string>
  {
    Question.QuestionTextSpec(kind, inherited + Question.ValidatedOwn(kind, own), name, env)
  }

  function TextOf(c: PyClass, env: Env): Result<string>
    reads c
  {
    TextFor(c.kind, c.inherited, c.own, c.name, env)
  }

  /** Asking a validated class again gives the same text. */
  lemma TextForValidated(kind: Kind, inherited: map<string, Value>, own: map<string, Value>, name: string, env: Env)
    ensures TextFor(kind, inherited, Question.ValidatedOwn(kind, own), name, env) == TextFor(kind, inherited, own, name, env)
  {
    Question.ValidateIdempotent(kind, inherited, own, env);
  }

  /** `question.question()`. */
  method AskQuestion(c: PyClass, env: Env) returns (r: Result<string>)
    modifies c
    ensures c.own == Question.ValidatedOwn(c.kind, old(c.own))
    ensures r == old(TextOf(c, env))
  {
    r := Question.QuestionText(c, env);
  }

  /** `question()` of a class that may already have been validated since its dictionary was `own`. */
  method AskAgain(c: PyClass, ghost own: map<string, Value>, env: Env) returns (r: Result<string>)
    requires c.own == own || c.own == Question.ValidatedOwn(c.kind, own)
    modifies c
    ensures c.own == Question.ValidatedOwn(c.kind, own)
    ensures r == TextFor(c.kind, c.inherited, own, c.name, env)
  {
    TextForValidated(c.kind, c.inherited, own, c.name, env);
    Question.ValidateIdempotent(c.kind, c.inherited, own, env);
    r := AskQuestion(c, env);
  }

  /** What `question()` gives for each member, in order. */
  function Texts(qs: seq<PyClass>, env: Env): (r: seq<Result<string>>)
    reads set q | q in qs
    ensures |r| == |qs|
    decreases |qs|
  {
    if qs == [] then [] else [TextOf(qs[0], env)] + Texts(qs[1..], env)
  }

  /** All the texts, or the first error among them. */
  function Collected(rs: seq<Result<string>>): (r: Result<seq<string>>)
    ensures r.Ok? ==> |r.value| == |rs| && forall k :: 0 <= k < |rs| ==> rs[k] == Ok(r.value[k])
    ensures r.Err? ==> exists k :: 0 <= k < |rs| && rs[k] == Err(r.error) && forall j :: 0 <= j < k ==> rs[j].Ok?
    decreases |rs|
  {
    if rs == [] then Ok([])
    else
      assert forall k :: 1 <= k < |rs| ==> rs[1..][k - 1] == rs[k];
      match rs[0]
      case Err(e) => Err(e)
      case Ok(text) =>
        match Collected(rs[1..])
        case Err(e) => Err(e)
        case Ok(rest) => Ok([text] + rest)
  }

  lemma {:induction false} CollectedFirstError(rs: seq<Result<string>>, i: nat)
    requires i < |rs| && rs[i].Err? && forall k :: 0 <= k < i ==> rs[k].Ok?
    ensures Collected(rs) == Err(rs[i].error)
    decreases i
  {
    if i > 0 {
      assert forall k :: 0 <= k < i - 1 ==> rs[1..][k] == rs[k + 1];
      CollectedFirstError(rs[1..], i - 1);
    }
  }

  lemma {:induction false} CollectedAllOk(rs: seq<Result<string>>)
    requires forall k :: 0 <= k < |rs| ==> rs[k].Ok?
    ensures Collected(rs).Ok?
    decreases |rs|
  {
    if rs != [] {
      assert forall k :: 0 <= k < |rs| - 1 ==> rs[1..][k] == rs[k + 1];
      CollectedAllOk(rs[1..]);
    }
  }

  /** The members' texts, in order, up to the first that raises. */
  function GroupTexts(qs: seq<PyClass>, env: Env): (r: Result<seq<string>>)
    reads set q | q in qs
  {
    Collected(Texts(qs, env))
  }

  /** `question()` of each member in turn, stopping at the first that raises. */
  method AskAll(qs: seq<PyClass>, env: Env) returns (r: Result<seq<string>>)
    modifies set q | q in qs
    ensures forall q :: q in qs ==> q.own == old(q.own) || q.own == Question.ValidatedOwn(q.kind, old(q.own))
    ensures r == old(GroupTexts(qs, env))
  {
    ghost var owns := Question.Owns(qs);
    ghost var ts := Texts(qs, env);
    TextsAt(qs, env);
    var texts: seq<string> := [];
    var i := 0;
    while i < |qs|
      invariant 0 <= i <= |qs|
      invariant OwnsOrValidated(qs, owns)
      invariant |texts| == i && forall k :: 0 <= k < i ==> ts[k] == Ok(texts[k])
    {
      var text := AskMember(qs, i, owns, env);
      assert text == ts[i];
      if text.Err? {
        CollectedFirstError(ts, i);
        return Err(text.error);
      }
      AppendText(ts, texts, text.value);
      texts := texts + [text.value];
      i := i + 1;
    }
    CollectedAllOk(ts);
    assert Collected(ts).value == texts;
    r := Ok(texts);
  }

  /** Every member holds either its dictionary `owns` or that dictionary validated: a member may be
      a class already asked as an earlier member. */
  ghost predicate OwnsOrValidated(qs: seq<PyClass>, owns: seq<map<string, Value>>)
    reads set q | q in qs
  {
    |owns| == |qs| && forall j :: 0 <= j < |qs| ==> qs[j].own == owns[j] || qs[j].own == Question.ValidatedOwn(qs[j].kind, owns[j])
  }

  /** One pass of the loop: `question()` of member `i`. */
  method AskMember(qs: seq<PyClass>, i: nat, ghost owns: seq<map<string, Value>>, env: Env) returns (r: Result<string>)
    requires i < |qs| && OwnsOrValidated(qs, owns)
    modifies qs[i]
    ensures OwnsOrValidated(qs, owns)
    ensures r == TextFor(qs[i].kind, qs[i].inherited, owns[i], qs[i].name, env)
  {
    var q := qs[i];
    r := AskAgain(q, owns[i], env);
    forall j | 0 <= j < |qs|
      ensures qs[j].own == owns[j] || qs[j].own == Question.ValidatedOwn(qs[j].kind, owns[j])
    {
      if qs[j] != q {
        assert qs[j].own == old(qs[j].own);
      }
    }
  }

  /** One more text collected. */
  lemma AppendText(ts: seq<Result<string>>, texts: seq<string>, t: string)
    requires |texts| < |ts| && ts[|texts|] == Ok(t)
    requires forall k :: 0 <= k < |texts| ==> ts[k] == Ok(texts[k])
    ensures forall k :: 0 <= k < |texts| + 1 ==> ts[k] == Ok((texts + [t])[k])
  {
  }

  /** Text `k` is member `k`'s. */
  lemma {:induction false} TextsAt(qs: seq<PyClass>, env: Env)
    ensures forall k :: 0 <= k < |qs| ==> Texts(qs, env)[k] == TextOf(qs[k], env)
    decreases |qs|
  {
    if qs != [] {
      TextsAt(qs[1..], env);
      assert forall k :: 1 <= k < |qs| ==> qs[1..][k - 1] == qs[k];
    }
  }

  /** The essay items of a group's members, drawing identifiers from `from` on. */
  function EssayItems(ids: nat -> string, from: nat, qs: seq<PyClass>, texts: seq<string>, toHtml: string -> string)
      : (r: seq<Item>)
    requires |texts| == |qs|
    ensures |r| == |qs|
    decreases |qs|
  {
    if qs == [] then []
    else
      var n := |qs| - 1;
      EssayItems(ids, from, qs[..n], texts[..n], toHtml) + [EssayItem(ids(from + n), qs[n].name, toHtml(texts[n]))]
  }

  /** Item `k` of a group is member `k`'s, with the `k`-th identifier drawn. */
  lemma {:induction false} EssayItemsAt(ids: nat -> string, from: nat, qs: seq<PyClass>, texts: seq<string>, toHtml: string -> string, k: nat)
    requires |texts| == |qs| && k < |qs|
    ensures EssayItems(ids, from, qs, texts, toHtml)[k] == EssayItem(ids(from + k), qs[k].name, toHtml(texts[k]))
    decreases |qs|
  {
    var n := |qs| - 1;
    if k < n {
      EssayItemsAt(ids, from, qs[..n], texts[..n], toHtml, k);
    }
  }

  /** The section `add_group` appends: titled "Group", holding the members' items, with the identifier
      drawn after theirs. */
  function GroupSection(ids: nat -> string, from: nat, qs: seq<PyClass>, texts: seq<string>, toHtml: string -> string): Section
    requires |texts| == |qs|
  {
    Section(ids(from + |qs|), "Group", EssayItems(ids, from, qs, texts, toHtml))
  }

  /** One more member adds one more item, with the next identifier. */
  lemma EssayItemsStep(ids: nat -> string, from: nat, qs: seq<PyClass>, texts: seq<string>, toHtml: string -> string, i: nat)
    requires |texts| == |qs| && i < |qs|
    ensures EssayItems(ids, from, qs[..i + 1], texts[..i + 1], toHtml)
         == EssayItems(ids, from, qs[..i], texts[..i], toHtml) + [EssayItem(ids(from + i), qs[i].name, toHtml(texts[i]))]
  {
    assert qs[..i + 1][..i] == qs[..i];
    assert texts[..i + 1][..i] == texts[..i];
  }

  /** Essay items titled with the classes' names, one per class, in order. */
  predicate TitledBy(items: seq<Item>, qs: seq<PyClass>)
  {
    |items| == |qs| && forall k :: 0 <= k < |items| ==> items[k].EssayItem? && items[k].title == qs[k].name
  }

  /** A group's items are essay items titled with the members' names, in member order. */
  lemma EssayItemsTitles(ids: nat -> string, from: nat, qs: seq<PyClass>, texts: seq<string>, toHtml: string -> string)
    requires |texts| == |qs|
    ensures TitledBy(EssayItems(ids, from, qs, texts, toHtml), qs)
  {
    var items := EssayItems(ids, from, qs, texts, toHtml);
    forall k | 0 <= k < |qs|
      ensures items[k].EssayItem? && items[k].title == qs[k].name
    {
      EssayItemsAt(ids, from, qs, texts, toHtml, k);
    }
  }

  const UploadTitle := "Upload"
  const UploadHtml := "Upload your Jupyter notebook"

  /** `CanvasExport` (src/nbquiz/canvas/export.py:167-267). */
  class Export {
    const uuid: IdSource
    const outside: Outside
    const quizId: string
    const title: string
    const meta: AssessmentMeta
    const quizResource: Resource
    const manifestId: string
    var questions: seq<QuizEntry>
    var resources: seq<Resource>
    var files: seq<string>

    /** The manifest lists the assessment's resource first and files after it, and the metadata and
        the resource refer to the assessment. */
    predicate Valid()
      reads this
    {
      meta.assessmentId == quizId && quizResource == AssessmentResource(quizResource.id, quizId)
      && |resources| >= 1 && resources[0] == quizResource
      && forall k :: 1 <= k < |resources| ==> resources[k].FileResource?
    }

    /** `__init__` (src/nbquiz/canvas/export.py:172-179): the assessment, its metadata, its resource
        and the manifest each draw an identifier, in that order. */
    constructor (title: string, description: string, outside: Outside, uuid: IdSource)
      modifies uuid
      ensures Valid()
      ensures this.uuid == uuid && this.outside == outside && this.title == title
      ensures var i0 := old(uuid.issued);
              uuid.issued == i0 + 4 && quizId == uuid.ids(i0)
              && meta == AssessmentMeta(uuid.ids(i0 + 1), quizId, title, outside.toHtml(description))
              && quizResource == AssessmentResource(uuid.ids(i0 + 2), quizId)
              && manifestId == uuid.ids(i0 + 3)
      ensures questions == [] && resources == [quizResource] && files == []
    {
      this.uuid := uuid;
      this.outside := outside;
      this.title := title;
      var qid := uuid.Next();
      quizId := qid;
      var mid := uuid.Next();
      meta := AssessmentMeta(mid, qid, title, outside.toHtml(description));
      var rid := uuid.Next();
      quizResource := AssessmentResource(rid, qid);
      var manifest := uuid.Next();
      manifestId := manifest;
      questions := [];
      resources := [AssessmentResource(rid, qid)];
      files := [];
    }

    /** `add_question` (src/nbquiz/canvas/export.py:233-237): one essay item titled with the class
        name, holding the question's text as HTML. The text is computed before the item draws its
        identifier, so a question that raises leaves everything as it was. */
    method AddQuestion(c: PyClass, env: Env) returns (r: Result<()>)
      requires Valid()
      modifies this, uuid, c
      ensures Valid()
      ensures c.own == Question.ValidatedOwn(c.kind, old(c.own))
      ensures resources == old(resources) && files == old(files)
      ensures var text := old(TextOf(c, env));
              if text.Err? then r == Err(text.error) && questions == old(questions) && uuid.issued == old(uuid.issued)
              else r == Ok(()) && uuid.issued == old(uuid.issued) + 1
                   && questions == old(questions) + [QItem(EssayItem(uuid.ids(old(uuid.issued)), c.name, outside.toHtml(text.value)))]
    {
      var text := Question.QuestionText(c, env);
      if text.Err? {
        return Err(text.error);
      }
      var id := uuid.Next();
      questions := questions + [QItem(EssayItem(id, c.name, outside.toHtml(text.value)))];
      r := Ok(());
    }

    /** The identifiers of `add_group`'s comprehension: one essay item per member, in member order,
        each drawing the next identifier. */
    method GroupItems(qs: seq<PyClass>, texts: seq<string>) returns (items: seq<Item>)
      requires |texts| == |qs|
      modifies uuid
      ensures uuid.issued == old(uuid.issued) + |qs|
      ensures items == EssayItems(uuid.ids, old(uuid.issued), qs, texts, outside.toHtml)
    {
      items := [];
      var i := 0;
      while i < |qs|
        invariant 0 <= i <= |qs|
        invariant uuid.issued == old(uuid.issued) + i
        invariant items == EssayItems(uuid.ids, old(uuid.issued), qs[..i], texts[..i], outside.toHtml)
      {
        var id := uuid.Next();
        EssayItemsStep(uuid.ids, old(uuid.issued), qs, texts, outside.toHtml, i);
        items := items + [EssayItem(id, qs[i].name, outside.toHtml(texts[i]))];
        i := i + 1;
      }
      assert qs[..i] == qs && texts[..i] == texts;
    }

    /** `add_group` (src/nbquiz/canvas/export.py:239-249): one section titled "Group" holding an
        item per member; the section draws its identifier after its items. */
    method AddGroup(qs: seq<PyClass>, env: Env) returns (r: Result<()>)
      requires Valid()
      modifies this, uuid, set q | q in qs
      ensures Valid()
      ensures resources == old(resources) && files == old(files)
      ensures forall q :: q in qs ==> q.own == old(q.own) || q.own == Question.ValidatedOwn(q.kind, old(q.own))
      ensures old(GroupTexts(qs, env)).Err? ==> r == Err(old(GroupTexts(qs, env)).error) && questions == old(questions)
      ensures old(GroupTexts(qs, env)).Ok? ==>
                && r == Ok(()) && uuid.issued == old(uuid.issued) + |qs| + 1
                && questions == old(questions) + [QSection(GroupSection(uuid.ids, old(uuid.issued), qs, old(GroupTexts(qs, env)).value, outside.toHtml))]
    {
      var texts := AskAll(qs, env);
      if texts.Err? {
        return Err(texts.error);
      }
      AddSection(qs, texts.value);
      r := Ok(());
    }

    /** The part of `add_group` after every member's text is known. */
    method AddSection(qs: seq<PyClass>, texts: seq<string>)
      requires Valid() && |texts| == |qs|
      modifies this, uuid
      ensures Valid()
      ensures resources == old(resources) && files == old(files)
      ensures uuid.issued == old(uuid.issued) + |qs| + 1
      ensures questions == old(questions) + [QSection(GroupSection(uuid.ids, old(uuid.issued), qs, texts, outside.toHtml))]
    {
      var items := GroupItems(qs, texts);
      var id := uuid.Next();
      questions := questions + [QSection(Section(id, "Group", items))];
    }

    /** The loop of `write` over the added files. */
    method AddFileResources() returns (copies: seq<ZipEntry>)
      requires Valid()
      modifies this, uuid
      ensures Valid()
      ensures files == old(files) && questions == old(questions) && uuid.issued == old(uuid.issued) + |files|
      ensures resources == old(resources) + FileResources(uuid.ids, old(uuid.issued), files, outside.baseName)
      ensures copies == FileCopies(files, outside.baseName)
    {
      var added;
      added, copies := DrawFiles(uuid, files, outside.baseName);
      resources := resources + added;
    }

    /** The manifest, the assessment and its metadata as their templates render them. */
    function ManifestText(): string
      reads this
    {
      RenderManifest(outside.templates, manifestId, resources)
    }

    function AssessmentText(): string
      reads this
    {
      RenderAssessment(outside.templates, quizId, title, questions)
    }

    function MetaText(): string
      reads this
    {
      RenderMeta(outside.templates, meta)
    }

    /** `write` (src/nbquiz/canvas/export.py:251-267): each added file gets a resource and is copied
        into the archive, the upload item goes after all questions, and then the manifest, the
        assessment, its metadata and an empty directory entry are written. */
    method Write() returns (entries: seq<ZipEntry>)
      requires Valid()
      modifies this, uuid
      ensures Valid()
      ensures files == old(files)
      ensures var i0 := old(uuid.issued);
              var n := |files|;
              uuid.issued == i0 + n + 1
              && resources == old(resources) + FileResources(uuid.ids, i0, files, outside.baseName)
              && questions == old(questions) + [QItem(FileItem(uuid.ids(i0 + n), UploadTitle, UploadHtml))]
              && entries == FileCopies(files, outside.baseName)
                            + [Written("imsmanifest.xml", ManifestText()),
                               Written(quizId + "/" + quizId + ".xml", AssessmentText()),
                               Written(quizId + "/assessment_meta.xml", MetaText()),
                               Written("non_cc_assessments/", "")]
    {
      entries := AddFileResources();
      var id := uuid.Next();
      questions := questions + [QItem(FileItem(id, UploadTitle, UploadHtml))];
      entries := entries + [Written("imsmanifest.xml", ManifestText()),
                            Written(quizId + "/" + quizId + ".xml", AssessmentText()),
                            Written(quizId + "/assessment_meta.xml", MetaText()),
                            Written("non_cc_assessments/", "")];
    }
  }

  /** The file resources of `write`, one per file, drawing identifiers from `from` on. */
  function FileResources(ids: nat -> string, from: nat, files: seq<string>, baseName: string -> string): (r: seq<Resource>)
    ensures |r| == |files|
    ensures forall k :: 0 <= k < |files| ==> r[k] == FileResource(ids(from + k), baseName(files[k]))
    decreases |files|
  {
    if files == [] then []
    else
      var n := |files| - 1;
      FileResources(ids, from, files[..n], baseName) + [FileResource(ids(from + n), baseName(files[n]))]
  }

  /** The archive copies of the added files, under the uploaded media directory. */
  function FileCopies(files: seq<string>, baseName: string -> string): (r: seq<ZipEntry>)
    ensures |r| == |files|
    ensures forall k :: 0 <= k < |files| ==> r[k] == Copied("web_resources/Uploaded Media/" + baseName(files[k]), files[k])
    decreases |files|
  {
    if files == [] then []
    else
      var n := |files| - 1;
      FileCopies(files[..n], baseName) + [Copied("web_resources/Uploaded Media/" + baseName(files[n]), files[n])]
  }

  /** The loop of `write` over the added files: each draws an identifier for its resource and is
      copied into the archive under its base name. */
  method DrawFiles(uuid: IdSource, files: seq<string>, baseName: string -> string)
      returns (added: seq<Resource>, copies: seq<ZipEntry>)
    modifies uuid
    ensures uuid.issued == old(uuid.issued) + |files|
    ensures added == FileResources(uuid.ids, old(uuid.issued), files, baseName)
    ensures copies == FileCopies(files, baseName)
  {
    added, copies := [], [];
    var i := 0;
    while i < |files|
      invariant 0 <= i <= |files|
      invariant uuid.issued == old(uuid.issued) + i
      invariant added == FileResources(uuid.ids, old(uuid.issued), files[..i], baseName)
      invariant copies == FileCopies(files[..i], baseName)
    {
      var id := uuid.Next();
      var name := baseName(files[i]);
      FilesStep(uuid.ids, old(uuid.issued), files, baseName, i);
      added := added + [FileResource(id, name)];
      copies := copies + [Copied("web_resources/Uploaded Media/" + name, files[i])];
      i := i + 1;
    }
    assert files[..i] == files;
  }

  /** One more file adds one more resource, with the next identifier, and one more copy. */
  lemma FilesStep(ids: nat -> string, from: nat, files: seq<string>, baseName: string -> string, i: nat)
    requires i < |files|
    ensures FileResources(ids, from, files[..i + 1], baseName)
         == FileResources(ids, from, files[..i], baseName) + [FileResource(ids(from + i), baseName(files[i]))]
    ensures FileCopies(files[..i + 1], baseName)
         == FileCopies(files[..i], baseName) + [Copied("web_resources/Uploaded Media/" + baseName(files[i]), files[i])]
  {
    assert files[..i + 1][..i] == files[..i];
  }
}
