/**
 * Model of nbquiz/testbank.py, the first test bank: a list of question classes and three inverted
 * indexes from tags, required tokens and forbidden tokens to the questions that list them.
 */
module LegacyTestBank {
  import opened PyModel
  import Strings
  import TestBank

  type Index = map<Value, seq<PyClass>>

  /** `idx.get(t, [])`. */
  function Lookup(idx: Index, t: Value): seq<PyClass>
  {
    if t in idx then idx[t] else []
  }

  /** Every list stored in an index holds at least one question. */
  predicate Proper(idx: Index)
  {
    forall t :: t in idx ==> idx[t] != []
  }

  /** The number of times `t` occurs in `es`. */
  function Count(es: seq<Value>, t: Value): nat
    decreases |es|
  {
    if es == [] then 0 else (if es[0] == t then 1 else 0) + Count(es[1..], t)
  }

  function Repeat(q: PyClass, n: nat): (r: seq<PyClass>)
    ensures |r| == n && forall i :: 0 <= i < n ==> r[i] == q
  {
    seq(n, _ => q)
  }

  lemma RepeatAdd(q: PyClass, m: nat, n: nat)
    ensures Repeat(q, m + n) == Repeat(q, m) + Repeat(q, n)
  {
  }

  // ================================================================ collecting the questions

  /** The value `exec` bound to a name. */
  function NsLookup(ns: seq<(string, NsValue)>, name: string): (r: Option<NsValue>)
    ensures r.Some? <==> exists i :: 0 <= i < |ns| && ns[i].0 == name
    decreases |ns|
  {
    if ns == [] then None
    else if ns[0].0 == name then Some(ns[0].1)
    else
      var r := NsLookup(ns[1..], name);
      assert forall i :: 1 <= i < |ns| ==> ns[1..][i - 1] == ns[i];
      r
  }

  /** The classes `_load` appends (nbquiz/testbank.py:31-35): each class the source defines, looked
      up in the namespace and kept when it is a question class. The list grows item by item, so what
      was appended before an exception stays. */
  function Collect(qs: seq<PyClass>, ns: seq<(string, NsValue)>, classes: seq<string>): (r: (seq<PyClass>, Result<()>))
    decreases |classes|
  {
    if classes == [] then (qs, Ok(()))
    else
      match NsLookup(ns, classes[0])
      case None => (qs, Err(KeyError(VStr(classes[0]))))
      case Some(NsQuestion(c)) => Collect(qs + [c], ns, classes[1..])
      case Some(NsClass(_)) => Collect(qs, ns, classes[1..])
      case Some(_) => (qs, Err(TypeError))
  }

  /** What reading and executing `file` appends to the question list, and whether that raised. */
  function CollectFile(qs: seq<PyClass>, file: string, pf: TestBank.Platform, classesOf: string -> seq<string>)
      : (r: (seq<PyClass>, Result<()>))
  {
    if file !in pf.documents then (qs, Err(Raised("unreadable notebook")))
    else match TestBank.QuestionSource(pf.documents[file])
      case Err(e) => (qs, Err(e))
      case Ok(src) =>
        match pf.exec(src)
        case ExecFailed(reason) => (qs, Err(Raised(reason)))
        case Executed(ns) => Collect(qs, ns, classesOf(src))
  }

  /** The appended part does not depend on what was already collected, so loading the same file
      twice appends its questions twice. */
  lemma {:induction false} CollectShift(a: seq<PyClass>, b: seq<PyClass>, ns: seq<(string, NsValue)>, classes: seq<string>)
    ensures Collect(a + b, ns, classes) == (a + Collect(b, ns, classes).0, Collect(b, ns, classes).1)
    decreases |classes|
  {
    if classes != [] {
      match NsLookup(ns, classes[0]) {
        case None =>
        case Some(NsQuestion(c)) =>
          assert (a + b) + [c] == a + (b + [c]);
          CollectShift(a, b + [c], ns, classes[1..]);
        case Some(NsClass(_)) =>
          CollectShift(a, b, ns, classes[1..]);
        case Some(_) =>
      }
    }
  }

  lemma CollectAppends(qs: seq<PyClass>, ns: seq<(string, NsValue)>, classes: seq<string>)
    ensures Collect(qs, ns, classes) == (qs + Collect([], ns, classes).0, Collect([], ns, classes).1)
  {
    assert qs + [] == qs;
    CollectShift(qs, [], ns, classes);
  }

  lemma LoadTwiceAppendsTwice(qs: seq<PyClass>, file: string, pf: TestBank.Platform, classesOf: string -> seq<string>)
    requires CollectFile([], file, pf, classesOf).1.Ok?
    ensures var added := CollectFile([], file, pf, classesOf).0;
            var once := CollectFile(qs, file, pf, classesOf);
            once == (qs + added, Ok(()))
            && CollectFile(once.0, file, pf, classesOf).0 == qs + added + added
  {
    var src := TestBank.QuestionSource(pf.documents[file]).value;
    var ns := pf.exec(src).ns;
    assert CollectFile([], file, pf, classesOf) == Collect([], ns, classesOf(src));
    assert CollectFile(qs, file, pf, classesOf) == Collect(qs, ns, classesOf(src));
    assert CollectFile(qs + Collect([], ns, classesOf(src)).0, file, pf, classesOf)
        == Collect(qs + Collect([], ns, classesOf(src)).0, ns, classesOf(src));
    CollectAppends(qs, ns, classesOf(src));
    CollectAppends(qs + Collect([], ns, classesOf(src)).0, ns, classesOf(src));
    OkUnit(Collect([], ns, classesOf(src)).1);
  }

  // ================================================================ the indexes

  /** The elements of the class attribute `attr`, as iterating it yields them. */
  function Elements(q: PyClass, attr: string): Result<seq<Value>>
    reads q
  {
    var a := q.Attrs();
    if attr !in a then Err(AttributeError(attr))
    else match Iterate(a[attr])
      case None => Err(TypeError)
      case Some(es) => Ok(es)
  }

  function ElementsOr(q: PyClass, attr: string): seq<Value>
    reads q
  {
    match Elements(q, attr) case Ok(es) => es case Err(_) => []
  }

  /** Appending `q` to the list of each element of `es` in turn (nbquiz/testbank.py:42-46); an
      element that cannot be a key stops the loop. */
  function AddPostings(idx: Index, q: PyClass, es: seq<Value>): (Index, Result<()>)
    decreases |es|
  {
    if es == [] then (idx, Ok(()))
    else if !Hashable(es[0]) then (idx, Err(TypeError))
    else AddPostings(idx[es[0] := Lookup(idx, es[0]) + [q]], q, es[1..])
  }

  /** Each element's list grows by `q` once per occurrence of the element, and nothing else changes. */
  lemma {:induction false} AddPostingsSpec(idx: Index, q: PyClass, es: seq<Value>)
    requires Proper(idx) && AddPostings(idx, q, es).1.Ok?
    ensures var r := AddPostings(idx, q, es).0;
            Proper(r) && forall t :: Lookup(r, t) == Lookup(idx, t) + Repeat(q, Count(es, t))
    decreases |es|
  {
    if es == [] {
      forall t ensures Lookup(idx, t) == Lookup(idx, t) + Repeat(q, Count(es, t)) {
        assert Repeat(q, 0) == [];
      }
    } else {
      var idx' := idx[es[0] := Lookup(idx, es[0]) + [q]];
      AddPostingsSpec(idx', q, es[1..]);
      var r := AddPostings(idx', q, es[1..]).0;
      forall t ensures Lookup(r, t) == Lookup(idx, t) + Repeat(q, Count(es, t)) {
        var own := if es[0] == t then 1 else 0;
        RepeatAdd(q, own, Count(es[1..], t));
        assert Lookup(idx', t) == Lookup(idx, t) + Repeat(q, own);
      }
    }
  }

  /** The three indexes and whether building them raised. */
  datatype Indexes = Indexes(tags: Index, required: Index, forbidden: Index, outcome: Result<()>)

  /** One question's turn of the rebuild (nbquiz/testbank.py:41-58): its tags, then its required
      tokens, then its forbidden tokens. */
  function IndexQuestion(ix: Indexes, q: PyClass): Indexes
    reads q
  {
    match Elements(q, "tags")
    case Err(e) => ix.(outcome := Err(e))
    case Ok(ts) =>
      var (tags, o1) := AddPostings(ix.tags, q, ts);
      if o1.Err? then ix.(tags := tags, outcome := o1)
      else match Elements(q, "tokens_required")
        case Err(e) => ix.(tags := tags, outcome := Err(e))
        case Ok(rs) =>
          var (required, o2) := AddPostings(ix.required, q, rs);
          if o2.Err? then ix.(tags := tags, required := required, outcome := o2)
          else match Elements(q, "tokens_forbidden")
            case Err(e) => ix.(tags := tags, required := required, outcome := Err(e))
            case Ok(fs) =>
              var (forbidden, o3) := AddPostings(ix.forbidden, q, fs);
              Indexes(tags, required, forbidden, o3)
  }

  /** The rebuild, question by question, stopping at the first that raises. */
  function Rebuild(ix: Indexes, qs: seq<PyClass>): Indexes
    reads set q | q in qs
    decreases |qs|
  {
    if qs == [] then ix
    else
      var next := IndexQuestion(ix, qs[0]);
      if next.outcome.Err? then next else Rebuild(next, qs[1..])
  }

  /** One turn of the rebuild, from position `i` of the question list. */
  lemma RebuildStep(ix: Indexes, qs: seq<PyClass>, i: nat)
    requires i < |qs|
    ensures Rebuild(ix, qs[i..]) ==
              var next := IndexQuestion(ix, qs[i]);
              if next.outcome.Err? then next else Rebuild(next, qs[i + 1..])
  {
    assert qs[i..][1..] == qs[i + 1..];
    assert qs[i..][0] == qs[i];
  }

  const Empty := Indexes(map[], map[], map[], Ok(()))

  /** The list of the key `t` in the index of `attr`: each question, in list order, once per
      occurrence of `t` among its elements. */
  ghost function Posting(qs: seq<PyClass>, attr: string, t: Value): seq<PyClass>
    reads set q | q in qs
    decreases |qs|
  {
    if qs == [] then [] else Repeat(qs[0], Count(ElementsOr(qs[0], attr), t)) + Posting(qs[1..], attr, t)
  }

  /** `idx` is `from` with the postings of `qs` for `attr` appended. */
  ghost predicate ExtendsIndex(idx: Index, from: Index, qs: seq<PyClass>, attr: string)
    reads set q | q in qs
  {
    Proper(idx) && forall t :: Lookup(idx, t) == Lookup(from, t) + Posting(qs, attr, t)
  }

  ghost predicate Extends(ix: Indexes, from: Indexes, qs: seq<PyClass>)
    reads set q | q in qs
  {
    ExtendsIndex(ix.tags, from.tags, qs, "tags")
    && ExtendsIndex(ix.required, from.required, qs, "tokens_required")
    && ExtendsIndex(ix.forbidden, from.forbidden, qs, "tokens_forbidden")
  }

  lemma ExtendsIndexStep(a: Index, b: Index, c: Index, qs: seq<PyClass>, attr: string)
    requires qs != []
    requires ExtendsIndex(b, a, [qs[0]], attr) && ExtendsIndex(c, b, qs[1..], attr)
    ensures ExtendsIndex(c, a, qs, attr)
  {
    forall t ensures Lookup(c, t) == Lookup(a, t) + Posting(qs, attr, t) {
      PostingStep(Lookup(a, t), Lookup(b, t), Lookup(c, t), qs, attr, t);
    }
  }

  lemma PostingStep(la: seq<PyClass>, lb: seq<PyClass>, lc: seq<PyClass>, qs: seq<PyClass>, attr: string, t: Value)
    requires qs != []
    requires lb == la + Posting([qs[0]], attr, t) && lc == lb + Posting(qs[1..], attr, t)
    ensures lc == la + Posting(qs, attr, t)
  {
    PostingSingle(qs[0], attr, t);
    var p0, p1 := Repeat(qs[0], Count(ElementsOr(qs[0], attr), t)), Posting(qs[1..], attr, t);
    assert Posting(qs, attr, t) == p0 + p1;
    Strings.ConcatAssoc(la, p0, p1);
  }

  lemma PostingSingle(q: PyClass, attr: string, t: Value)
    ensures Posting([q], attr, t) == Repeat(q, Count(ElementsOr(q, attr), t))
  {
    assert [q][1..] == [];
    assert [q][0] == q;
    var rep := Repeat(q, Count(ElementsOr(q, attr), t));
    assert rep + [] == rep;
  }

  lemma IndexQuestionSpec(ix: Indexes, q: PyClass)
    requires Proper(ix.tags) && Proper(ix.required) && Proper(ix.forbidden)
    requires IndexQuestion(ix, q).outcome.Ok?
    ensures Extends(IndexQuestion(ix, q), ix, [q])
  {
    PostingsOfOne(ix.tags, q, "tags");
    PostingsOfOne(ix.required, q, "tokens_required");
    PostingsOfOne(ix.forbidden, q, "tokens_forbidden");
  }

  /** Adding the elements of one question's attribute extends the index by that question's postings. */
  lemma PostingsOfOne(idx: Index, q: PyClass, attr: string)
    requires Proper(idx) && Elements(q, attr).Ok?
    requires AddPostings(idx, q, Elements(q, attr).value).1.Ok?
    ensures ExtendsIndex(AddPostings(idx, q, Elements(q, attr).value).0, idx, [q], attr)
  {
    AddPostingsSpec(idx, q, Elements(q, attr).value);
    forall t ensures Posting([q], attr, t) == Repeat(q, Count(ElementsOr(q, attr), t)) {
      PostingSingle(q, attr, t);
    }
  }

  /** A successful rebuild lists under each key exactly the questions that name it, in order and
      with multiplicity. */
  lemma {:induction false} RebuildPostings(ix: Indexes, qs: seq<PyClass>)
    requires Proper(ix.tags) && Proper(ix.required) && Proper(ix.forbidden)
    requires Rebuild(ix, qs).outcome.Ok?
    ensures Extends(Rebuild(ix, qs), ix, qs)
    decreases |qs|
  {
    if qs == [] {
      assert forall attr: string, t :: Posting(qs, attr, t) == [];
    } else {
      var next := IndexQuestion(ix, qs[0]);
      assert next.outcome.Ok?;
      IndexQuestionSpec(ix, qs[0]);
      RebuildPostings(next, qs[1..]);
      var last := Rebuild(next, qs[1..]);
      ExtendsIndexStep(ix.tags, next.tags, last.tags, qs, "tags");
      ExtendsIndexStep(ix.required, next.required, last.required, qs, "tokens_required");
      ExtendsIndexStep(ix.forbidden, next.forbidden, last.forbidden, qs, "tokens_forbidden");
    }
  }

  /** Every key of a proper index names a non-empty list, so a key is present exactly when some
      question names it. */
  lemma KeysAreNamed(qs: seq<PyClass>, t: Value)
    requires Rebuild(Empty, qs).outcome.Ok?
    ensures t in Rebuild(Empty, qs).tags <==> Posting(qs, "tags", t) != []
    ensures t in Rebuild(Empty, qs).tags ==> Rebuild(Empty, qs).tags[t] == Posting(qs, "tags", t)
  {
    RebuildPostings(Empty, qs);
  }

  // ================================================================ the bank

  /** `TestBank` (nbquiz/testbank.py:11-62). */
  class LegacyBank {
    var questions: seq<PyClass>
    var tags: Index
    var required: Index
    var forbidden: Index

    constructor ()
      ensures questions == [] && tags == map[] && required == map[] && forbidden == map[]
    {
      questions := [];
      tags := map[];
      required := map[];
      forbidden := map[];
    }

    /** The inner loops of the rebuild: `q` joins the list of each element of `es`. */
    static method Append(idx: Index, q: PyClass, es: seq<Value>) returns (r: Index, ok: Result<()>)
      ensures (r, ok) == AddPostings(idx, q, es)
    {
      r := idx;
      var i := 0;
      while i < |es|
        invariant 0 <= i <= |es|
        invariant AddPostings(idx, q, es) == AddPostings(r, q, es[i..])
      {
        assert es[i..][1..] == es[i + 1..];
        ghost var old_r := r;
        if !Hashable(es[i]) {
          return r, Err(TypeError);
        }
        if es[i] !in r {
          assert [] + [q] == [q];
          r := r[es[i] := [q]];
        } else {
          r := r[es[i] := r[es[i]] + [q]];
        }
        assert r == old_r[es[i] := Lookup(old_r, es[i]) + [q]];
        i := i + 1;
      }
      ok := Ok(());
    }

    /** One question's turn of the rebuild. */
    method IndexOne(q: PyClass) returns (r: Result<()>)
      modifies this
      ensures questions == old(questions)
      ensures Indexes(tags, required, forbidden, r) == IndexQuestion(old(Indexes(tags, required, forbidden, Ok(()))), q)
    {
      var ts := Elements(q, "tags");
      if ts.Err? {
        return Err(ts.error);
      }
      tags, r := Append(tags, q, ts.value);
      if r.Err? {
        return;
      }
      var rs := Elements(q, "tokens_required");
      if rs.Err? {
        return Err(rs.error);
      }
      required, r := Append(required, q, rs.value);
      if r.Err? {
        return;
      }
      var fs := Elements(q, "tokens_forbidden");
      if fs.Err? {
        return Err(fs.error);
      }
      forbidden, r := Append(forbidden, q, fs.value);
    }

    /** The rebuild of nbquiz/testbank.py:37-58: the indexes are reset, then each question adds its
        tags, required tokens and forbidden tokens. */
    method Reindex() returns (r: Result<()>)
      modifies this
      ensures questions == old(questions)
      ensures Indexes(tags, required, forbidden, r) == Rebuild(Empty, questions)
    {
      tags, required, forbidden := map[], map[], map[];
      var i := 0;
      while i < |questions|
        invariant 0 <= i <= |questions| && questions == old(questions)
        invariant Rebuild(Empty, questions) == Rebuild(Indexes(tags, required, forbidden, Ok(())), questions[i..])
      {
        RebuildStep(Indexes(tags, required, forbidden, Ok(())), questions, i);
        r := IndexOne(questions[i]);
        if r.Err? {
          return;
        }
        OkUnit(r);
        i := i + 1;
      }
      r := Ok(());
    }

    /** `_load(filename)` (nbquiz/testbank.py:18-58): the new question classes are appended, then the
        indexes are rebuilt over all questions loaded so far. */
    method LoadFile(file: string, pf: TestBank.Platform, classesOf: string -> seq<string>) returns (r: Result<()>)
      modifies this
      ensures var c := CollectFile(old(questions), file, pf, classesOf);
              questions == c.0
              && if c.1.Err? then r == c.1 && tags == old(tags) && required == old(required) && forbidden == old(forbidden)
                 else Indexes(tags, required, forbidden, r) == Rebuild(Empty, questions)
    {
      if file !in pf.documents {
        return Err(Raised("unreadable notebook"));
      }
      var src := TestBank.QuestionSource(pf.documents[file]);
      if src.Err? {
        return Err(src.error);
      }
      var ex := pf.exec(src.value);
      if ex.ExecFailed? {
        return Err(Raised(ex.reason));
      }
      var classes := classesOf(src.value);
      ghost var q0 := questions;
      var i := 0;
      while i < |classes|
        invariant 0 <= i <= |classes|
        invariant Collect(q0, ex.ns, classes) == Collect(questions, ex.ns, classes[i..])
        invariant tags == old(tags) && required == old(required) && forbidden == old(forbidden)
      {
        assert classes[i..][1..] == classes[i + 1..];
        assert classes[i..][0] == classes[i];
        var v := NsLookup(ex.ns, classes[i]);
        match v {
          case None =>
            return Err(KeyError(VStr(classes[i])));
          case Some(NsQuestion(c)) =>
            questions := questions + [c];
          case Some(NsClass(_)) =>
          case Some(_) =>
            return Err(TypeError);
        }
        i := i + 1;
      }
      r := Reindex();
    }
  }
}
