/**
 The review log, and the agreement of the workspace's export with the independently written
 validator apply_review of app/platform/review_dataset.py.
 */
module ReviewAgreement {
  import opened Wrappers
  import opened Chunking
  import opened Reviews

  datatype Reviewed = Reviewed(id: string, outcome: Outcome, gold: seq<string>)

  // ----- the second validator -----

  predicate ReviewComplete(docs: Documents, r: Review)
  {
    && r.approved && !Blank(r.reviewer) && r.reviewedAt.Some? && !Blank(r.notes)
    && (forall d :: d in r.gold ==> d in docs) && Distinct(r.gold)
    && (r.gold == [] <==> r.outcome == NoEvidence)
  }

  predicate EvidenceComplete(docs: Documents, r: Review)
  {
    (forall c :: c in r.evidence ==> CiteOk(docs, r.gold, c)) && Cited(r.evidence) == Names(r.gold)
  }

  predicate RowAccepted(docs: Documents, reviews: seq<Review>, id: string)
  {
    exists k :: 0 <= k < |reviews| && reviews[k].id == id && IsLast(reviews, k)
                && ReviewComplete(docs, reviews[k]) && EvidenceComplete(docs, reviews[k])
  }

  predicate Acceptable(docs: Documents, cases: seq<Case>, reviews: seq<Review>)
  {
    && |reviews| == |cases| && (set r | r in reviews :: r.id) == (set c | c in cases :: c.id)
    && forall i :: 0 <= i < |cases| ==> RowAccepted(docs, reviews, cases[i].id)
  }

  /** The row a dictionary built from the list keeps for its id. */
  predicate IsLast(reviews: seq<Review>, k: nat)
  {
    k < |reviews| && forall j :: k < j < |reviews| ==> reviews[j].id != reviews[k].id
  }

  method CheckEvidence(docs: Documents, row: Review) returns (r: Result<(), ReviewError>)
    requires forall d :: d in row.gold ==> d in docs
    ensures r.Ok? <==> EvidenceComplete(docs, row)
  {
    var covered := {};
    for i := 0 to |row.evidence|
      invariant forall k :: 0 <= k < i ==> CiteOk(docs, row.gold, row.evidence[k])
      invariant covered == Cited(row.evidence[..i])
    {
      var cite := row.evidence[i];
      if cite.document !in row.gold || !(0 <= cite.start < cite.end <= |docs[cite.document]|)
         || docs[cite.document][cite.start..cite.end] != cite.quote {
        assert !CiteOk(docs, row.gold, cite);
        return Err(EvidenceInvalid);
      }
      assert row.evidence[..i + 1] == row.evidence[..i] + [cite];
      covered := covered + {cite.document};
    }
    assert row.evidence[..|row.evidence|] == row.evidence;
    return if covered != Names(row.gold) then Err(EvidenceRequired) else Ok(());
  }

  /** Rows by id, later ones replacing earlier ones. */
  method MapRows(reviews: seq<Review>) returns (mapped: map<string, nat>)
    ensures forall id :: id in mapped <==> exists j :: 0 <= j < |reviews| && reviews[j].id == id
    ensures forall id :: id in mapped ==> mapped[id] < |reviews| && reviews[mapped[id]].id == id && IsLast(reviews, mapped[id])
  {
    mapped := map[];
    for k := 0 to |reviews|
      invariant forall j :: 0 <= j < k ==> reviews[j].id in mapped
      invariant forall id :: id in mapped ==> mapped[id] < k && reviews[mapped[id]].id == id
      invariant forall id, j :: id in mapped && mapped[id] < j < k ==> reviews[j].id != id
    {
      mapped := mapped[reviews[k].id := k];
    }
  }

  predicate TakenFrom(reviews: seq<Review>, id: string, x: Reviewed)
  {
    exists k :: 0 <= k < |reviews| && reviews[k].id == id && IsLast(reviews, k)
                && x == Reviewed(id, reviews[k].outcome, reviews[k].gold)
  }

  lemma IdKnown(cases: seq<Case>, reviews: seq<Review>, i: nat)
    requires i < |cases| && (set r | r in reviews :: r.id) == (set c | c in cases :: c.id)
    ensures exists j :: 0 <= j < |reviews| && reviews[j].id == cases[i].id
  {
    var ids := set c | c in cases :: c.id;
    assert cases[i] in cases;
    assert cases[i].id in ids;
    var r :| r in reviews && r.id == cases[i].id;
  }

  method ApplyReview(docs: Documents, cases: seq<Case>, reviews: seq<Review>) returns (r: Result<seq<Reviewed>, ReviewError>)
    ensures r.Ok? <==> Acceptable(docs, cases, reviews)
    ensures r.Ok? ==> |r.value| == |cases| && forall i :: 0 <= i < |cases| ==> TakenFrom(reviews, cases[i].id, r.value[i])
  {
    if |reviews| != |cases| || (set x | x in reviews :: x.id) != (set c | c in cases :: c.id) {
      return Err(ReviewIncomplete);
    }
    var mapped := MapRows(reviews);
    var output: seq<Reviewed> := [];
    for i := 0 to |cases|
      invariant |output| == i && forall j :: 0 <= j < i ==> TakenFrom(reviews, cases[j].id, output[j])
      invariant forall j :: 0 <= j < i ==> RowAccepted(docs, reviews, cases[j].id)
    {
      IdKnown(cases, reviews, i);
      var k := mapped[cases[i].id];
      var row := reviews[k];
      if !ReviewComplete(docs, row) {
        NotAccepted(docs, cases, reviews, i, k);
        return Err(ReviewIncomplete);
      }
      var evidence := CheckEvidence(docs, row);
      if evidence.Err? {
        NotAccepted(docs, cases, reviews, i, k);
        return Err(evidence.error);
      }
      var reviewed := Reviewed(cases[i].id, row.outcome, row.gold);
      assert TakenFrom(reviews, cases[i].id, reviewed);
      output := output + [reviewed];
    }
    return Ok(output);
  }

  lemma NotAccepted(docs: Documents, cases: seq<Case>, reviews: seq<Review>, i: nat, k: nat)
    requires i < |cases| && IsLast(reviews, k) && reviews[k].id == cases[i].id
    requires !(ReviewComplete(docs, reviews[k]) && EvidenceComplete(docs, reviews[k]))
    ensures !Acceptable(docs, cases, reviews)
  {
    assert !RowAccepted(docs, reviews, cases[i].id);
  }

  // ----- every history of saves and imports -----

  datatype Step =
    | Save(id: string, annotation: Annotation, expected: nat, actor: string, now: real)
    | Import(rows: seq<(string, Annotation)>, revision: nat, actor: string, now: real)

  function Do(s: Store, docs: Documents, cases: seq<Case>, step: Step): Store
  {
    match step
    case Save(id, a, expected, actor, now) => SaveTx(s, docs, cases, id, a, expected, actor, now)
    case Import(rows, revision, actor, now) => ImportTx(s, docs, cases, rows, revision, actor, now)
  }

  function Run(s: Store, docs: Documents, cases: seq<Case>, steps: seq<Step>): Store
    decreases |steps|
  {
    if steps == [] then s else Run(Do(s, docs, cases, steps[0]), docs, cases, steps[1..])
  }

  const EMPTY := Store(0, map[], map[])

  ghost predicate LogOk(s: Store, docs: Documents, id: string)
  {
    && (forall n: nat {:trigger (id, n) in s.events} :: (id, n) in s.events <==> 1 <= n <= RevisionOf(s, id))
    && (id in s.annotations ==>
          var row := s.annotations[id];
          && row.revision >= 1 && s.events[(id, row.revision)] == Event(row.annotation, row.actor, row.updatedAt)
          && AnnotationOk(docs, row.annotation))
  }

  ghost predicate Inv(s: Store, docs: Documents)
  {
    forall id {:trigger LogOk(s, docs, id)} :: LogOk(s, docs, id)
  }

  ghost predicate Extends(s: Store, s': Store)
  {
    forall e :: e in s.events ==> e in s'.events && s'.events[e] == s.events[e]
  }

  lemma WriteKeeps(s: Store, docs: Documents, id: string, value: Annotation, expected: nat, actor: string, now: real)
    requires Inv(s, docs) && AnnotationOk(docs, value) && WriteTx(s, id, value, expected, actor, now).Ok?
    ensures Inv(WriteTx(s, id, value, expected, actor, now).value, docs) && Extends(s, WriteTx(s, id, value, expected, actor, now).value)
  {
    var s' := WriteTx(s, id, value, expected, actor, now).value;
    forall other ensures LogOk(s', docs, other) { assert LogOk(s, docs, other); }
  }

  lemma {:induction false} WriteAllKeeps(s: Store, before: Store, docs: Documents, rows: seq<(string, Annotation)>, actor: string, now: real)
    requires Inv(s, docs) && (forall r :: r in rows ==> AnnotationOk(docs, Drafted(r.1)))
    requires WriteAll(s, before, rows, actor, now).Ok?
    ensures Inv(WriteAll(s, before, rows, actor, now).value, docs) && Extends(s, WriteAll(s, before, rows, actor, now).value)
    decreases |rows|
  {
    if rows != [] {
      WriteKeeps(s, docs, rows[0].0, Drafted(rows[0].1), RevisionOf(before, rows[0].0), actor, now);
      WriteAllKeeps(WriteTx(s, rows[0].0, Drafted(rows[0].1), RevisionOf(before, rows[0].0), actor, now).value,
        before, docs, rows[1..], actor, now);
    }
  }

  lemma WithRevision(s: Store, docs: Documents, revision: nat)
    requires Inv(s, docs)
    ensures Inv(s.(revision := revision), docs)
  {
    forall id ensures LogOk(s.(revision := revision), docs, id) { assert LogOk(s, docs, id); }
  }

  lemma StepKeeps(s: Store, docs: Documents, cases: seq<Case>, step: Step)
    requires Inv(s, docs)
    ensures Inv(Do(s, docs, cases, step), docs) && Extends(s, Do(s, docs, cases, step))
  {
    if Do(s, docs, cases, step) != s {
      match step
      case Save(id, a, expected, actor, now) =>
        WriteKeeps(s, docs, id, a, expected, actor, now);
        WithRevision(WriteTx(s, id, a, expected, actor, now).value, docs, s.revision + 1);
      case Import(rows, revision, actor, now) =>
        WriteAllKeeps(s, s, docs, rows, actor, now);
        WithRevision(WriteAll(s, s, rows, actor, now).value, docs, revision + 1);
    }
  }

  lemma {:induction false} RunKeeps(s: Store, docs: Documents, cases: seq<Case>, steps: seq<Step>)
    requires Inv(s, docs)
    ensures Inv(Run(s, docs, cases, steps), docs) && Extends(s, Run(s, docs, cases, steps))
    decreases |steps|
  {
    if steps != [] {
      StepKeeps(s, docs, cases, steps[0]);
      RunKeeps(Do(s, docs, cases, steps[0]), docs, cases, steps[1..]);
    }
  }

  /**
   The history of a case has revisions 1..revision, each once and for good, and the annotation
   shown is the last one written.
   */
  lemma HistoryIsTheState(docs: Documents, cases: seq<Case>, before: seq<Step>, after: seq<Step>, id: string, n: nat)
    ensures var s, end := Run(EMPTY, docs, cases, before), Run(Run(EMPTY, docs, cases, before), docs, cases, after);
      && ((id, n) in s.events <==> 1 <= n <= RevisionOf(s, id))
      && ((id, n) in s.events ==> (id, n) in end.events && end.events[(id, n)] == s.events[(id, n)])
      && (id in s.annotations ==>
            && (id, s.annotations[id].revision) in s.events
            && s.events[(id, s.annotations[id].revision)] == Event(s.annotations[id].annotation, s.annotations[id].actor, s.annotations[id].updatedAt))
  {
    RunKeeps(EMPTY, docs, cases, before);
    RunKeeps(Run(EMPTY, docs, cases, before), docs, cases, after);
    assert LogOk(Run(EMPTY, docs, cases, before), docs, id);
  }

  /** A save takes effect exactly when it is valid and built on the current revision of its case. */
  lemma SaveIffCurrent(s: Store, docs: Documents, cases: seq<Case>, id: string, a: Annotation, expected: nat, actor: string, now: real)
    requires Inv(s, docs)
    ensures SaveTx(s, docs, cases, id, a, expected, actor, now) != s
      <==> Knows(cases, id) && AnnotationOk(docs, a) && expected == RevisionOf(s, id)
  {
    assert LogOk(s, docs, id);
  }

  lemma ExportRowAccepted(s: Store, docs: Documents, cases: seq<Case>, i: nat)
    requires Inv(s, docs) && i < |cases|
    ensures var r := ReviewOf(s, cases[i]);
      ReviewComplete(docs, r) && EvidenceComplete(docs, r) <==> r.approved && !Blank(r.reviewer)
  {
    assert LogOk(s, docs, cases[i].id);
  }

  lemma {:induction false} LastRow(reviews: seq<Review>, i: nat) returns (k: nat)
    requires i < |reviews|
    ensures k < |reviews| && reviews[k].id == reviews[i].id && IsLast(reviews, k)
    decreases |reviews| - i
  {
    k := i;
    if j :| i < j < |reviews| && reviews[j].id == reviews[i].id {
      k := LastRow(reviews, j);
    }
  }

  /**
   Two validators, one verdict: the exported review of any reachable state is accepted by the
   second validator exactly when the export calls it human reviewed and every review is signed.
   */
  lemma ExportAcceptedIff(docs: Documents, cases: seq<Case>, steps: seq<Step>)
    ensures var e := ExportOf(Run(EMPTY, docs, cases, steps), cases);
      Acceptable(docs, cases, e.reviews) <==> e.humanReviewed && forall i :: 0 <= i < |e.reviews| ==> !Blank(e.reviews[i].reviewer)
  {
    RunKeeps(EMPTY, docs, cases, steps);
    var s := Run(EMPTY, docs, cases, steps);
    var e := ExportOf(s, cases);
    ExportNamesCases(s, cases);
    forall i | 0 <= i < |cases| ensures RowAccepted(docs, e.reviews, cases[i].id) <==> e.reviews[i].approved && !Blank(e.reviews[i].reviewer) {
      ExportRowAccepted(s, docs, cases, i);
      var k := LastRow(e.reviews, i);
      assert e.reviews[k] == ReviewOf(s, cases[k]);
      SameIdSameReview(s, cases, i, k);
      OnlyLast(e.reviews, cases[i].id, k);
      ExportRowAccepted(s, docs, cases, k);
    }
  }

  lemma SameIdSameReview(s: Store, cases: seq<Case>, i: nat, k: nat)
    requires i < |cases| && k < |cases| && cases[i].id == cases[k].id
    ensures ReviewOf(s, cases[i]).approved == ReviewOf(s, cases[k]).approved
    ensures ReviewOf(s, cases[i]).reviewer == ReviewOf(s, cases[k]).reviewer
  {}

  lemma OnlyLast(reviews: seq<Review>, id: string, k: nat)
    requires k < |reviews| && reviews[k].id == id && IsLast(reviews, k)
    ensures forall j :: 0 <= j < |reviews| && reviews[j].id == id && IsLast(reviews, j) ==> j == k
  {}

  lemma ExportNamesCases(s: Store, cases: seq<Case>)
    ensures var reviews := ExportOf(s, cases).reviews;
      |reviews| == |cases| && (set r | r in reviews :: r.id) == (set c | c in cases :: c.id)
  {
    var reviews := ExportOf(s, cases).reviews;
    var a, b := set r | r in reviews :: r.id, set c | c in cases :: c.id;
    forall id | id in b ensures id in a {
      var i :| 0 <= i < |cases| && cases[i].id == id;
      assert reviews[i] in reviews && reviews[i].id == id;
    }
    forall id | id in a ensures id in b {
      var i :| 0 <= i < |reviews| && reviews[i].id == id;
      assert cases[i] in cases && cases[i].id == id;
    }
  }
}
