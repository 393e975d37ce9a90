/**
 Corpus review, app/platform/reviews.py: annotations with optimistic revisions and an append-only
 history, drafts imported as one transaction, and the exported review document.
 */
module Reviews {
  import opened Wrappers
  import opened Chunking

  datatype Outcome = Answerable | NoEvidence | NeedsClarification | PolicyConflict

  datatype Status = Draft | Approved | Disputed

  datatype Cite = Cite(document: string, start: int, end: int, quote: string)

  datatype Annotation = Annotation(status: Status, outcome: Outcome, gold: seq<string>, notes: string, evidence: seq<Cite>)

  datatype Row = Row(revision: nat, annotation: Annotation, actor: string, updatedAt: real)

  datatype Event = Event(annotation: Annotation, actor: string, at: real)

  type Documents = map<string, string>

  datatype Case = Case(id: string, outcome: Outcome, gold: seq<string>)

  datatype Store = Store(revision: nat, annotations: map<string, Row>, events: map<(string, nat), Event>)

  datatype ReviewError =
    | GoldInvalid | EvidenceInvalid | NotesRequired | EvidenceRequired | VersionConflict | CaseNotFound
    | DatasetMismatch | ImportIncomplete | ReviewIncomplete

  // ----- one annotation -----

  predicate Distinct(s: seq<string>)
  {
    forall i, j :: 0 <= i < j < |s| ==> s[i] != s[j]
  }

  /** The cited stretch of a gold document reads as quoted. */
  predicate CiteOk(docs: Documents, gold: seq<string>, c: Cite)
  {
    c.document in gold && c.document in docs && 0 <= c.start < c.end <= |docs[c.document]|
    && docs[c.document][c.start..c.end] == c.quote
  }

  function Cited(evidence: seq<Cite>): set<string>
  {
    set c | c in evidence :: c.document
  }

  function Names(gold: seq<string>): set<string>
  {
    set d | d in gold
  }

  predicate AnnotationOk(docs: Documents, a: Annotation)
  {
    && Distinct(a.gold) && (forall d :: d in a.gold ==> d in docs)
    && (forall c :: c in a.evidence ==> CiteOk(docs, a.gold, c))
    && (a.status != Draft ==> !Blank(a.notes))
    && (a.status == Approved ==>
          if a.outcome == NoEvidence then a.gold == [] else a.gold != [] && Cited(a.evidence) == Names(a.gold))
  }

  method Validate(docs: Documents, a: Annotation) returns (r: Result<Annotation, ReviewError>)
    ensures r.Ok? <==> AnnotationOk(docs, a)
    ensures r.Ok? ==> r.value == a
  {
    if !Distinct(a.gold) || exists d :: d in a.gold && d !in docs {
      return Err(GoldInvalid);
    }
    for i := 0 to |a.evidence|
      invariant forall k :: 0 <= k < i ==> CiteOk(docs, a.gold, a.evidence[k])
    {
      var cite := a.evidence[i];
      var text := if cite.document in docs then docs[cite.document] else "";
      if cite.document !in a.gold || !(0 <= cite.start < cite.end <= |text|) || text[cite.start..cite.end] != cite.quote {
        assert !CiteOk(docs, a.gold, cite);
        return Err(EvidenceInvalid);
      }
    }
    if a.status in {Approved, Disputed} && Blank(a.notes) {
      return Err(NotesRequired);
    }
    if a.status == Approved {
      if a.outcome == NoEvidence {
        if a.gold != [] {
          return Err(GoldInvalid);
        }
      } else if a.gold == [] || Cited(a.evidence) != Names(a.gold) {
        return Err(EvidenceRequired);
      }
    }
    return Ok(a);
  }

  // ----- transactions -----

  function RevisionOf(s: Store, id: string): nat
  {
    if id in s.annotations then s.annotations[id].revision else 0
  }

  function WriteTx(s: Store, id: string, value: Annotation, expected: nat, actor: string, now: real): Result<Store, ReviewError>
  {
    if RevisionOf(s, id) != expected || (id, expected + 1) in s.events then Err(VersionConflict)
    else
      Ok(s.(annotations := s.annotations[id := Row(expected + 1, value, actor, now)],
            events := s.events[(id, expected + 1) := Event(value, actor, now)]))
  }

  predicate Knows(cases: seq<Case>, id: string)
  {
    exists i :: 0 <= i < |cases| && cases[i].id == id
  }

  function SaveTx(s: Store, docs: Documents, cases: seq<Case>, id: string, a: Annotation, expected: nat, actor: string, now: real): Store
  {
    if !Knows(cases, id) || !AnnotationOk(docs, a) then s
    else
      match WriteTx(s, id, a, expected, actor, now)
      case Ok(s') => s'.(revision := s.revision + 1)
      case Err(_) => s
  }

  /** Imported rows are drafts whatever they claim. */
  function Drafted(a: Annotation): Annotation
  {
    a.(status := Draft)
  }

  function WriteAll(s: Store, before: Store, rows: seq<(string, Annotation)>, actor: string, now: real): Result<Store, ReviewError>
    decreases |rows|
  {
    if rows == [] then Ok(s)
    else
      match WriteTx(s, rows[0].0, Drafted(rows[0].1), RevisionOf(before, rows[0].0), actor, now)
      case Err(e) => Err(e)
      case Ok(s') => WriteAll(s', before, rows[1..], actor, now)
  }

  predicate Covers(cases: seq<Case>, rows: seq<(string, Annotation)>)
  {
    |rows| == |cases| && (set r | r in rows :: r.0) == (set c | c in cases :: c.id)
  }

  function ImportTx(s: Store, docs: Documents, cases: seq<Case>, rows: seq<(string, Annotation)>, expected: nat, actor: string, now: real): Store
  {
    if !Covers(cases, rows) || (exists r :: r in rows && !AnnotationOk(docs, Drafted(r.1))) || s.revision != expected then s
    else
      match WriteAll(s, s, rows, actor, now)
      case Ok(s') => s'.(revision := expected + 1)
      case Err(_) => s
  }

  class ReviewWorkspace {
    const documents: Documents
    const cases: seq<Case>
    var revision: nat
    var annotations: map<string, Row>
    var events: map<(string, nat), Event>

    ghost function Contents(): Store
      reads this
    {
      Store(revision, annotations, events)
    }

    constructor (documents: Documents, cases: seq<Case>)
      ensures Contents() == Store(0, map[], map[]) && this.documents == documents && this.cases == cases
    {
      this.documents, this.cases := documents, cases;
      revision, annotations, events := 0, map[], map[];
    }

    method Write(id: string, value: Annotation, expected: nat, actor: string, now: real) returns (r: Result<(), ReviewError>)
      modifies this`annotations, this`events
      ensures match WriteTx(old(Contents()), id, value, expected, actor, now)
              case Ok(s) => r.Ok? && Contents() == s
              case Err(e) => r == Err(e) && Contents() == old(Contents())
    {
      var current := if id in annotations then annotations[id].revision else 0;
      if current != expected || (id, expected + 1) in events {
        return Err(VersionConflict);
      }
      annotations := annotations[id := Row(expected + 1, value, actor, now)];
      events := events[(id, expected + 1) := Event(value, actor, now)];
      return Ok(());
    }

    method Save(id: string, a: Annotation, expected: nat, actor: string, now: real) returns (r: Result<(), ReviewError>)
      modifies this
      ensures Contents() == SaveTx(old(Contents()), documents, cases, id, a, expected, actor, now)
      ensures r.Ok? <==> Knows(cases, id) && AnnotationOk(documents, a) && WriteTx(old(Contents()), id, a, expected, actor, now).Ok?
    {
      if !Knows(cases, id) {
        return Err(CaseNotFound);
      }
      var value := Validate(documents, a);
      if value.Err? {
        return Err(value.error);
      }
      r := Write(id, value.value, expected, actor, now);
      if r.Ok? {
        revision := revision + 1;
      }
    }

    /** All rows or none: the first conflict rolls back the rows already written. */
    method ImportDrafts(rows: seq<(string, Annotation)>, expected: nat, actor: string, now: real) returns (r: Result<(), ReviewError>)
      modifies this
      ensures Contents() == ImportTx(old(Contents()), documents, cases, rows, expected, actor, now)
    {
      if !Covers(cases, rows) {
        return Err(ImportIncomplete);
      }
      for i := 0 to |rows|
        invariant Contents() == old(Contents())
        invariant forall k :: 0 <= k < i ==> AnnotationOk(documents, Drafted(rows[k].1))
      {
        var valid := Validate(documents, Drafted(rows[i].1));
        if valid.Err? {
          assert rows[i] in rows;
          return Err(valid.error);
        }
      }
      if revision != expected {
        return Err(VersionConflict);
      }
      var annotations0, events0 := annotations, events;
      r := WriteRows(rows, actor, now);
      if r.Err? {
        annotations, events := annotations0, events0;
        return;
      }
      revision := expected + 1;
    }

    /** The loop of the import; what was written before a conflict is undone by its caller. */
    method WriteRows(rows: seq<(string, Annotation)>, actor: string, now: real) returns (r: Result<(), ReviewError>)
      modifies this`annotations, this`events
      ensures match WriteAll(old(Contents()), old(Contents()), rows, actor, now)
              case Ok(s) => r.Ok? && Contents() == s
              case Err(e) => r == Err(e)
    {
      var existing := annotations;
      var i := 0;
      while i < |rows|
        invariant 0 <= i <= |rows|
        invariant WriteAll(old(Contents()), old(Contents()), rows, actor, now)
               == WriteAll(Contents(), old(Contents()), rows[i..], actor, now)
      {
        var before := if rows[i].0 in existing then existing[rows[i].0].revision else 0;
        var written := Write(rows[i].0, Drafted(rows[i].1), before, actor, now);
        if written.Err? {
          return Err(written.error);
        }
        assert rows[i..][1..] == rows[i + 1..];
        i := i + 1;
      }
      return Ok(());
    }
  }

  // ----- the exported document -----

  datatype Review = Review(id: string, approved: bool, reviewer: string, reviewedAt: Option<real>, notes: string,
                           gold: seq<string>, outcome: Outcome, evidence: seq<Cite>, revision: nat)

  datatype Export = Export(humanReviewed: bool, reviews: seq<Review>)

  function ReviewOf(s: Store, c: Case): Review
  {
    if c.id !in s.annotations then Review(c.id, false, "", None, "", [], c.outcome, [], 0)
    else
      var row := s.annotations[c.id];
      Review(c.id, row.annotation.status == Approved, row.actor, Some(row.updatedAt), row.annotation.notes,
             row.annotation.gold, row.annotation.outcome, row.annotation.evidence, row.revision)
  }

  function ExportOf(s: Store, cases: seq<Case>): Export
  {
    var reviews := seq(|cases|, i requires 0 <= i < |cases| => ReviewOf(s, cases[i]));
    Export(forall i :: 0 <= i < |reviews| ==> reviews[i].approved, reviews)
  }
}
