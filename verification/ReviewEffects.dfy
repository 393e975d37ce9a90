/**
 What saving, importing and exporting reviews write and when they are refused: stated on annotations,
 histories and exported rows.
 */
module ReviewEffects {
  import opened Wrappers
  import opened Chunking
  import opened Reviews
  import opened ReviewAgreement

  // ----- what is a valid annotation -----

  /** A citation quotes its gold document character for character. */
  lemma CiteIff(docs: Documents, gold: seq<string>, c: Cite)
    ensures CiteOk(docs, gold, c) <==>
      && c.document in gold && c.document in docs
      && c.start >= 0 && |c.quote| > 0 && c.end == c.start + |c.quote| && c.end <= |docs[c.document]|
      && forall k :: 0 <= k < |c.quote| ==> c.quote[k] == docs[c.document][c.start + k]
  {
    if c.document in docs && 0 <= c.start < c.end <= |docs[c.document]| && |c.quote| == c.end - c.start {
      var cut := docs[c.document][c.start..c.end];
      assert forall k :: 0 <= k < |cut| ==> cut[k] == docs[c.document][c.start + k];
      if forall k :: 0 <= k < |c.quote| ==> c.quote[k] == docs[c.document][c.start + k] {
        assert cut == c.quote;
      }
    }
  }

  predicate Unrepeated(s: seq<string>)
  {
    forall i, j :: 0 <= i < |s| && 0 <= j < |s| && s[i] == s[j] ==> i == j
  }

  /**
   Drafts need sound gold documents and citations; disputed and approved annotations also notes; and
   an approval either names no document and expects no evidence, or has every gold document cited.
   */
  lemma AnnotationIff(docs: Documents, a: Annotation)
    ensures var sound := Unrepeated(a.gold) && (forall d :: d in a.gold ==> d in docs)
        && (forall c :: c in a.evidence ==> CiteOk(docs, a.gold, c));
      var noted := exists i :: 0 <= i < |a.notes| && !IsSpace(a.notes[i]);
      var covered := |a.gold| > 0 && (forall d :: d in a.gold ==> exists c :: c in a.evidence && c.document == d);
      AnnotationOk(docs, a) <==>
        match a.status
        case Draft => sound
        case Disputed => sound && noted
        case Approved => sound && noted && (if a.outcome.NoEvidence? then |a.gold| == 0 else covered)
  {
    assert Unrepeated(a.gold) <==> Reviews.Distinct(a.gold);
    if forall c :: c in a.evidence ==> CiteOk(docs, a.gold, c) {
      CoverageIff(docs, a);
    }
  }

  lemma CoverageIff(docs: Documents, a: Annotation)
    requires forall c :: c in a.evidence ==> CiteOk(docs, a.gold, c)
    ensures Cited(a.evidence) == Names(a.gold) <==> forall d :: d in a.gold ==> exists c :: c in a.evidence && c.document == d
  {
    if Cited(a.evidence) == Names(a.gold) {
      forall d | d in a.gold ensures exists c :: c in a.evidence && c.document == d {
        assert d in Names(a.gold);
        assert d in Cited(a.evidence);
      }
    }
    if forall d :: d in a.gold ==> exists c :: c in a.evidence && c.document == d {
      forall d ensures d in Cited(a.evidence) <==> d in Names(a.gold) {
        if d in Names(a.gold) {
          var c :| c in a.evidence && c.document == d;
        }
      }
    }
  }

  // ----- saving -----

  /** The case `id` now shows `a` at the next revision, and its history has one entry more. */
  predicate Shows(s: Store, s': Store, id: string, a: Annotation, actor: string, now: real)
  {
    var n := (if id in s.annotations then s.annotations[id].revision else 0) + 1;
    && id in s'.annotations && s'.annotations[id] == Row(n, a, actor, now)
    && (id, n) in s'.events && s'.events[(id, n)] == Event(a, actor, now)
  }

  /**
   The second validator demands of any review whatever, exported or not, exactly what the first demands of
   an approval, and in addition that it is approved, signed and dated.
   */
  lemma SecondDemandsTheFirst(docs: Documents, r: Review)
    ensures ReviewComplete(docs, r) && EvidenceComplete(docs, r) <==>
      && r.approved && r.reviewedAt.Some? && (exists i :: 0 <= i < |r.reviewer| && !IsSpace(r.reviewer[i]))
      && AnnotationOk(docs, Annotation(Approved, r.outcome, r.gold, r.notes, r.evidence))
  {
    if r.gold == [] && forall c :: c in r.evidence ==> CiteOk(docs, r.gold, c) {
      assert forall c :: c in r.evidence ==> c.document in r.gold;
      assert Cited(r.evidence) == Names(r.gold);
    }
  }

  /** Every case of the dataset may be reviewed, and nothing else. */
  lemma EveryCaseIsKnown(cases: seq<Case>, id: string)
    ensures Knows(cases, id) <==> exists c :: c in cases && c.id == id
  {
    if c :| c in cases && c.id == id {
      var i :| 0 <= i < |cases| && cases[i] == c;
    }
  }

  lemma SaveWrites(s: Store, docs: Documents, cases: seq<Case>, id: string, a: Annotation, expected: nat, actor: string, now: real)
    requires SaveTx(s, docs, cases, id, a, expected, actor, now) != s
    ensures var s' := SaveTx(s, docs, cases, id, a, expected, actor, now);
      && (exists i :: 0 <= i < |cases| && cases[i].id == id) && AnnotationOk(docs, a)
      && Shows(s, s', id, a, actor, now) && s'.revision == s.revision + 1
      && s'.annotations == s.annotations[id := s'.annotations[id]]
      && s'.events.Keys == s.events.Keys + {(id, expected + 1)} && (forall e :: e in s.events ==> s'.events[e] == s.events[e])
      && expected == (if id in s.annotations then s.annotations[id].revision else 0)
  {}

  // ----- importing -----

  predicate DistinctIds(rows: seq<(string, Annotation)>)
  {
    forall i, j :: 0 <= i < j < |rows| ==> rows[i].0 != rows[j].0
  }

  predicate Wrote(s: Store, s': Store, rows: seq<(string, Annotation)>, k: nat, actor: string, now: real)
    requires k < |rows|
  {
    Shows(s, s', rows[k].0, rows[k].1.(status := Draft), actor, now)
  }

  /** Every row of the import is shown, as a draft; cases it does not name are as before. */
  ghost predicate AllWritten(s: Store, s': Store, rows: seq<(string, Annotation)>, actor: string, now: real)
  {
    && (forall k {:trigger Wrote(s, s', rows, k, actor, now)} :: 0 <= k < |rows| ==> Wrote(s, s', rows, k, actor, now))
    && (forall id :: (forall k :: 0 <= k < |rows| ==> rows[k].0 != id) ==>
          (id in s'.annotations <==> id in s.annotations) && (id in s.annotations ==> s'.annotations[id] == s.annotations[id]))
    && s'.revision == s.revision
  }

  lemma FirstRow(s: Store, s1: Store, s': Store, rows: seq<(string, Annotation)>, actor: string, now: real)
    requires rows != [] && DistinctIds(rows)
    requires Shows(s, s1, rows[0].0, rows[0].1.(status := Draft), actor, now) && s1.revision == s.revision
    requires s1.annotations == s.annotations[rows[0].0 := s1.annotations[rows[0].0]]
    requires Extends(s1, s') && AllWritten(s1, s', rows[1..], actor, now)
    ensures AllWritten(s, s', rows, actor, now)
  {
    forall k | 0 <= k < |rows| ensures Wrote(s, s', rows, k, actor, now) {
      if k == 0 {
        assert forall j :: 0 <= j < |rows[1..]| ==> rows[1..][j].0 == rows[j + 1].0 != rows[0].0;
        assert s'.annotations[rows[0].0] == s1.annotations[rows[0].0];
      } else {
        assert Wrote(s1, s', rows[1..], k - 1, actor, now) && rows[1..][k - 1] == rows[k] && rows[0].0 != rows[k].0;
      }
    }
    forall id | forall k :: 0 <= k < |rows| ==> rows[k].0 != id
      ensures (id in s'.annotations <==> id in s.annotations) && (id in s.annotations ==> s'.annotations[id] == s.annotations[id])
    {
      assert forall k :: 0 <= k < |rows[1..]| ==> rows[1..][k] == rows[k + 1];
      assert rows[0].0 != id;
    }
  }

  /** The rows still to write have the revisions that were read, except those written already. */
  predicate Remaining(s: Store, before: Store, rows: seq<(string, Annotation)>)
  {
    forall k :: 0 <= k < |rows| ==> RevisionOf(s, rows[k].0) == RevisionOf(before, rows[k].0)
  }

  lemma {:induction false} WriteAllWrites(s: Store, before: Store, docs: Documents, rows: seq<(string, Annotation)>, actor: string, now: real)
    requires Inv(s, docs) && Remaining(s, before, rows) && DistinctIds(rows)
    requires forall r :: r in rows ==> AnnotationOk(docs, Drafted(r.1))
    ensures var r := WriteAll(s, before, rows, actor, now);
      r.Ok? && Extends(s, r.value) && AllWritten(s, r.value, rows, actor, now)
    decreases |rows|
  {
    if rows != [] {
      assert LogOk(s, docs, rows[0].0);
      var w := WriteTx(s, rows[0].0, Drafted(rows[0].1), RevisionOf(before, rows[0].0), actor, now);
      assert w.Ok?;
      WriteKeeps(s, docs, rows[0].0, Drafted(rows[0].1), RevisionOf(before, rows[0].0), actor, now);
      forall k | 0 <= k < |rows[1..]| ensures RevisionOf(w.value, rows[1..][k].0) == RevisionOf(before, rows[1..][k].0) {
        assert rows[1..][k] == rows[k + 1] && rows[0].0 != rows[k + 1].0;
      }
      WriteAllWrites(w.value, before, docs, rows[1..], actor, now);
      FirstRow(s, w.value, WriteAll(w.value, before, rows[1..], actor, now).value, rows, actor, now);
    }
  }

  /** A case named twice: the second write meets the revision of the first. */
  lemma {:induction false} RepeatedRowFails(s: Store, before: Store, rows: seq<(string, Annotation)>, i: nat, j: nat, actor: string, now: real)
    requires i < j < |rows| && rows[i].0 == rows[j].0
    ensures WriteAll(s, before, rows, actor, now).Err?
    decreases |rows|
  {
    var w := WriteTx(s, rows[0].0, Drafted(rows[0].1), RevisionOf(before, rows[0].0), actor, now);
    if w.Ok? {
      assert rows[1..][j - 1] == rows[j];
      if i > 0 {
        assert rows[1..][i - 1] == rows[i];
        RepeatedRowFails(w.value, before, rows[1..], i - 1, j - 1, actor, now);
      } else {
        WrittenRowFails(w.value, before, rows[1..], j - 1, actor, now);
      }
    }
  }

  lemma {:induction false} WrittenRowFails(s: Store, before: Store, rows: seq<(string, Annotation)>, j: nat, actor: string, now: real)
    requires j < |rows| && RevisionOf(s, rows[j].0) > RevisionOf(before, rows[j].0)
    ensures WriteAll(s, before, rows, actor, now).Err?
    decreases |rows|
  {
    var w := WriteTx(s, rows[0].0, Drafted(rows[0].1), RevisionOf(before, rows[0].0), actor, now);
    if w.Ok? && j > 0 {
      assert rows[1..][j - 1] == rows[j];
      WrittenRowFails(w.value, before, rows[1..], j - 1, actor, now);
    }
  }

  predicate HasCase(cases: seq<Case>, id: string)
  {
    exists i :: 0 <= i < |cases| && cases[i].id == id
  }

  predicate HasRow(rows: seq<(string, Annotation)>, id: string)
  {
    exists k :: 0 <= k < |rows| && rows[k].0 == id
  }

  /** The import names the known cases and no others, as many times. */
  ghost predicate NamesCases(cases: seq<Case>, rows: seq<(string, Annotation)>)
  {
    |rows| == |cases| && forall id {:trigger HasRow(rows, id)} {:trigger HasCase(cases, id)} :: HasRow(rows, id) <==> HasCase(cases, id)
  }

  ghost predicate SoundDrafts(docs: Documents, rows: seq<(string, Annotation)>)
  {
    forall k {:trigger rows[k]} :: 0 <= k < |rows| ==> AnnotationOk(docs, rows[k].1.(status := Draft))
  }

  lemma CoversIff(cases: seq<Case>, rows: seq<(string, Annotation)>)
    ensures Covers(cases, rows) <==> NamesCases(cases, rows)
  {
    var a, b := set r | r in rows :: r.0, set c | c in cases :: c.id;
    forall id ensures HasRow(rows, id) <==> id in a {
      if id in a {
        var r :| r in rows && r.0 == id;
        var k :| 0 <= k < |rows| && rows[k] == r;
      }
      if k :| 0 <= k < |rows| && rows[k].0 == id { assert rows[k] in rows; }
    }
    forall id ensures HasCase(cases, id) <==> id in b {
      if id in b {
        var c :| c in cases && c.id == id;
        var i :| 0 <= i < |cases| && cases[i] == c;
      }
      if i :| 0 <= i < |cases| && cases[i].id == id { assert cases[i] in cases; }
    }
    if NamesCases(cases, rows) {
      assert forall id :: id in a <==> id in b by {
        forall id ensures id in a <==> id in b { assert HasRow(rows, id) <==> HasCase(cases, id); }
      }
      assert a == b;
    }
  }

  lemma SoundIff(docs: Documents, rows: seq<(string, Annotation)>)
    ensures SoundDrafts(docs, rows) <==> forall r :: r in rows ==> AnnotationOk(docs, Drafted(r.1))
  {
    if SoundDrafts(docs, rows) {
      forall r | r in rows ensures AnnotationOk(docs, Drafted(r.1)) {
        var k :| 0 <= k < |rows| && rows[k] == r;
      }
    } else {
      var k :| 0 <= k < |rows| && !AnnotationOk(docs, rows[k].1.(status := Draft));
      assert rows[k] in rows && !AnnotationOk(docs, Drafted(rows[k].1));
    }
  }

  lemma NotImported(s: Store, docs: Documents, cases: seq<Case>, rows: seq<(string, Annotation)>, expected: nat, actor: string, now: real)
    requires !NamesCases(cases, rows) || !SoundDrafts(docs, rows) || s.revision != expected
    ensures ImportTx(s, docs, cases, rows, expected, actor, now) == s
  {
    CoversIff(cases, rows);
    SoundIff(docs, rows);
  }

  lemma Imported(s: Store, docs: Documents, cases: seq<Case>, rows: seq<(string, Annotation)>, expected: nat, actor: string, now: real)
    requires NamesCases(cases, rows) && SoundDrafts(docs, rows) && s.revision == expected
    ensures ImportTx(s, docs, cases, rows, expected, actor, now) ==
      match WriteAll(s, s, rows, actor, now)
      case Ok(s') => s'.(revision := expected + 1)
      case Err(_) => s
  {
    CoversIff(cases, rows);
    SoundIff(docs, rows);
  }

  /**
   An import takes effect as a whole or not at all: exactly when it names the known cases, every row is
   a sound draft, no case is named twice and nobody has saved since it was prepared. Then every case
   shows its row as a draft, at its next revision.
   */
  lemma ImportDecides(s: Store, docs: Documents, cases: seq<Case>, rows: seq<(string, Annotation)>, expected: nat, actor: string, now: real)
    requires Inv(s, docs)
    ensures var s' := ImportTx(s, docs, cases, rows, expected, actor, now);
      if NamesCases(cases, rows) && SoundDrafts(docs, rows) && DistinctIds(rows) && s.revision == expected
      then s'.revision == expected + 1 && AllWritten(s, s'.(revision := s.revision), rows, actor, now)
      else s' == s
  {
    if NamesCases(cases, rows) && SoundDrafts(docs, rows) && s.revision == expected {
      Imported(s, docs, cases, rows, expected, actor, now);
      if DistinctIds(rows) {
        SoundIff(docs, rows);
        WriteAllWrites(s, s, docs, rows, actor, now);
        var s' := WriteAll(s, s, rows, actor, now).value;
        assert s' == s'.(revision := s.revision);
      } else {
        var i, j :| 0 <= i < j < |rows| && rows[i].0 == rows[j].0;
        RepeatedRowFails(s, s, rows, i, j, actor, now);
      }
    } else {
      NotImported(s, docs, cases, rows, expected, actor, now);
    }
  }

  // ----- exporting -----

  /** An export has one row per case, in order: what the workspace shows, or an unsigned blank. */
  lemma ExportShows(s: Store, cases: seq<Case>, i: nat)
    requires i < |cases|
    ensures var e := ExportOf(s, cases); var c := cases[i];
      && |e.reviews| == |cases|
      && (e.humanReviewed <==> forall k :: 0 <= k < |cases| ==>
            cases[k].id in s.annotations && s.annotations[cases[k].id].annotation.status.Approved?)
      && e.reviews[i] ==
           if c.id in s.annotations then
             var row := s.annotations[c.id]; var a := row.annotation;
             Review(c.id, a.status.Approved?, row.actor, Some(row.updatedAt), a.notes, a.gold, a.outcome, a.evidence, row.revision)
           else Review(c.id, false, "", None, "", [], c.outcome, [], 0)
  {
    var e := ExportOf(s, cases);
    assert forall k :: 0 <= k < |cases| ==>
      (e.reviews[k].approved <==> cases[k].id in s.annotations && s.annotations[cases[k].id].annotation.status.Approved?);
  }
}
