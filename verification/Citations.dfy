/**
 From document pages to accepted citations: the release index built from split pages
 (knowledge_ingestion.py), the citations a search returns and the check made on them before they
 are shown (app/platform/retrieval.py).
 */
module Citations {
  import opened Wrappers
  import opened Chunking

  /** The hash of version, ordinal and text identifies a chunk; hashes are collision free. */
  datatype ChunkId = ChunkId(version: string, ordinal: nat)

  datatype Item = Item(id: ChunkId, document: string, version: string, piece: Piece)

  datatype Version = Version(document: string, version: string, pages: seq<(int, string)>)

  datatype Citation = Citation(id: ChunkId, version: string, release: string, quote: string, page: int, start: nat, end: nat)

  datatype CitationError = CitationInvalid

  function VersionItems(v: Version): seq<Item>
  {
    var pieces := AllPieces(v.pages);
    seq(|pieces|, i requires 0 <= i < |pieces| => Item(ChunkId(v.version, i), v.document, v.version, pieces[i]))
  }

  /** The index of a release: the ready chunks of its document versions. */
  function Index(versions: seq<Version>): seq<Item>
  {
    if versions == [] then [] else Index(versions[..|versions| - 1]) + VersionItems(versions[|versions| - 1])
  }

  function Cite(release: string, item: Item): Citation
  {
    Citation(item.id, item.version, release, item.piece.text, item.piece.page, item.piece.start, item.piece.end)
  }

  /** Hits of documents that are live when the search returns; `hits` is any selection of items. */
  function SearchCitations(release: string, hits: seq<Item>, live: set<string>): seq<Citation>
  {
    if hits == [] then []
    else
      SearchCitations(release, hits[..|hits| - 1], live)
      + if hits[|hits| - 1].document in live then [Cite(release, hits[|hits| - 1])] else []
  }

  /** The last item of the index with this id, as building a dictionary from the list leaves it. */
  function Lookup(index: seq<Item>, id: ChunkId): Option<Item>
  {
    if index == [] then None
    else if index[|index| - 1].id == id then Some(index[|index| - 1])
    else Lookup(index[..|index| - 1], id)
  }

  predicate QuotedAt(text: string, quote: string, i: nat)
  {
    i + |quote| <= |text| && text[i..i + |quote|] == quote
  }

  predicate Contains(text: string, quote: string)
  {
    exists i :: 0 <= i <= |text| && QuotedAt(text, quote, i)
  }

  predicate Acceptable(release: string, index: seq<Item>, deleted: set<string>, c: Citation)
  {
    var item := Lookup(index, c.id);
    && item.Some? && item.value.document !in deleted && c.release == release && c.version == item.value.version
    && c.quote != "" && Contains(item.value.piece.text, c.quote)
  }

  method ValidateCitations(release: string, index: seq<Item>, deleted: set<string>, citations: seq<Citation>)
    returns (r: Result<(), CitationError>)
    ensures r.Ok? <==> forall c :: c in citations ==> Acceptable(release, index, deleted, c)
  {
    var items: map<ChunkId, Item> := map[];
    for i := 0 to |index|
      invariant forall id :: (id in items <==> Lookup(index[..i], id).Some?)
      invariant forall id :: id in items ==> Lookup(index[..i], id) == Some(items[id])
    {
      assert index[..i + 1][..i] == index[..i];
      items := items[index[i].id := index[i]];
    }
    assert index[..|index|] == index;
    for i := 0 to |citations|
      invariant forall k :: 0 <= k < i ==> Acceptable(release, index, deleted, citations[k])
    {
      var c := citations[i];
      if c.id !in items || items[c.id].document in deleted || c.release != release || c.version != items[c.id].version
         || c.quote == "" || !Contains(items[c.id].piece.text, c.quote) {
        assert !Acceptable(release, index, deleted, c);
        return Err(CitationInvalid);
      }
    }
    return Ok(());
  }

  // ----- the index -----

  predicate DistinctVersions(versions: seq<Version>)
  {
    forall i, j :: 0 <= i < j < |versions| ==> versions[i].version != versions[j].version
  }

  predicate FromPage(v: Version, k: nat, item: Item)
  {
    && k < |v.pages| && item.version == v.version && item.document == v.document
    && Produces(v.pages[k].0, v.pages[k].1, item.piece)
  }

  /** Every item is a non-blank stretch of a page of its own version. */
  lemma {:induction false} IndexComesFromPages(versions: seq<Version>, item: Item) returns (v: nat, k: nat)
    requires item in Index(versions)
    ensures v < |versions| && FromPage(versions[v], k, item)
  {
    var last := |versions| - 1;
    if item in VersionItems(versions[last]) {
      PiecesComeFromPages(versions[last].pages, item.piece);
      var page :| 0 <= page < |versions[last].pages| && Produces(versions[last].pages[page].0, versions[last].pages[page].1, item.piece);
      v, k := last, page;
    } else {
      v, k := IndexComesFromPages(versions[..last], item);
    }
  }

  lemma {:induction false} IdsNameVersions(versions: seq<Version>, item: Item)
    requires item in Index(versions)
    ensures item.id.version == item.version && exists v :: 0 <= v < |versions| && versions[v].version == item.version
  {
    var last := |versions| - 1;
    if item !in VersionItems(versions[last]) {
      IdsNameVersions(versions[..last], item);
      var v :| 0 <= v < |versions[..last]| && versions[..last][v].version == item.version;
      assert versions[v] == versions[..last][v];
    }
  }

  /** In a release without repeated versions, looking a chunk up gives that chunk. */
  lemma {:induction false} LookupFinds(versions: seq<Version>, item: Item)
    requires DistinctVersions(versions) && item in Index(versions)
    ensures Lookup(Index(versions), item.id) == Some(item)
    decreases |versions|
  {
    var last := |versions| - 1;
    var front, own := Index(versions[..last]), VersionItems(versions[last]);
    IdsNameVersions(versions, item);
    if item in own {
      LookupOwn(front, own, item);
    } else {
      IdsNameVersions(versions[..last], item);
      LookupFinds(versions[..last], item);
      LookupSkips(front, own, item.id);
    }
  }

  lemma {:induction false} LookupOwn(front: seq<Item>, own: seq<Item>, item: Item)
    requires item in own
    requires forall i, j :: 0 <= i < j < |own| ==> own[i].id != own[j].id
    ensures Lookup(front + own, item.id) == Some(item)
    decreases |own|
  {
    var rest := own[..|own| - 1];
    assert (front + own)[..|front + own| - 1] == front + rest;
    if own[|own| - 1] != item {
      LookupOwn(front, rest, item);
    }
  }

  lemma {:induction false} LookupSkips(front: seq<Item>, own: seq<Item>, id: ChunkId)
    requires forall i :: 0 <= i < |own| ==> own[i].id != id
    ensures Lookup(front + own, id) == Lookup(front, id)
    decreases |own|
  {
    if own == [] {
      assert front + own == front;
    } else {
      assert (front + own)[..|front + own| - 1] == front + own[..|own| - 1];
      LookupSkips(front, own[..|own| - 1], id);
    }
  }

  lemma {:induction false} CitationsQuoteHits(release: string, hits: seq<Item>, live: set<string>, c: Citation)
    requires c in SearchCitations(release, hits, live)
    ensures exists h :: h in hits && h.document in live && c == Cite(release, h)
  {
    var last := hits[|hits| - 1];
    if last.document in live && c == Cite(release, last) {
      assert last in hits;
    } else {
      CitationsQuoteHits(release, hits[..|hits| - 1], live, c);
    }
  }

  /**
   Every citation of a search is accepted: whatever items were selected, if no document has been
   deleted since the search returned, validation of its citations succeeds.
   */
  lemma SearchCitationsAreAccepted(release: string, versions: seq<Version>, hits: seq<Item>, live: set<string>, deleted: set<string>, c: Citation)
    requires DistinctVersions(versions)
    requires forall h :: h in hits ==> h in Index(versions)
    requires live !! deleted
    requires c in SearchCitations(release, hits, live)
    ensures Acceptable(release, Index(versions), deleted, c)
  {
    CitationsQuoteHits(release, hits, live, c);
    var h :| h in hits && h.document in live && c == Cite(release, h);
    LookupFinds(versions, h);
    var v, k := IndexComesFromPages(versions, h);
    assert QuotedAt(h.piece.text, c.quote, 0);
  }

  lemma {:induction false} LookupIsMember(index: seq<Item>, id: ChunkId)
    requires Lookup(index, id).Some?
    ensures Lookup(index, id).value in index
  {
    if index[|index| - 1].id != id {
      LookupIsMember(index[..|index| - 1], id);
    }
  }

  lemma QuoteWithin(text: string, start: nat, end: nat, quote: string)
    requires start <= end <= |text| && Contains(text[start..end], quote)
    ensures Contains(text, quote)
  {
    var i :| 0 <= i <= end - start && QuotedAt(text[start..end], quote, i);
    var inner, outer := text[start..end][i..i + |quote|], text[start + i..start + i + |quote|];
    assert |inner| == |outer| && forall k :: 0 <= k < |inner| ==> inner[k] == outer[k];
    assert inner == outer;
    assert QuotedAt(text, quote, start + i);
  }

  predicate QuotesVersion(v: Version, deleted: set<string>, c: Citation)
  {
    v.version == c.version && v.document !in deleted && exists k :: 0 <= k < |v.pages| && Contains(v.pages[k].1, c.quote)
  }

  /**
   And no citation can be invented: an accepted one quotes, character for character, a stretch of a
   page of the cited version, whose document is not deleted.
   */
  lemma AcceptedCitationsQuoteThePage(release: string, versions: seq<Version>, deleted: set<string>, c: Citation)
    requires Acceptable(release, Index(versions), deleted, c)
    ensures exists v :: v in versions && QuotesVersion(v, deleted, c)
  {
    LookupIsMember(Index(versions), c.id);
    var item := Lookup(Index(versions), c.id).value;
    var v, k := IndexComesFromPages(versions, item);
    QuoteWithin(versions[v].pages[k].1, item.piece.start, item.piece.end, c.quote);
    assert QuotesVersion(versions[v], deleted, c);
  }

  /** Nothing is missing from an index: every non-blank window of every page is an item of its version. */
  lemma {:induction false} IndexIsComplete(versions: seq<Version>, v: nat, k: nat, w: (nat, nat)) returns (item: Item)
    requires v < |versions| && k < |versions[v].pages|
    requires var text := versions[v].pages[k].1; w in Windows(text, 0) && InText(text, w) && !Blank(text[w.0..w.1])
    ensures item in Index(versions) && item.version == versions[v].version && item.document == versions[v].document
    ensures item.piece == PieceAt(versions[v].pages[k].0, versions[v].pages[k].1, w.0, w.1)
  {
    var last := |versions| - 1;
    if v < last {
      assert versions[..last][v] == versions[v];
      item := IndexIsComplete(versions[..last], v, k, w);
    } else {
      var piece := PieceAt(versions[v].pages[k].0, versions[v].pages[k].1, w.0, w.1);
      PageIsSplit(versions[v].pages, k, w);
      var i :| 0 <= i < |AllPieces(versions[v].pages)| && AllPieces(versions[v].pages)[i] == piece;
      item := VersionItems(versions[v])[i];
      assert item in VersionItems(versions[v]);
    }
  }

  lemma {:induction false} PageIsSplit(pages: seq<(int, string)>, k: nat, w: (nat, nat))
    requires k < |pages| && w in Windows(pages[k].1, 0) && InText(pages[k].1, w) && !Blank(pages[k].1[w.0..w.1])
    ensures PieceAt(pages[k].0, pages[k].1, w.0, w.1) in AllPieces(pages)
  {
    var last := |pages| - 1;
    if k < last {
      assert pages[..last][k] == pages[k];
      PageIsSplit(pages[..last], k, w);
    } else {
      PiecesAreTheWindows(pages[last].0, pages[last].1, 0);
    }
  }

  function LiveHits(hits: seq<Item>, live: set<string>): set<nat>
  {
    set i: nat | i < |hits| && hits[i].document in live
  }

  /** A search cites exactly its live hits: as many citations, and every live hit among them. */
  lemma {:induction false} LiveHitsAreCited(release: string, hits: seq<Item>, live: set<string>)
    ensures |SearchCitations(release, hits, live)| == |LiveHits(hits, live)|
    ensures forall h :: h in hits && h.document in live ==> Cite(release, h) in SearchCitations(release, hits, live)
  {
    if hits == [] {
      assert LiveHits(hits, live) == {};
    } else {
      var front, last := hits[..|hits| - 1], hits[|hits| - 1];
      LiveHitsAreCited(release, front, live);
      assert LiveHits(hits, live) == LiveHits(front, live) + if last.document in live then {|hits| - 1} else {};
      forall h | h in hits && h.document in live ensures Cite(release, h) in SearchCitations(release, hits, live) {
        if h in front {} else { assert h == last; }
      }
    }
  }

  /** A citation says where to look: on the page it names, from start to end, is exactly its quote. */
  lemma CitationsLocate(release: string, versions: seq<Version>, hits: seq<Item>, live: set<string>, c: Citation) returns (v: nat, k: nat)
    requires forall h :: h in hits ==> h in Index(versions)
    requires c in SearchCitations(release, hits, live)
    ensures v < |versions| && k < |versions[v].pages| && versions[v].document in live && versions[v].version == c.version
    ensures versions[v].pages[k].0 == c.page && c.start < c.end <= |versions[v].pages[k].1|
    ensures versions[v].pages[k].1[c.start..c.end] == c.quote && c.release == release
  {
    CitationsQuoteHits(release, hits, live, c);
    var h :| h in hits && h.document in live && c == Cite(release, h);
    v, k := IndexComesFromPages(versions, h);
  }
}
