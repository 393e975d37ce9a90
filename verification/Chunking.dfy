/**
 Splitting document pages into searchable pieces, split_pages of
 app/platform/knowledge_documents.py. A window is cut after the last line break of its second
 part when there is one, and blank windows are dropped.
 */
module Chunking {
  import opened Wrappers

  datatype Piece = Piece(text: string, page: int, start: nat, end: nat, line: nat)

  datatype ChunkError = ChunkLimit

  /** The characters that `str.strip` removes. */
  predicate IsSpace(c: char)
  {
    || '\U{0009}' <= c <= '\U{000d}' || '\U{001c}' <= c <= '\U{0020}' || c in {'\U{0085}', '\U{00a0}', '\U{1680}'}
    || '\U{2000}' <= c <= '\U{200a}' || c in {'\U{2028}', '\U{2029}', '\U{202f}', '\U{205f}', '\U{3000}'}
  }

  predicate Blank(s: string)
  {
    forall i :: 0 <= i < |s| ==> IsSpace(s[i])
  }

  function CountNewlines(s: string): nat
  {
    if s == "" then 0 else CountNewlines(s[..|s| - 1]) + if s[|s| - 1] == '\n' then 1 else 0
  }

  /** The position of the last line break in text[lo..hi], if any. */
  function LastBreak(text: string, lo: nat, hi: nat): (r: Option<nat>)
    requires hi <= |text|
    ensures r.Some? ==> lo <= r.value < hi && text[r.value] == '\n' && forall i :: r.value < i < hi ==> text[i] != '\n'
    ensures r.None? ==> forall i :: lo <= i < hi ==> text[i] != '\n'
    decreases hi
  {
    if hi <= lo then None
    else if text[hi - 1] == '\n' then Some(hi - 1)
    else LastBreak(text, lo, hi - 1)
  }

  /** Where the window starting at `offset` ends. */
  function WindowEnd(text: string, offset: nat): (end: nat)
    requires offset < |text|
    ensures offset < end <= |text|
  {
    if offset + 1000 >= |text| then |text|
    else
      match LastBreak(text, offset + 400, offset + 1000)
      case Some(b) => b + 1
      case None => offset + 1000
  }

  function PieceAt(page: int, text: string, start: nat, end: nat): Piece
    requires start <= end <= |text|
  {
    Piece(text[start..end], page, start, end, CountNewlines(text[..start]) + 1)
  }

  /** The pieces of one page from `offset` on. */
  function PagePieces(page: int, text: string, offset: nat): seq<Piece>
    requires offset <= |text|
    decreases |text| - offset
  {
    if offset == |text| then []
    else
      var end := WindowEnd(text, offset);
      (if Blank(text[offset..end]) then [] else [PieceAt(page, text, offset, end)]) + PagePieces(page, text, end)
  }

  function AllPieces(pages: seq<(int, string)>): seq<Piece>
  {
    if pages == [] then [] else AllPieces(pages[..|pages| - 1]) + PagePieces(pages[|pages| - 1].0, pages[|pages| - 1].1, 0)
  }

  method RFind(text: string, lo: nat, hi: nat) returns (r: int)
    requires hi <= |text|
    ensures r == match LastBreak(text, lo, hi) case Some(b) => b case None => -1
  {
    r := hi - 1;
    while r >= lo
      invariant -1 <= r < hi
      invariant r >= lo - 1 || hi < lo
      invariant LastBreak(text, lo, hi) == LastBreak(text, lo, r + 1)
      decreases r + 1
    {
      if text[r] == '\n' {
        return;
      }
      r := r - 1;
    }
    r := -1;
  }

  method SplitPage(page: int, text: string) returns (pieces: seq<Piece>)
    ensures pieces == PagePieces(page, text, 0)
  {
    pieces := [];
    var offset := 0;
    while offset < |text|
      invariant 0 <= offset <= |text|
      invariant PagePieces(page, text, 0) == pieces + PagePieces(page, text, offset)
      decreases |text| - offset
    {
      var end := if offset + 1000 < |text| then offset + 1000 else |text|;
      if end < |text| {
        var boundary := RFind(text, offset + 400, end);
        if boundary > offset {
          end := boundary + 1;
        }
      }
      assert end == WindowEnd(text, offset);
      var body := text[offset..end];
      if !Blank(body) {
        var piece := Piece(body, page, offset, end, CountNewlines(text[..offset]) + 1);
        assert pieces + ([piece] + PagePieces(page, text, end)) == (pieces + [piece]) + PagePieces(page, text, end);
        pieces := pieces + [piece];
      } else {
        assert [] + PagePieces(page, text, end) == PagePieces(page, text, end);
      }
      offset := end;
    }
  }

  method SplitPages(pages: seq<(int, string)>) returns (r: Result<seq<Piece>, ChunkError>)
    ensures r == if |AllPieces(pages)| > 2500 then Err(ChunkLimit) else Ok(AllPieces(pages))
  {
    var pieces := [];
    var i := 0;
    while i < |pages|
      invariant 0 <= i <= |pages| && pieces == AllPieces(pages[..i])
    {
      var found := SplitPage(pages[i].0, pages[i].1);
      pieces := pieces + found;
      assert pages[..i + 1][..i] == pages[..i];
      i := i + 1;
    }
    assert pages[..i] == pages;
    if |pieces| > 2500 {
      return Err(ChunkLimit);
    }
    return Ok(pieces);
  }

  // ----- the windows of a page, dropped ones included -----

  function Windows(text: string, offset: nat): seq<(nat, nat)>
    requires offset <= |text|
    decreases |text| - offset
  {
    if offset == |text| then [] else [(offset, WindowEnd(text, offset))] + Windows(text, WindowEnd(text, offset))
  }

  predicate InText(text: string, w: (nat, nat))
  {
    w.0 < w.1 <= |text|
  }

  /** No window is empty or over 1000 characters, and all but the last have at least 401. */
  lemma {:induction false} WindowSizes(text: string, offset: nat, i: nat)
    requires offset <= |text| && i < |Windows(text, offset)|
    ensures var (start, end) := Windows(text, offset)[i];
      && InText(text, (start, end)) && end - start <= 1000
      && (i < |Windows(text, offset)| - 1 ==> end - start >= 401)
    decreases |text| - offset
  {
    var end := WindowEnd(text, offset);
    if i > 0 {
      WindowSizes(text, end, i - 1);
    } else if |Windows(text, offset)| > 1 {
      assert end < |text|;
    }
  }

  /** Each window starts where the previous one ends; together they run from offset to the end. */
  lemma {:induction false} WindowsPartition(text: string, offset: nat)
    requires offset < |text|
    ensures var ws := Windows(text, offset);
      && ws != [] && ws[0].0 == offset && ws[|ws| - 1].1 == |text|
      && forall i :: 0 < i < |ws| ==> ws[i].0 == ws[i - 1].1
    decreases |text| - offset
  {
    var end := WindowEnd(text, offset);
    if end < |text| {
      WindowsPartition(text, end);
    }
  }

  /** A window that is not the last ends after the last line break it could, or is 1000 long. */
  lemma {:induction false} WindowsBreakAtLines(text: string, offset: nat, i: nat)
    requires offset <= |text| && i < |Windows(text, offset)| - 1
    ensures var (start, end) := Windows(text, offset)[i];
      && start + 1000 < |text| && InText(text, (start, end))
      && (forall k :: end <= k < start + 1000 ==> text[k] != '\n')
      && ((text[end - 1] == '\n' && end >= start + 401)
          || (end == start + 1000 && forall k :: start + 400 <= k < end ==> text[k] != '\n'))
    decreases |text| - offset
  {
    if i > 0 {
      WindowsBreakAtLines(text, WindowEnd(text, offset), i - 1);
    } else {
      assert WindowEnd(text, offset) < |text|;
    }
  }

  function Join(text: string, ws: seq<(nat, nat)>): string
    requires forall i :: 0 <= i < |ws| ==> InText(text, ws[i])
  {
    if ws == [] then ""
    else
      assert InText(text, ws[0]);
      text[ws[0].0..ws[0].1] + Join(text, ws[1..])
  }

  lemma {:induction false} WindowsInText(text: string, offset: nat)
    requires offset <= |text|
    ensures forall i :: 0 <= i < |Windows(text, offset)| ==> InText(text, Windows(text, offset)[i])
  {
    forall i | 0 <= i < |Windows(text, offset)| ensures InText(text, Windows(text, offset)[i]) {
      WindowSizes(text, offset, i);
    }
  }

  /** Nothing is lost or repeated: the windows put together again are the page. */
  lemma {:induction false} WindowsJoin(text: string, offset: nat)
    requires offset <= |text|
    requires forall i :: 0 <= i < |Windows(text, offset)| ==> InText(text, Windows(text, offset)[i])
    ensures Join(text, Windows(text, offset)) == text[offset..]
    decreases |text| - offset
  {
    if offset < |text| {
      var end := WindowEnd(text, offset);
      WindowsInText(text, end);
      WindowsJoin(text, end);
      assert Windows(text, offset)[1..] == Windows(text, end);
      assert text[offset..end] + text[end..] == text[offset..];
    }
  }

  /** The line of a piece is one more than the number of line breaks before it. */
  lemma {:induction false} LinesAreCounted(s: string)
    ensures CountNewlines(s) == |set k | 0 <= k < |s| && s[k] == '\n'|
  {
    var breaks := set k | 0 <= k < |s| && s[k] == '\n';
    if s == "" {
      assert breaks == {};
    } else {
      var front := s[..|s| - 1];
      LinesAreCounted(front);
      assert breaks == (set k | 0 <= k < |front| && front[k] == '\n') + if s[|s| - 1] == '\n' then {|s| - 1} else {};
    }
  }

  predicate Produces(page: int, text: string, p: Piece)
  {
    && p.page == page && InText(text, (p.start, p.end)) && p.text == text[p.start..p.end]
    && p.line == CountNewlines(text[..p.start]) + 1 && !Blank(p.text)
  }

  /**
   The pieces are exactly the non-blank windows: every piece is a window with its text and line,
   and every window that is not blank became a piece.
   */
  lemma {:induction false} PiecesAreTheWindows(page: int, text: string, offset: nat)
    requires offset <= |text|
    ensures forall p :: p in PagePieces(page, text, offset) ==>
      Produces(page, text, p) && (p.start, p.end) in Windows(text, offset)
    ensures forall w :: w in Windows(text, offset) && InText(text, w) && !Blank(text[w.0..w.1]) ==>
      PieceAt(page, text, w.0, w.1) in PagePieces(page, text, offset)
    decreases |text| - offset
  {
    if offset < |text| {
      PiecesAreTheWindows(page, text, WindowEnd(text, offset));
    }
  }

  /** Every piece of a document is a non-blank stretch of one of its pages. */
  lemma {:induction false} PiecesComeFromPages(pages: seq<(int, string)>, p: Piece)
    requires p in AllPieces(pages)
    ensures exists i :: 0 <= i < |pages| && Produces(pages[i].0, pages[i].1, p)
  {
    var last := |pages| - 1;
    if p in PagePieces(pages[last].0, pages[last].1, 0) {
      PiecesAreTheWindows(pages[last].0, pages[last].1, 0);
    } else {
      PiecesComeFromPages(pages[..last], p);
      var i :| 0 <= i < |pages[..last]| && Produces(pages[..last][i].0, pages[..last][i].1, p);
      assert pages[i] == pages[..last][i];
    }
  }
}
