/**
 Hybrid search ranking of app/platform/retrieval.py over the reals: BM25, reciprocal rank fusion,
 the explicit reranker, the candidate pool and the evidence filter. Tokenisation, embeddings and
 the logarithm are inputs; chunk ids are represented by their position in the order of ids.
 */
module Ranking {
  import opened Wrappers

  datatype Item = Item(id: int, words: multiset<string>, similarity: real)

  /** Counts over the corpus that a BM25 score depends on. */
  datatype Stats = Stats(count: nat, words: nat, documents: map<string, nat>)

  datatype Mode = Vector | Bm25 | Hybrid

  datatype Profile = Profile(candidatePool: nat, rrfK: real, bm25Weight: real, vectorWeight: real)

  predicate ProfileOk(p: Profile)
  {
    p.candidatePool <= 100 && p.rrfK >= 1.0 && p.bm25Weight > 0.0 && p.vectorWeight > 0.0
  }

  /** The only facts used about the logarithm. */
  ghost predicate LogOk(log: real -> real)
  {
    forall x :: x > 1.0 ==> log(x) > 0.0
  }

  // ----- applicability -----

  /** One of the three scopes of a document: regions, channels or products. */
  datatype Dimension = Region | Channel | Product

  datatype Meta = Meta(effective: int, expires: Option<int>, policyType: string, scopes: map<Dimension, seq<string>>)

  datatype Context = Context(policyType: Option<string>, values: map<Dimension, string>)

  datatype Decision = Include | Clarify | Exclude

  datatype Reason = NotYetEffective | Expired | PolicyTypeMismatch | Missing(d: Dimension) | Mismatch(d: Dimension)

  const DIMENSIONS := [Region, Channel, Product]

  predicate Restricts(m: Meta, d: Dimension) { d in m.scopes && m.scopes[d] != [] }

  predicate Given(c: Context, d: Dimension) { d in c.values && c.values[d] != "" }

  predicate TypeDiffers(m: Meta, c: Context)
  {
    c.policyType.Some? && c.policyType.value != "" && c.policyType.value != m.policyType
  }

  predicate Lapsed(m: Meta, day: int) { m.expires.Some? && m.expires.value < day }

  /** The decision used by every search; it stops at the first mismatch. */
  method Applicable(m: Meta, c: Context, day: int) returns (r: Decision)
    ensures r == DecisionFor(Reasons(m, c, day))
  {
    if m.effective > day || Lapsed(m, day) || TypeDiffers(m, c) {
      var why := if m.effective > day then NotYetEffective else if Lapsed(m, day) then Expired else PolicyTypeMismatch;
      assert why in Reasons(m, c, day) && !why.Missing?;
      return Exclude;
    }
    var missing := false;
    for i := 0 to |DIMENSIONS|
      invariant forall k :: 0 <= k < i ==> ReasonFor(m, c, DIMENSIONS[k]) != [Mismatch(DIMENSIONS[k])]
      invariant missing <==> exists k :: 0 <= k < i && ReasonFor(m, c, DIMENSIONS[k]) == [Missing(DIMENSIONS[k])]
    {
      var d := DIMENSIONS[i];
      if Restricts(m, d) {
        if !Given(c, d) {
          missing := true;
        } else if c.values[d] !in m.scopes[d] {
          assert Mismatch(d) in Reasons(m, c, day);
          return Exclude;
        }
      }
    }
    assert DIMENSIONS[0] == Region && DIMENSIONS[1] == Channel && DIMENSIONS[2] == Product;
    assert forall k :: 0 <= k < 3 ==> ReasonFor(m, c, DIMENSIONS[k]) in {[], [Missing(DIMENSIONS[k])]};
    assert forall r :: r in Reasons(m, c, day) ==> r.Missing?;
    if missing {
      var k :| 0 <= k < |DIMENSIONS| && ReasonFor(m, c, DIMENSIONS[k]) == [Missing(DIMENSIONS[k])];
      assert Missing(DIMENSIONS[k]) in Reasons(m, c, day);
    } else {
      assert ReasonFor(m, c, DIMENSIONS[0]) == ReasonFor(m, c, DIMENSIONS[1]) == ReasonFor(m, c, DIMENSIONS[2]) == [];
    }
    return if missing then Clarify else Include;
  }

  function ReasonFor(m: Meta, c: Context, d: Dimension): seq<Reason>
  {
    if !Restricts(m, d) then [] else if !Given(c, d) then [Missing(d)] else if c.values[d] !in m.scopes[d] then [Mismatch(d)] else []
  }

  /** The explanation given to operators, computed separately from the decision. */
  function Reasons(m: Meta, c: Context, day: int): seq<Reason>
  {
    (if m.effective > day then [NotYetEffective] else []) + (if Lapsed(m, day) then [Expired] else [])
    + (if TypeDiffers(m, c) then [PolicyTypeMismatch] else [])
    + ReasonFor(m, c, Region) + ReasonFor(m, c, Channel) + ReasonFor(m, c, Product)
  }

  /** A document is excluded for any reason but a missing value, and clean only without reasons. */
  function DecisionFor(reasons: seq<Reason>): Decision
  {
    if exists r :: r in reasons && !r.Missing? then Exclude else if reasons != [] then Clarify else Include
  }

  // ----- BM25 -----

  function SumBy(items: seq<Item>, f: Item -> nat): nat
  {
    if items == [] then 0 else SumBy(items[..|items| - 1], f) + f(items[|items| - 1])
  }

  function Length(): Item -> nat { (x: Item) => |x.words| }

  function Mentions(term: string): Item -> nat { (x: Item) => if term in x.words then 1 else 0 }

  function StatsOf(q: set<string>, items: seq<Item>): Stats
  {
    Stats(|items|, SumBy(items, Length()), map t | t in q :: SumBy(items, Mentions(t)))
  }

  function Average(st: Stats): real
  {
    var avg := st.words as real / (if st.count > 1 then st.count else 1) as real;
    if avg == 0.0 then 1.0 else avg
  }

  /** Every document of the corpus is counted at most once per term. */
  predicate StatsOk(st: Stats)
  {
    forall t :: t in st.documents ==> st.documents[t] <= st.count
  }

  /** The inverse document frequency of a term. */
  function Rarity(count: nat, documents: nat, log: real -> real): real
  {
    log(1.0 + (count as real - documents as real + 0.5) / (documents as real + 0.5))
  }

  function Weight(idf: real, tf: real, ratio: real): real
    requires tf > 0.0 && ratio >= 0.0
  {
    idf * tf * 2.2 / (tf + 1.2 * (0.25 + 0.75 * ratio))
  }

  function TermScore(st: Stats, log: real -> real, term: string, words: multiset<string>): real
    requires StatsOk(st)
  {
    if term !in st.documents || words[term] == 0 then 0.0
    else
      PositiveAverage(st);
      DivNonNegative(|words| as real, Average(st));
      Weight(Rarity(st.count, st.documents[term], log), words[term] as real, |words| as real / Average(st))
  }

  lemma DivNonNegative(a: real, b: real)
    requires a >= 0.0 && b > 0.0
    ensures a / b >= 0.0 && (a > 0.0 ==> a / b > 0.0)
  {}

  lemma PositiveAverage(st: Stats)
    ensures Average(st) > 0.0
  {
    DivNonNegative(st.words as real, (if st.count > 1 then st.count else 1) as real);
  }

  ghost function Score(st: Stats, log: real -> real, q: set<string>, words: multiset<string>): real
    requires StatsOk(st)
  {
    if q == {} then 0.0
    else
      var t :| t in q;
      TermScore(st, log, t, words) + Score(st, log, q - {t}, words)
  }

  lemma {:induction false} ScoreSplits(st: Stats, log: real -> real, q: set<string>, words: multiset<string>, t: string)
    requires StatsOk(st) && t in q
    ensures Score(st, log, q, words) == TermScore(st, log, t, words) + Score(st, log, q - {t}, words)
    decreases |q|
  {
    var u :| u in q && Score(st, log, q, words) == TermScore(st, log, u, words) + Score(st, log, q - {u}, words);
    if u != t {
      ScoreSplits(st, log, q - {u}, words, t);
      ScoreSplits(st, log, q - {t}, words, u);
      assert q - {u} - {t} == q - {t} - {u};
    }
  }

  lemma TermPositive(st: Stats, log: real -> real, term: string, words: multiset<string>)
    requires StatsOk(st) && LogOk(log)
    ensures TermScore(st, log, term, words) >= 0.0
    ensures TermScore(st, log, term, words) > 0.0 <==> term in st.documents && term in words
  {
    if term in st.documents && words[term] > 0 {
      PositiveAverage(st);
      DivNonNegative(|words| as real, Average(st));
      RarityPositive(st.count, st.documents[term], log);
      WeightPositive(Rarity(st.count, st.documents[term], log), words[term] as real, |words| as real / Average(st));
    }
  }

  lemma RarityPositive(count: nat, documents: nat, log: real -> real)
    requires documents <= count && LogOk(log)
    ensures Rarity(count, documents, log) > 0.0
  {
    DivNonNegative(count as real - documents as real + 0.5, documents as real + 0.5);
  }

  lemma WeightPositive(idf: real, tf: real, ratio: real)
    requires idf > 0.0 && tf > 0.0 && ratio >= 0.0
    ensures Weight(idf, tf, ratio) > 0.0
  {
    MulPositive(idf, tf);
    DivNonNegative(idf * tf * 2.2, tf + 1.2 * (0.25 + 0.75 * ratio));
  }

  lemma MulPositive(a: real, b: real)
    requires a > 0.0 && b > 0.0
    ensures a * b > 0.0
  {}

  /** A BM25 score is never negative, and positive exactly when query and document share a token. */
  lemma {:induction false} Bm25Positive(st: Stats, log: real -> real, q: set<string>, words: multiset<string>)
    requires StatsOk(st) && LogOk(log) && q <= st.documents.Keys
    ensures Score(st, log, q, words) >= 0.0
    ensures Score(st, log, q, words) > 0.0 <==> exists t :: t in q && t in words
    decreases |q|
  {
    if q != {} {
      var t :| t in q && Score(st, log, q, words) == TermScore(st, log, t, words) + Score(st, log, q - {t}, words);
      TermPositive(st, log, t, words);
      Bm25Positive(st, log, q - {t}, words);
    }
  }

  lemma {:induction false} MentionsBounded(items: seq<Item>, term: string)
    ensures SumBy(items, Mentions(term)) <= |items|
  {
    if items != [] { MentionsBounded(items[..|items| - 1], term); }
  }

  lemma StatsAreOk(q: set<string>, items: seq<Item>)
    ensures StatsOk(StatsOf(q, items))
  {
    forall t | t in q ensures SumBy(items, Mentions(t)) <= |items| { MentionsBounded(items, t); }
  }

  method ScoreDocument(st: Stats, log: real -> real, q: set<string>, doc: multiset<string>) returns (score: real)
    requires StatsOk(st)
    ensures score == Score(st, log, q, doc)
  {
    score := 0.0;
    var todo := q;
    while todo != {}
      invariant score + Score(st, log, todo, doc) == Score(st, log, q, doc)
      decreases |todo|
    {
      var term :| term in todo;
      ScoreSplits(st, log, todo, doc, term);
      if doc[term] != 0 {
        score := score + TermScore(st, log, term, doc);
      }
      todo := todo - {term};
    }
  }

  /** The BM25 score of every document against the query, in the order of the corpus. */
  method Bm25Scores(q: set<string>, corpus: seq<Item>, log: real -> real) returns (scores: seq<real>)
    ensures |scores| == |corpus|
    ensures StatsOk(StatsOf(q, corpus))
    ensures forall i :: 0 <= i < |corpus| ==> scores[i] == Score(StatsOf(q, corpus), log, q, corpus[i].words)
  {
    StatsAreOk(q, corpus);
    var st := StatsOf(q, corpus);
    scores := [];
    for i := 0 to |corpus|
      invariant |scores| == i
      invariant forall k :: 0 <= k < i ==> scores[k] == Score(st, log, q, corpus[k].words)
    {
      var score := ScoreDocument(st, log, q, corpus[i].words);
      scores := scores + [score];
    }
  }

  // ----- sorting by (-score, id) -----

  predicate Before(score: Item -> real, a: Item, b: Item)
  {
    score(a) > score(b) || (score(a) == score(b) && a.id < b.id)
  }

  function Insert(score: Item -> real, x: Item, sorted: seq<Item>): seq<Item>
  {
    if sorted == [] || Before(score, x, sorted[0]) then [x] + sorted else [sorted[0]] + Insert(score, x, sorted[1..])
  }

  function Sort(score: Item -> real, items: seq<Item>): seq<Item>
  {
    if items == [] then [] else Insert(score, items[0], Sort(score, items[1..]))
  }

  predicate Sorted(score: Item -> real, s: seq<Item>)
  {
    forall i, j :: 0 <= i < j < |s| ==> Before(score, s[i], s[j])
  }

  predicate DistinctIds(s: seq<Item>)
  {
    forall i, j :: 0 <= i < j < |s| ==> s[i].id != s[j].id
  }

  // ----- ranks and scores -----

  /** Ranks start at 1; items without a positive score have none. */
  function Ranks(score: Item -> real, sorted: seq<Item>): map<int, nat>
  {
    if sorted == [] then map[]
    else
      var x, rest := sorted[|sorted| - 1], Ranks(score, sorted[..|sorted| - 1]);
      if score(x) > 0.0 then rest[x.id := |sorted|] else rest
  }

  function Share(ranks: map<int, nat>, id: int, weight: real, k: real): real
    requires k >= 1.0
  {
    if id in ranks then weight / (k + ranks[id] as real) else 0.0
  }

  function Fused(p: Profile, lexical: map<int, nat>, vector: map<int, nat>, x: Item): real
    requires ProfileOk(p)
  {
    Share(lexical, x.id, p.bm25Weight, p.rrfK) + Share(vector, x.id, p.vectorWeight, p.rrfK)
  }

  ghost function LexicalBy(st: Stats, log: real -> real, q: set<string>): Item -> real
    requires StatsOk(st)
  {
    (x: Item) => Score(st, log, q, x.words)
  }

  /** In pure BM25 mode no query vector is computed and all similarities count as 0. */
  function SimilarityBy(mode: Mode): Item -> real
  {
    (x: Item) => if mode.Bm25? then 0.0 else x.similarity
  }

  /** What a search is asked for; `boost` is the reranker's factor for a chunk, 1 when it is off. */
  datatype Search = Search(query: set<string>, mode: Mode, profile: Profile, boost: int -> real, overlap: Option<nat>)

  ghost function ScoreBy(sr: Search, st: Stats, log: real -> real, lexical: map<int, nat>, vector: map<int, nat>): Item -> real
    requires StatsOk(st) && ProfileOk(sr.profile)
  {
    (x: Item) =>
      (match sr.mode
       case Bm25 => Score(st, log, sr.query, x.words)
       case Vector => x.similarity
       case Hybrid => Fused(sr.profile, lexical, vector, x)) * sr.boost(x.id)
  }

  ghost function FinalScore(sr: Search, log: real -> real, items: seq<Item>): Item -> real
    requires ProfileOk(sr.profile)
  {
    StatsAreOk(sr.query, items);
    var st := StatsOf(sr.query, items);
    var lexical := LexicalBy(st, log, sr.query);
    var vector := SimilarityBy(sr.mode);
    ScoreBy(sr, st, log, Ranks(lexical, Sort(lexical, items)), Ranks(vector, Sort(vector, items)))
  }

  // ----- selection -----

  function Keep(p: Item -> bool, s: seq<Item>): seq<Item>
  {
    if s == [] then [] else Keep(p, s[..|s| - 1]) + if p(s[|s| - 1]) then [s[|s| - 1]] else []
  }

  ghost function Positive(score: Item -> real): Item -> bool { (x: Item) => score(x) > 0.0 }

  /** A lexical projection alone is no evidence: `overlap` says how many tokens must be shared, at least one. */
  predicate Supported(sr: Search, x: Item)
  {
    sr.overlap.Some? ==> |set t | t in sr.query && t in x.words| >= sr.overlap.value && exists t :: t in sr.query && t in x.words
  }

  function Evidence(sr: Search): Item -> bool { (x: Item) => Supported(sr, x) }

  function Live(live: set<int>): Item -> bool { (x: Item) => x.id in live }

  function Min(a: int, b: int): int { if a < b then a else b }
  function Max(a: int, b: int): int { if a > b then a else b }

  function TopK(k: int): nat { Max(1, Min(k, 20)) }

  function PoolSize(p: Profile, k: int): nat
  {
    Max(TopK(k), Min(if p.candidatePool > 0 then Max(k, p.candidatePool) else k, 100))
  }

  function Take(n: nat, s: seq<Item>): seq<Item>
  {
    if n < |s| then s[..n] else s
  }

  /** `live`: the chunks of documents not deleted when the search returns. */
  ghost function Results(sr: Search, log: real -> real, items: seq<Item>, k: int, live: set<int>): seq<Item>
    requires ProfileOk(sr.profile)
  {
    var score := FinalScore(sr, log, items);
    var pool := Take(PoolSize(sr.profile, k), Keep(Positive(score), Sort(score, items)));
    Keep(Live(live), Take(TopK(k), Keep(Evidence(sr), pool)))
  }
}
