/**
 What the numbers and decisions of a search mean: which documents apply, what BM25 counts and how it
 weighs, what a rank and a fused score are, and which items are returned.
 */
module RankingEffects {
  import opened Wrappers
  import opened Ranking
  import opened RankingLaws

  // ----- applicability -----

  /** The document names values for this dimension. */
  predicate Limited(m: Meta, d: Dimension)
  {
    d in m.scopes && |m.scopes[d]| > 0
  }

  predicate Silent(c: Context, d: Dimension)
  {
    d !in c.values || |c.values[d]| == 0
  }

  /** Not in force on that day, of another type, or limited to other values than the one given. */
  predicate RuledOut(m: Meta, c: Context, day: int)
  {
    || day < m.effective
    || (m.expires.Some? && day > m.expires.value)
    || (c.policyType.Some? && |c.policyType.value| > 0 && c.policyType.value != m.policyType)
    || exists d :: Limited(m, d) && !Silent(c, d) && c.values[d] !in m.scopes[d]
  }

  predicate OpenQuestion(m: Meta, c: Context)
  {
    exists d :: Limited(m, d) && Silent(c, d)
  }

  /** What a dimension contributes to the explanation, and that it speaks of no other. */
  lemma OwnReason(m: Meta, c: Context, d: Dimension)
    ensures Missing(d) in ReasonFor(m, c, d) <==> Limited(m, d) && Silent(c, d)
    ensures Mismatch(d) in ReasonFor(m, c, d) <==> Limited(m, d) && !Silent(c, d) && c.values[d] !in m.scopes[d]
    ensures forall r :: r in ReasonFor(m, c, d) ==> r == Missing(d) || r == Mismatch(d)
  {}

  /** The explanation in its parts. */
  lemma ReasonParts(m: Meta, c: Context, day: int, r: Reason)
    ensures r in Reasons(m, c, day) <==>
      || (r == NotYetEffective && day < m.effective)
      || (r == Expired && m.expires.Some? && day > m.expires.value)
      || (r == PolicyTypeMismatch && c.policyType.Some? && |c.policyType.value| > 0 && c.policyType.value != m.policyType)
      || r in ReasonFor(m, c, Region) || r in ReasonFor(m, c, Channel) || r in ReasonFor(m, c, Product)
  {}

  /** The reasons name exactly the dimensions they are about. */
  lemma DimensionReasons(m: Meta, c: Context, day: int, d: Dimension)
    ensures Missing(d) in Reasons(m, c, day) <==> Limited(m, d) && Silent(c, d)
    ensures Mismatch(d) in Reasons(m, c, day) <==> Limited(m, d) && !Silent(c, d) && c.values[d] !in m.scopes[d]
  {
    ReasonParts(m, c, day, Missing(d));
    ReasonParts(m, c, day, Mismatch(d));
    OwnReason(m, c, Region);
    OwnReason(m, c, Channel);
    OwnReason(m, c, Product);
    match d
    case _ =>
  }

  lemma RuledOutIff(m: Meta, c: Context, day: int)
    ensures RuledOut(m, c, day) <==> exists r :: r in Reasons(m, c, day) && !r.Missing?
  {
    if r :| r in Reasons(m, c, day) && !r.Missing? {
      ReasonParts(m, c, day, r);
      if r.Mismatch? { DimensionReasons(m, c, day, r.d); }
    }
    if RuledOut(m, c, day) {
      ReasonParts(m, c, day, NotYetEffective);
      ReasonParts(m, c, day, Expired);
      ReasonParts(m, c, day, PolicyTypeMismatch);
      if d :| Limited(m, d) && !Silent(c, d) && c.values[d] !in m.scopes[d] { DimensionReasons(m, c, day, d); }
    }
  }

  /** A document is excluded when ruled out, needs a question when a limited dimension is not given, and applies otherwise. */
  lemma DecisionIs(m: Meta, c: Context, day: int)
    ensures DecisionFor(Reasons(m, c, day)) == if RuledOut(m, c, day) then Exclude else if OpenQuestion(m, c) then Clarify else Include
  {
    var rs := Reasons(m, c, day);
    RuledOutIff(m, c, day);
    if !RuledOut(m, c, day) {
      if d :| Limited(m, d) && Silent(c, d) { DimensionReasons(m, c, day, d); }
      if rs != [] {
        var r := rs[0];
        assert r in rs && r.Missing?;
        DimensionReasons(m, c, day, r.d);
      }
    }
  }

  // ----- BM25 -----

  /** The positions of the documents that mention a term. */
  function Mentioning(items: seq<Item>, term: string): set<nat>
  {
    set i: nat | i < |items| && term in items[i].words
  }

  lemma {:induction false} MentionsAreCounted(items: seq<Item>, term: string)
    ensures SumBy(items, Mentions(term)) == |Mentioning(items, term)|
  {
    if items == [] {
      assert Mentioning(items, term) == {};
    } else {
      var front, n := items[..|items| - 1], |items| - 1;
      MentionsAreCounted(front, term);
      assert Mentioning(items, term) == Mentioning(front, term) + if term in items[n].words then {n} else {};
    }
  }

  function AllWords(items: seq<Item>): multiset<string>
  {
    if items == [] then multiset{} else AllWords(items[..|items| - 1]) + items[|items| - 1].words
  }

  lemma {:induction false} WordsAreCounted(items: seq<Item>)
    ensures SumBy(items, Length()) == |AllWords(items)|
  {
    if items != [] {
      WordsAreCounted(items[..|items| - 1]);
    }
  }

  /** The statistics are counts: documents, words, and for each term of the query the documents that mention it. */
  lemma StatsCount(q: set<string>, items: seq<Item>)
    ensures var st := StatsOf(q, items);
      && st.count == |items| && st.words == |AllWords(items)| && st.documents.Keys == q
      && (forall t :: t in q ==> st.documents[t] == |Mentioning(items, t)|)
      && (items != [] && |AllWords(items)| > 0 ==> Average(st) * |items| as real == |AllWords(items)| as real)
  {
    WordsAreCounted(items);
    forall t | t in q ensures StatsOf(q, items).documents[t] == |Mentioning(items, t)| { MentionsAreCounted(items, t); }
    if items != [] && |AllWords(items)| > 0 {
      Quotient(|AllWords(items)| as real, |items| as real);
    }
  }

  lemma Quotient(a: real, b: real)
    requires a > 0.0 && b > 0.0
    ensures a / b > 0.0 && (a / b) * b == a
  {}

  /** Once in a document of average length a term weighs exactly its rarity. */
  lemma OnceWeighsItsRarity(idf: real)
    requires idf > 0.0
    ensures Weight(idf, 1.0, 1.0) == idf
  {
    WeightIs(idf, 1.0, 1.0);
    assert 1.0 / (1.0 + (0.3 + 0.9 * 1.0)) * 2.2 == 1.0;
  }

  /** More often it weighs more, but less than 2.2 times its rarity. */
  lemma MoreOftenWeighsMore(idf: real, tf: real, more: real, ratio: real)
    requires idf > 0.0 && 0.0 < tf < more && ratio >= 0.0
    ensures Weight(idf, tf, ratio) < Weight(idf, more, ratio) < 2.2 * idf
  {
    WeightIs(idf, tf, ratio);
    WeightIs(idf, more, ratio);
    Saturation(idf, tf, more, 0.3 + 0.9 * ratio);
  }

  /** In a longer document it weighs less. */
  lemma LongerWeighsLess(idf: real, tf: real, ratio: real, longer: real)
    requires idf > 0.0 && tf > 0.0 && 0.0 <= ratio < longer
    ensures Weight(idf, tf, longer) < Weight(idf, tf, ratio)
  {
    WeightIs(idf, tf, ratio);
    WeightIs(idf, tf, longer);
    Longer(idf, tf, 0.3 + 0.9 * ratio, 0.3 + 0.9 * longer);
  }

  lemma WeightIs(idf: real, tf: real, ratio: real)
    requires idf > 0.0 && tf > 0.0 && ratio >= 0.0
    ensures Weight(idf, tf, ratio) == 2.2 * idf * (tf / (tf + (0.3 + 0.9 * ratio)))
  {
    assert 1.2 * (0.25 + 0.75 * ratio) == 0.3 + 0.9 * ratio;
    Fraction(idf, tf, 0.3 + 0.9 * ratio);
  }

  lemma Fraction(idf: real, tf: real, n: real)
    requires idf > 0.0 && tf > 0.0 && n > 0.0
    ensures idf * tf * 2.2 / (tf + n) == 2.2 * idf * (tf / (tf + n))
  {
    var share := tf / (tf + n);
    assert share * (tf + n) == tf;
    assert (2.2 * idf * share) * (tf + n) == 2.2 * idf * tf by {
      assert (2.2 * idf * share) * (tf + n) == (2.2 * idf) * (share * (tf + n));
    }
    Unique(idf * tf * 2.2, tf + n, 2.2 * idf * share);
  }

  lemma Unique(a: real, b: real, x: real)
    requires b > 0.0 && x * b == a
    ensures a / b == x
  {}

  lemma ShareGrows(a: real, b: real, n: real)
    requires 0.0 < a < b && n > 0.0
    ensures a / (a + n) < b / (b + n) < 1.0
  {
    var x, y := a / (a + n), b / (b + n);
    assert x * (a + n) == a && y * (b + n) == b;
    assert y < 1.0 by { LessThanOne(b, n); }
    if y <= x {
      assert x < 1.0 by { LessThanOne(a, n); }
      Products(x, y, n);
      assert x * a + x * n == a && y * b + y * n == b;
      assert (1.0 - x) * a == x * n && (1.0 - y) * b == y * n;
      Products2(1.0 - x, 1.0 - y, a, b);
    }
  }

  lemma LessThanOne(a: real, n: real)
    requires a > 0.0 && n > 0.0
    ensures a / (a + n) < 1.0
  {}

  lemma Products(x: real, y: real, n: real)
    requires y <= x && n > 0.0
    ensures y * n <= x * n
  {}

  lemma Products2(u: real, v: real, a: real, b: real)
    requires 0.0 < u <= v && 0.0 < a < b
    ensures u * a < v * b
  {
    assert u * a < u * b by { Scale(u, b - a); }
    assert u * b <= v * b by { if u < v { Scale(b, v - u); } }
  }

  lemma Scale(u: real, d: real)
    requires u > 0.0 && d > 0.0
    ensures u * d > 0.0
  {}

  lemma Saturation(idf: real, tf: real, more: real, n: real)
    requires idf > 0.0 && 0.0 < tf < more && n > 0.0
    ensures 2.2 * idf * (tf / (tf + n)) < 2.2 * idf * (more / (more + n)) < 2.2 * idf
  {
    ShareGrows(tf, more, n);
    Scale(2.2 * idf, more / (more + n) - tf / (tf + n));
    Scale(2.2 * idf, 1.0 - more / (more + n));
  }

  lemma Longer(idf: real, tf: real, n: real, l: real)
    requires idf > 0.0 && tf > 0.0 && 0.0 < n < l
    ensures 2.2 * idf * (tf / (tf + l)) < 2.2 * idf * (tf / (tf + n))
  {
    var x, y := tf / (tf + l), tf / (tf + n);
    assert x * (tf + l) == tf && y * (tf + n) == tf;
    if y <= x {
      Products2(y, x, tf + n, tf + l);
    }
    Scale(2.2 * idf, y - x);
  }

  /** A rarity is the logarithm of the documents plus one over the documents that mention the term plus a half. */
  lemma RarityIs(count: nat, documents: nat, log: real -> real)
    ensures Rarity(count, documents, log) == log((count + 1) as real / (documents as real + 0.5))
  {
    var a, c := documents as real + 0.5, count as real + 1.0;
    Quotients(c - a, a);
    assert c - a + a == c == (count + 1) as real && c - a == count as real - documents as real + 0.5;
  }

  lemma Quotients(u: real, a: real)
    requires a > 0.0
    ensures 1.0 + u / a == (u + a) / a
  {
    Unique(u + a, a, 1.0 + u / a);
  }

  /** The rarer the term, the greater its rarity, for an increasing logarithm. */
  lemma RarerWeighsMore(count: nat, few: nat, many: nat, log: real -> real)
    requires few < many <= count && forall x, y :: x < y ==> log(x) < log(y)
    ensures Rarity(count, few, log) > Rarity(count, many, log)
  {
    var a, b := few as real + 0.5, many as real + 0.5;
    var c := count as real + 1.0;
    var p, q := (c - a) / a, (c - b) / b;
    assert p * a == c - a && q * b == c - b;
    if p <= q {
      assert p > 0.0 by { DivNonNegative(c - a, a); }
      assert p * a + a == q * b + b;
      Products2(p, q, a, b);
    }
    assert count as real - few as real + 0.5 == c - a && count as real - many as real + 0.5 == c - b;
  }

  // ----- ranks and fusion -----

  /** An item's rank is its place in the order, counted from one; items without a positive score have none. */
  lemma {:induction false} RankIsPlace(score: Item -> real, sorted: seq<Item>, i: nat)
    requires DistinctIds(sorted) && i < |sorted|
    ensures sorted[i].id in Ranks(score, sorted) <==> score(sorted[i]) > 0.0
    ensures score(sorted[i]) > 0.0 ==> Ranks(score, sorted)[sorted[i].id] == i + 1
    ensures forall id :: id in Ranks(score, sorted) ==> exists j :: 0 <= j < |sorted| && sorted[j].id == id
    decreases |sorted|
  {
    var front := sorted[..|sorted| - 1];
    if i < |front| {
      RankIsPlace(score, front, i);
      assert forall id :: id in Ranks(score, front) ==> exists j :: 0 <= j < |front| && sorted[j].id == id by {
        assert forall j :: 0 <= j < |front| ==> front[j] == sorted[j];
      }
    } else if front != [] {
      RankIsPlace(score, front, 0);
      assert forall j :: 0 <= j < |front| ==> front[j] == sorted[j] && sorted[j].id != sorted[i].id;
    }
  }

  /** The fused score adds, for each ranking the item is in, its weight divided by k plus the rank. */
  lemma FusionAdds(p: Profile, lexical: map<int, nat>, vector: map<int, nat>, x: Item)
    requires ProfileOk(p)
    ensures var a := if x.id in lexical then p.bm25Weight / (lexical[x.id] as real + p.rrfK) else 0.0;
      var b := if x.id in vector then p.vectorWeight / (vector[x.id] as real + p.rrfK) else 0.0;
      Fused(p, lexical, vector, x) == a + b
  {}

  /** The items that come before x: a better score, or the same score and a smaller id. */
  ghost function Ahead(score: Item -> real, items: seq<Item>, x: Item): set<Item>
  {
    set y | y in items && (score(y) > score(x) || (score(y) == score(x) && y.id < x.id))
  }

  function Members(s: seq<Item>): set<Item> { set y | y in s }

  lemma {:induction false} PrefixSize(s: seq<Item>, i: nat)
    requires DistinctIds(s) && i <= |s|
    ensures |Members(s[..i])| == i
    decreases i
  {
    if i > 0 {
      PrefixSize(s, i - 1);
      assert Members(s[..i]) == Members(s[..i - 1]) + {s[i - 1]};
      assert forall j :: 0 <= j < i - 1 ==> s[j].id != s[i - 1].id;
      assert s[i - 1] !in s[..i - 1];
    }
  }

  lemma AheadIsThePrefix(score: Item -> real, s: seq<Item>, i: nat)
    requires Sorted(score, s) && i < |s|
    ensures Ahead(score, s, s[i]) == Members(s[..i])
  {
    forall y ensures y in Ahead(score, s, s[i]) <==> y in s[..i] {
      if y in s[..i] {
        var j :| 0 <= j < i && s[j] == y;
        assert Before(score, s[j], s[i]);
      }
      if y in Ahead(score, s, s[i]) {
        var j :| 0 <= j < |s| && s[j] == y;
        assert !Before(score, s[i], s[j]);
        assert j < i;
        assert s[..i][j] == y;
      }
    }
  }

  /** Among the items of an index, ranked by a score, an item has one plus as many as come before it. */
  lemma RankCounts(score: Item -> real, items: seq<Item>, x: Item)
    requires DistinctIds(items) && x in items
    ensures x.id in Ranks(score, Sort(score, items)) <==> score(x) > 0.0
    ensures score(x) > 0.0 ==> Ranks(score, Sort(score, items))[x.id] == 1 + |Ahead(score, items, x)|
  {
    var s := Sort(score, items);
    SortKeeps(score, items);
    SortedMembers(score, items);
    assert DistinctIds(s) by { SortedDistinct(score, items); }
    var i :| 0 <= i < |s| && s[i] == x;
    RankIsPlace(score, s, i);
    AheadIsThePrefix(score, s, i);
    PrefixSize(s, i);
    assert Ahead(score, items, x) == Ahead(score, s, x);
  }

  /** The share a ranking gives an item: nothing without a positive score, else its weight over k plus its rank. */
  ghost function Reciprocal(score: Item -> real, items: seq<Item>, x: Item, weight: real, k: real): real
    requires k >= 1.0
  {
    if score(x) > 0.0 then weight / (k + (1 + |Ahead(score, items, x)|) as real) else 0.0
  }

  lemma ShareIs(score: Item -> real, items: seq<Item>, x: Item, weight: real, k: real)
    requires DistinctIds(items) && x in items && k >= 1.0
    ensures Share(Ranks(score, Sort(score, items)), x.id, weight, k) == Reciprocal(score, items, x, weight, k)
  {
    RankCounts(score, items, x);
  }

  function Similarity(): Item -> real { (x: Item) => x.similarity }

  lemma FusedIs(p: Profile, lexical: Item -> real, similarity: Item -> real, items: seq<Item>, x: Item)
    requires ProfileOk(p) && DistinctIds(items) && x in items && forall y :: similarity(y) == Similarity()(y)
    ensures Fused(p, Ranks(lexical, Sort(lexical, items)), Ranks(similarity, Sort(similarity, items)), x) ==
      Reciprocal(lexical, items, x, p.bm25Weight, p.rrfK) + Reciprocal(Similarity(), items, x, p.vectorWeight, p.rrfK)
  {
    ShareIs(lexical, items, x, p.bm25Weight, p.rrfK);
    ShareIs(similarity, items, x, p.vectorWeight, p.rrfK);
    assert Ahead(similarity, items, x) == Ahead(Similarity(), items, x);
  }

  /** The score an item is ordered by, in each mode, before the reranker's factor. */
  ghost function BaseScore(sr: Search, log: real -> real, items: seq<Item>, x: Item): real
    requires ProfileOk(sr.profile)
  {
    StatsAreOk(sr.query, items);
    var lexical := LexicalBy(StatsOf(sr.query, items), log, sr.query);
    match sr.mode
    case Bm25 => lexical(x)
    case Vector => x.similarity
    case Hybrid =>
      Reciprocal(lexical, items, x, sr.profile.bm25Weight, sr.profile.rrfK)
      + Reciprocal(Similarity(), items, x, sr.profile.vectorWeight, sr.profile.rrfK)
  }

  ghost function Unboosted(sr: Search, st: Stats, log: real -> real, lexical: map<int, nat>, vector: map<int, nat>, x: Item): real
    requires StatsOk(st) && ProfileOk(sr.profile)
  {
    match sr.mode
    case Bm25 => LexicalBy(st, log, sr.query)(x)
    case Vector => x.similarity
    case Hybrid => Fused(sr.profile, lexical, vector, x)
  }

  lemma BoostedIs(sr: Search, st: Stats, log: real -> real, lexical: map<int, nat>, vector: map<int, nat>, x: Item)
    requires StatsOk(st) && ProfileOk(sr.profile)
    ensures ScoreBy(sr, st, log, lexical, vector)(x) == Unboosted(sr, st, log, lexical, vector, x) * sr.boost(x.id)
  {}

  /**
   The search orders its items by BM25, by similarity, or by the weighted reciprocal ranks, where a rank
   is one plus the number of items ahead; each times the reranker's factor.
   */
  lemma ScoreIs(sr: Search, log: real -> real, items: seq<Item>, x: Item)
    requires ProfileOk(sr.profile) && DistinctIds(items) && x in items
    ensures FinalScore(sr, log, items)(x) == BaseScore(sr, log, items, x) * sr.boost(x.id)
  {
    StatsAreOk(sr.query, items);
    var st := StatsOf(sr.query, items);
    var lexical, similarity := LexicalBy(st, log, sr.query), SimilarityBy(sr.mode);
    BoostedIs(sr, st, log, Ranks(lexical, Sort(lexical, items)), Ranks(similarity, Sort(similarity, items)), x);
    if sr.mode.Hybrid? { FusedIs(sr.profile, lexical, similarity, items, x); }
    assert Unboosted(sr, st, log, Ranks(lexical, Sort(lexical, items)), Ranks(similarity, Sort(similarity, items)), x) == BaseScore(sr, log, items, x);
  }

  // ----- what is returned -----

  /** Between one and twenty results, as many as asked for in that range; the pool is no smaller and at most a hundred. */
  lemma SizesAreBounded(p: Profile, k: int)
    requires p.candidatePool <= 100
    ensures 1 <= TopK(k) <= 20 && (1 <= k <= 20 ==> TopK(k) == k) && (k < 1 ==> TopK(k) == 1) && (k > 20 ==> TopK(k) == 20)
    ensures TopK(k) <= PoolSize(p, k) <= 100
    ensures p.candidatePool >= 1 && k <= p.candidatePool ==> PoolSize(p, k) == if p.candidatePool < TopK(k) then TopK(k) else p.candidatePool
  {}

  /** Tokens shared by a query and a document. */
  function Shared(query: set<string>, words: multiset<string>): set<string>
  {
    set t | t in query && words[t] > 0
  }

  lemma SupportedIff(sr: Search, x: Item)
    ensures Supported(sr, x) <==> sr.overlap.None? || (|Shared(sr.query, x.words)| >= sr.overlap.value && |Shared(sr.query, x.words)| >= 1)
  {
    assert (set t | t in sr.query && t in x.words) == Shared(sr.query, x.words);
    if |Shared(sr.query, x.words)| >= 1 {
      var t :| t in Shared(sr.query, x.words);
    }
    if t :| t in sr.query && t in x.words {
      assert t in Shared(sr.query, x.words);
    }
  }

  lemma {:induction false} KeepsExactly(p: Item -> bool, s: seq<Item>)
    ensures forall x :: x in Keep(p, s) <==> x in s && p(x)
    ensures |Keep(p, s)| <= |s|
  {
    if s != [] {
      KeepsExactly(p, s[..|s| - 1]);
      assert s == s[..|s| - 1] + [s[|s| - 1]];
    }
  }

  /** The selection made of a sorted list: positive, pooled, with evidence, cut, live. */
  ghost function Selected(score: Item -> real, sorted: seq<Item>, sr: Search, pool: nat, k: nat, live: set<int>): seq<Item>
  {
    Keep(Live(live), Take(k, Keep(Evidence(sr), Take(pool, Keep(Positive(score), sorted)))))
  }

  lemma SelectedQualify(score: Item -> real, sorted: seq<Item>, sr: Search, pool: nat, k: nat, live: set<int>)
    ensures var rs := Selected(score, sorted, sr, pool, k, live);
      |rs| <= k && forall x :: x in rs ==> x in sorted && score(x) > 0.0 && Supported(sr, x) && x.id in live
  {
    var positive := Keep(Positive(score), sorted);
    var supported := Keep(Evidence(sr), Take(pool, positive));
    KeepsExactly(Positive(score), sorted);
    KeepsExactly(Evidence(sr), Take(pool, positive));
    KeepsExactly(Live(live), Take(k, supported));
    forall x | x in Selected(score, sorted, sr, pool, k, live)
      ensures x in sorted && score(x) > 0.0 && Supported(sr, x) && x.id in live
    {
      assert x in Take(k, supported);
      assert x in supported;
      assert x in Take(pool, positive);
      assert x in positive;
    }
  }

  lemma QualifiedIsSelected(score: Item -> real, sorted: seq<Item>, sr: Search, pool: nat, k: nat, live: set<int>, x: Item)
    requires x in sorted && score(x) > 0.0 && Supported(sr, x) && x.id in live
    requires |Keep(Positive(score), sorted)| <= pool && |Keep(Evidence(sr), Keep(Positive(score), sorted))| <= k
    ensures x in Selected(score, sorted, sr, pool, k, live)
  {
    KeepsExactly(Positive(score), sorted);
    KeepsExactly(Evidence(sr), Keep(Positive(score), sorted));
    KeepsExactly(Live(live), Keep(Evidence(sr), Keep(Positive(score), sorted)));
  }

  lemma SortedMembers(score: Item -> real, items: seq<Item>)
    requires DistinctIds(items)
    ensures forall x :: x in Sort(score, items) <==> x in items
  {
    SortKeeps(score, items);
    forall x ensures x in Sort(score, items) <==> x in items {
      assert x in multiset(Sort(score, items)) <==> x in Sort(score, items);
      assert x in multiset(items) <==> x in items;
    }
  }

  /**
   Every result is an item of the index with a positive score, enough evidence and a live document,
   and there are at most as many as asked for.
   */
  lemma ResultsQualify(sr: Search, log: real -> real, items: seq<Item>, k: int, live: set<int>)
    requires ProfileOk(sr.profile) && DistinctIds(items)
    ensures var rs := Results(sr, log, items, k, live);
      && |rs| <= TopK(k)
      && forall x :: x in rs ==> x in items && FinalScore(sr, log, items)(x) > 0.0 && Supported(sr, x) && x.id in live
  {
    var score := FinalScore(sr, log, items);
    SortedMembers(score, items);
    SelectedQualify(score, Sort(score, items), sr, PoolSize(sr.profile, k), TopK(k), live);
  }

  /**
   And nothing that qualifies is left out while there is room: when the positive items fit the pool and
   those with evidence the number asked for, every live one of them is returned.
   */
  lemma QualifiedIsReturned(sr: Search, log: real -> real, items: seq<Item>, k: int, live: set<int>, x: Item)
    requires ProfileOk(sr.profile) && DistinctIds(items)
    requires x in items && FinalScore(sr, log, items)(x) > 0.0 && Supported(sr, x) && x.id in live
    requires var positive := Keep(Positive(FinalScore(sr, log, items)), Sort(FinalScore(sr, log, items), items));
      |positive| <= PoolSize(sr.profile, k) && |Keep(Evidence(sr), positive)| <= TopK(k)
    ensures x in Results(sr, log, items, k, live)
  {
    var score := FinalScore(sr, log, items);
    SortedMembers(score, items);
    QualifiedIsSelected(score, Sort(score, items), sr, PoolSize(sr.profile, k), TopK(k), live, x);
  }
}
