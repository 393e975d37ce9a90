/**
 Laws of the ranking: it does not depend on the order of the index, a smaller top-k is a prefix of
 a larger one, and being ahead in both rankings never loses in the fusion.
 */
module RankingLaws {
  import opened Wrappers
  import opened Ranking

  // ----- sorting is canonical -----

  lemma {:induction false} InsertPermutes(score: Item -> real, x: Item, s: seq<Item>)
    ensures multiset(Insert(score, x, s)) == multiset(s) + multiset{x}
    decreases |s|
  {
    if s != [] && !Before(score, x, s[0]) {
      assert s == [s[0]] + s[1..];
      InsertPermutes(score, x, s[1..]);
    }
  }

  lemma InsertMembers(score: Item -> real, x: Item, s: seq<Item>)
    ensures forall y :: y in Insert(score, x, s) <==> y == x || y in s
  {
    InsertPermutes(score, x, s);
    forall y ensures y in Insert(score, x, s) <==> y == x || y in s {
      assert y in multiset(Insert(score, x, s)) <==> y in Insert(score, x, s);
      assert y in multiset(s) <==> y in s;
    }
  }

  lemma ConsSorted(score: Item -> real, y: Item, rest: seq<Item>)
    requires Sorted(score, rest) && forall z :: z in rest ==> Before(score, y, z)
    ensures Sorted(score, [y] + rest)
  {}

  lemma HeadIsFirst(score: Item -> real, s: seq<Item>)
    requires Sorted(score, s) && s != []
    ensures Sorted(score, s[1..]) && forall z :: z in s[1..] ==> Before(score, s[0], z)
  {}

  lemma {:induction false} InsertSorts(score: Item -> real, x: Item, s: seq<Item>)
    requires Sorted(score, s) && forall y :: y in s ==> y.id != x.id
    ensures Sorted(score, Insert(score, x, s))
    decreases |s|
  {
    if s == [] {
    } else if Before(score, x, s[0]) {
      HeadIsFirst(score, s);
      assert s == [s[0]] + s[1..];
      ConsSorted(score, x, s);
    } else {
      HeadIsFirst(score, s);
      InsertSorts(score, x, s[1..]);
      InsertMembers(score, x, s[1..]);
      assert s[0] in s;
      ConsSorted(score, s[0], Insert(score, x, s[1..]));
    }
  }

  lemma {:induction false} SortKeeps(score: Item -> real, items: seq<Item>)
    requires DistinctIds(items)
    ensures Sorted(score, Sort(score, items)) && multiset(Sort(score, items)) == multiset(items)
  {
    if items != [] {
      var rest := Sort(score, items[1..]);
      SortKeeps(score, items[1..]);
      assert items == [items[0]] + items[1..];
      forall y | y in rest ensures y.id != items[0].id {
        assert y in multiset(rest);
        var i :| 0 <= i < |items[1..]| && items[1..][i] == y;
        assert items[i + 1].id != items[0].id;
      }
      InsertSorts(score, items[0], rest);
      InsertPermutes(score, items[0], rest);
    }
  }

  lemma HeadsAgree(score: Item -> real, a: seq<Item>, b: seq<Item>)
    requires Sorted(score, a) && Sorted(score, b) && multiset(a) == multiset(b) && a != [] && b != []
    ensures a[0] == b[0]
  {
    assert a[0] in multiset(b) && b[0] in multiset(a);
    HeadIsFirst(score, a);
    HeadIsFirst(score, b);
    assert a == [a[0]] + a[1..] && b == [b[0]] + b[1..];
  }

  lemma {:induction false} SortedIsUnique(score: Item -> real, a: seq<Item>, b: seq<Item>)
    requires Sorted(score, a) && Sorted(score, b) && multiset(a) == multiset(b)
    ensures a == b
    decreases |a|
  {
    assert |multiset(a)| == |multiset(b)|;
    if a != [] {
      HeadsAgree(score, a, b);
      assert a == [a[0]] + a[1..] && b == [b[0]] + b[1..];
      assert multiset(a[1..]) == multiset(a) - multiset{a[0]};
      assert multiset(b[1..]) == multiset(b) - multiset{b[0]};
      HeadIsFirst(score, a);
      HeadIsFirst(score, b);
      SortedIsUnique(score, a[1..], b[1..]);
    }
  }

  lemma SortIsCanonical(score: Item -> real, a: seq<Item>, b: seq<Item>)
    requires DistinctIds(a) && DistinctIds(b) && multiset(a) == multiset(b)
    ensures Sort(score, a) == Sort(score, b)
  {
    SortKeeps(score, a);
    SortKeeps(score, b);
    SortedIsUnique(score, Sort(score, a), Sort(score, b));
  }

  // ----- sums do not depend on the order -----

  lemma {:induction false} SumWithout(items: seq<Item>, f: Item -> nat, i: nat)
    requires i < |items|
    ensures SumBy(items, f) == SumBy(items[..i] + items[i + 1..], f) + f(items[i])
  {
    var n := |items| - 1;
    if i == n {
      assert items[..i] + items[i + 1..] == items[..n];
    } else {
      SumWithout(items[..n], f, i);
      assert (items[..i] + items[i + 1..])[..n - 1] == items[..n][..i] + items[..n][i + 1..];
    }
  }

  lemma {:induction false} SumIsCanonical(a: seq<Item>, b: seq<Item>, f: Item -> nat)
    requires multiset(a) == multiset(b)
    ensures SumBy(a, f) == SumBy(b, f)
    decreases |a|
  {
    if a == [] {
      assert |multiset(b)| == 0;
    } else {
      var last, front := a[|a| - 1], a[..|a| - 1];
      assert a == front + [last];
      assert last in multiset(b);
      var i :| 0 <= i < |b| && b[i] == last;
      SumWithout(b, f, i);
      assert b == b[..i] + [b[i]] + b[i + 1..];
      assert multiset(b[..i] + b[i + 1..]) == multiset(b) - multiset{last};
      assert multiset(front) == multiset(a) - multiset{last};
      SumIsCanonical(front, b[..i] + b[i + 1..], f);
    }
  }

  lemma StatsAreCanonical(q: set<string>, a: seq<Item>, b: seq<Item>)
    requires multiset(a) == multiset(b)
    ensures StatsOf(q, a) == StatsOf(q, b)
  {
    assert |multiset(a)| == |multiset(b)|;
    SumIsCanonical(a, b, Length());
    forall t | t in q ensures SumBy(a, Mentions(t)) == SumBy(b, Mentions(t)) { SumIsCanonical(a, b, Mentions(t)); }
  }

  /** The results do not depend on the order in which the index lists its chunks. */
  lemma ResultsIgnoreIndexOrder(sr: Search, log: real -> real, a: seq<Item>, b: seq<Item>, k: int, live: set<int>)
    requires ProfileOk(sr.profile) && DistinctIds(a) && DistinctIds(b) && multiset(a) == multiset(b)
    ensures Results(sr, log, a, k, live) == Results(sr, log, b, k, live)
  {
    StatsAreCanonical(sr.query, a, b);
    StatsAreOk(sr.query, a);
    var lexical, vector := LexicalBy(StatsOf(sr.query, a), log, sr.query), SimilarityBy(sr.mode);
    SortIsCanonical(lexical, a, b);
    SortIsCanonical(vector, a, b);
    assert FinalScore(sr, log, a) == FinalScore(sr, log, b);
    SortIsCanonical(FinalScore(sr, log, a), a, b);
  }

  // ----- prefixes -----

  lemma {:induction false} KeepPrefix(p: Item -> bool, s: seq<Item>, n: nat)
    requires n <= |s|
    ensures Keep(p, s[..n]) <= Keep(p, s)
    decreases |s|
  {
    if n == |s| {
      assert s[..n] == s;
    } else {
      KeepPrefix(p, s[..|s| - 1], n);
      assert s[..|s| - 1][..n] == s[..n];
    }
  }

  lemma KeepOfPrefix(p: Item -> bool, a: seq<Item>, b: seq<Item>)
    requires a <= b
    ensures Keep(p, a) <= Keep(p, b)
  {
    assert a == b[..|a|];
    KeepPrefix(p, b, |a|);
  }

  lemma TakePrefix(m: nat, n: nat, a: seq<Item>, b: seq<Item>)
    requires m <= n && a <= b
    ensures Take(m, a) <= Take(n, b)
  {}

  lemma PoolGrows(p: Profile, small: int, large: int)
    requires small <= large
    ensures TopK(small) <= TopK(large) && PoolSize(p, small) <= PoolSize(p, large)
  {}

  /**
   Asking for fewer results gives the beginning of the longer list, through the pool clamp, the
   evidence filter and the final deletion check.
   */
  lemma SmallerTopKIsAPrefix(sr: Search, log: real -> real, items: seq<Item>, small: int, large: int, live: set<int>)
    requires ProfileOk(sr.profile) && small <= large
    ensures Results(sr, log, items, small, live) <= Results(sr, log, items, large, live)
  {
    var score := FinalScore(sr, log, items);
    var all := Keep(Positive(score), Sort(score, items));
    PoolGrows(sr.profile, small, large);
    var a, b := Take(PoolSize(sr.profile, small), all), Take(PoolSize(sr.profile, large), all);
    TakePrefix(PoolSize(sr.profile, small), PoolSize(sr.profile, large), all, all);
    KeepOfPrefix(Evidence(sr), a, b);
    TakePrefix(TopK(small), TopK(large), Keep(Evidence(sr), a), Keep(Evidence(sr), b));
    KeepOfPrefix(Live(live), Take(TopK(small), Keep(Evidence(sr), a)), Take(TopK(large), Keep(Evidence(sr), b)));
  }

  // ----- fusion -----

  /** The rank of an item with a positive score is its position in the sorted list. */
  lemma {:induction false} RanksArePositions(score: Item -> real, s: seq<Item>)
    requires DistinctIds(s)
    ensures forall i :: 0 <= i < |s| ==>
      (s[i].id in Ranks(score, s) <==> score(s[i]) > 0.0) && (score(s[i]) > 0.0 ==> Ranks(score, s)[s[i].id] == i + 1)
    ensures forall id :: id in Ranks(score, s) ==> exists i :: 0 <= i < |s| && s[i].id == id
  {
    if s != [] {
      RanksArePositions(score, s[..|s| - 1]);
      assert s == s[..|s| - 1] + [s[|s| - 1]];
    }
  }

  /** Of two items of the index the one that comes first has the better rank, or the other has none. */
  ghost predicate RankedAhead(ranks: map<int, nat>, a: Item, b: Item)
  {
    b.id in ranks ==> a.id in ranks && ranks[a.id] <= ranks[b.id]
  }

  lemma BeforeIsRankedAhead(score: Item -> real, items: seq<Item>, a: Item, b: Item)
    requires DistinctIds(items) && a in items && b in items && (a == b || Before(score, a, b))
    ensures RankedAhead(Ranks(score, Sort(score, items)), a, b)
  {
    var s := Sort(score, items);
    SortKeeps(score, items);
    assert a in multiset(s) && b in multiset(s);
    var i :| 0 <= i < |s| && s[i] == a;
    var j :| 0 <= j < |s| && s[j] == b;
    SortedDistinct(score, items);
    RanksArePositions(score, s);
  }

  lemma SortedDistinct(score: Item -> real, items: seq<Item>)
    requires DistinctIds(items)
    ensures DistinctIds(Sort(score, items))
  {
    var s := Sort(score, items);
    SortKeeps(score, items);
    forall i, j | 0 <= i < j < |s| ensures s[i].id != s[j].id {
      assert Before(score, s[i], s[j]);
      assert s[i] in multiset(items) && s[j] in multiset(items);
      var k :| 0 <= k < |items| && items[k] == s[i];
      var l :| 0 <= l < |items| && items[l] == s[j];
    }
  }

  lemma ShareMonotone(ranks: map<int, nat>, a: Item, b: Item, weight: real, k: real)
    requires k >= 1.0 && weight > 0.0 && RankedAhead(ranks, a, b)
    ensures Share(ranks, a.id, weight, k) >= Share(ranks, b.id, weight, k) >= 0.0
  {
    if b.id in ranks {
      Reciprocal(weight, k + ranks[a.id] as real, k + ranks[b.id] as real);
    } else if a.id in ranks {
      assert weight / (k + ranks[a.id] as real) > 0.0;
    }
  }

  lemma Reciprocal(w: real, x: real, y: real)
    requires w > 0.0 && 0.0 < x <= y
    ensures w / x >= w / y > 0.0
  {
    assert w / y > 0.0;
    assert (w / y) * y == w && (w / x) * x == w;
    assert (w / y) * x <= (w / y) * y;
  }

  /** A chunk at least as high in both rankings never gets a lower fused score. */
  lemma AheadInBothNeverLower(p: Profile, lexical: Item -> real, vector: Item -> real, items: seq<Item>, a: Item, b: Item)
    requires ProfileOk(p) && DistinctIds(items) && a in items && b in items
    requires (a == b || Before(lexical, a, b)) && (a == b || Before(vector, a, b))
    ensures Fused(p, Ranks(lexical, Sort(lexical, items)), Ranks(vector, Sort(vector, items)), a)
         >= Fused(p, Ranks(lexical, Sort(lexical, items)), Ranks(vector, Sort(vector, items)), b)
  {
    BeforeIsRankedAhead(lexical, items, a, b);
    BeforeIsRankedAhead(vector, items, a, b);
    ShareMonotone(Ranks(lexical, Sort(lexical, items)), a, b, p.bm25Weight, p.rrfK);
    ShareMonotone(Ranks(vector, Sort(vector, items)), a, b, p.vectorWeight, p.rrfK);
  }
}
