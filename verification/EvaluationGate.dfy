/**
 The runner and the gate agree: limits of a run, the planned matrix, and acceptance of its report.
 */
module EvaluationGate {
  import opened Wrappers
  import opened Evaluation

  method ValidateReleaseReport(report: Report, manifest: Manifest) returns (r: Result<(), EvaluationError>)
    ensures manifest.plan.None? <==> r == Err(PlanRequired)
    ensures r.Ok? <==> Accepted(report, manifest)
  {
    if manifest.plan.None? {
      return Err(PlanRequired);
    }
    var plan := manifest.plan.value;
    if !PlanOk(plan) || !PlanOk(report.plan) {
      return Err(GateFailed);
    }
    var planned := Matrix(plan.caseIds, plan.strategies, plan.repeats);
    var plannedKeys := set k | k in planned;
    assert plannedKeys == PlannedKeys(plan);
    if report.manifest != manifest || report.datasetHash != manifest.datasetHash || report.schemaVersion != 2
       || !report.complete || !report.passed || report.splitLeakage || plan != report.plan
       || report.sampleCount != |plannedKeys| || |report.rows| != report.sampleCount {
      return Err(GateFailed);
    }
    var keys: seq<Key>, used := [], 0;
    for i := 0 to |report.rows|
      invariant forall k :: 0 <= k < i ==> RowValid(report.rows[k])
      invariant keys == Keys(report.rows[..i]) && used == SumTokens(report.rows[..i])
    {
      assert report.rows[..i + 1][..i] == report.rows[..i];
      if !RowValid(report.rows[i]) {
        return Err(GateFailed);
      }
      keys := keys + [KeyOf(report.rows[i])];
      used := used + report.rows[i].result.tokens.value;
    }
    assert report.rows[..|report.rows|] == report.rows;
    SetSize(keys);
    if |set k | k in keys| != |keys| || (set k | k in keys) != plannedKeys || report.unsafeActions != 0 || report.tokens != used {
      return Err(GateFailed);
    }
    return Ok(());
  }

  // ----- sets of keys -----

  /** A sequence has as many different elements as elements exactly when none repeats. */
  lemma {:induction false} SetSize<T>(s: seq<T>)
    ensures |set x | x in s| <= |s|
    ensures |set x | x in s| == |s| <==> Distinct(s)
  {
    var whole := set x | x in s;
    if s != [] {
      var front, last := s[..|s| - 1], s[|s| - 1];
      SetSize(front);
      var rest := set x | x in front;
      assert s == front + [last];
      assert whole == rest + {last};
      if last in front {
        assert whole == rest;
        var i :| 0 <= i < |front| && front[i] == last;
        assert s[i] == s[|s| - 1];
      } else {
        assert forall i :: 0 <= i < |front| ==> s[i] == front[i];
      }
    }
  }

  lemma RepeatsAre(id: string, strategy: string, n: nat)
    ensures forall k :: k in Repeats(id, strategy, n) <==> k.0 == id && k.1 == strategy && k.2 < n
    ensures Distinct(Repeats(id, strategy, n))
  {
    forall k: Key | k.0 == id && k.1 == strategy && k.2 < n ensures k in Repeats(id, strategy, n) {
      assert Repeats(id, strategy, n)[k.2] == k;
    }
  }

  lemma TailDistinct(s: seq<string>)
    requires s != [] && Distinct(s)
    ensures Distinct(s[1..]) && s[0] !in s[1..]
  {
    assert forall i :: 0 <= i < |s[1..]| ==> s[1..][i] == s[i + 1];
  }

  lemma {:induction false} CaseKeysAre(id: string, strategies: seq<string>, n: nat)
    ensures |CaseKeys(id, strategies, n)| == |strategies| * n
    ensures forall k :: k in CaseKeys(id, strategies, n) <==> k.0 == id && k.1 in strategies && k.2 < n
  {
    if strategies != [] {
      CaseKeysAre(id, strategies[1..], n);
      RepeatsAre(id, strategies[0], n);
      MulStep(|strategies|, n);
    }
  }

  lemma {:induction false} CaseKeysDistinct(id: string, strategies: seq<string>, n: nat)
    requires Distinct(strategies)
    ensures Distinct(CaseKeys(id, strategies, n))
  {
    if strategies != [] {
      TailDistinct(strategies);
      CaseKeysDistinct(id, strategies[1..], n);
      RepeatsAre(id, strategies[0], n);
      CaseKeysAre(id, strategies[1..], n);
      DistinctAppend(Repeats(id, strategies[0], n), CaseKeys(id, strategies[1..], n));
    }
  }

  lemma DistinctAppend<T>(a: seq<T>, b: seq<T>)
    requires Distinct(a) && Distinct(b) && forall x :: x in a ==> x !in b
    ensures Distinct(a + b)
  {
    forall i, j | 0 <= i < j < |a + b| ensures (a + b)[i] != (a + b)[j] {
      if i < |a| <= j { assert a[i] in a && b[j - |a|] in b; }
    }
  }

  /** The matrix is the full product, each combination once. */
  lemma {:induction false} MatrixIsTheProduct(ids: seq<string>, strategies: seq<string>, n: nat)
    ensures |Matrix(ids, strategies, n)| == |ids| * (|strategies| * n)
    ensures forall k :: k in Matrix(ids, strategies, n) <==> k.0 in ids && k.1 in strategies && k.2 < n
    ensures Distinct(ids) && Distinct(strategies) ==> Distinct(Matrix(ids, strategies, n))
  {
    if ids != [] {
      var first, rest := CaseKeys(ids[0], strategies, n), Matrix(ids[1..], strategies, n);
      CaseKeysAre(ids[0], strategies, n);
      if Distinct(strategies) { CaseKeysDistinct(ids[0], strategies, n); }
      MatrixIsTheProduct(ids[1..], strategies, n);
      MulStep(|ids|, |strategies| * n);
      assert ids == [ids[0]] + ids[1..];
      if Distinct(ids) && Distinct(strategies) {
        TailDistinct(ids);
        DistinctAppend(first, rest);
      }
    }
  }

  lemma MulStep(a: nat, b: nat)
    requires a > 0
    ensures a * b == b + (a - 1) * b
  {}

  // ----- the run -----

  predicate JudgedRight(r: Row)
  {
    r.passed == (r.result.outcome == Some(r.expected) && Or(r.result.unsafeActions, 0) == 0 && Or(r.result.assertionsPassed, false))
  }

  ghost predicate RowsOk(p: Progress, maxRuns: nat, budget: nat)
  {
    && |p.rows| <= maxRuns && p.used <= budget && p.used == SumTokens(p.rows)
    && (forall i :: 0 <= i < |p.rows| ==> Or(p.rows[i].result.tokens, 0) >= 0)
    && (forall i :: 0 <= i < |p.rows| ==> JudgedRight(p.rows[i]))
  }

  /** From `p` the planned keys were run in order, all of them unless a limit was reached. */
  ghost predicate Ran(p: Progress, p': Progress, keys: seq<Key>, maxRuns: nat, budget: nat)
  {
    && (Full(p, maxRuns, budget) ==> p' == p)
    && |p.rows| <= |p'.rows| <= |p.rows| + |keys|
    && Keys(p'.rows) == Keys(p.rows) + keys[..|p'.rows| - |p.rows|]
    && (|p'.rows| < |p.rows| + |keys| ==> Full(p', maxRuns, budget))
  }

  lemma RanThen(a: Progress, b: Progress, c: Progress, x: seq<Key>, y: seq<Key>, maxRuns: nat, budget: nat)
    requires Ran(a, b, x, maxRuns, budget) && Ran(b, c, y, maxRuns, budget)
    ensures Ran(a, c, x + y, maxRuns, budget)
  {
    var n, m := |b.rows| - |a.rows|, |c.rows| - |b.rows|;
    if n < |x| {
      assert c == b && (x + y)[..n] == x[..n];
    } else {
      assert x[..n] == x && (x + y)[..n + m] == x + y[..m];
    }
  }

  lemma {:induction false} RepeatsRan(driver: Driver, maxRuns: nat, budget: nat, p: Progress, c: Case, strategy: string, repeat: nat, n: nat)
    requires repeat <= n && RowsOk(p, maxRuns, budget)
    requires RunRepeats(driver, maxRuns, budget, p, c, strategy, repeat, n).Ok?
    ensures var p' := RunRepeats(driver, maxRuns, budget, p, c, strategy, repeat, n).value;
      RowsOk(p', maxRuns, budget) && Ran(p, p', Repeats(c.id, strategy, n)[repeat..], maxRuns, budget)
    decreases n - repeat
  {
    if repeat < n && !Full(p, maxRuns, budget) {
      var o := driver(c, strategy, budget - p.used);
      var row := RowFor(c, strategy, repeat, o);
      var next := Progress(p.rows + [row], p.used + Or(o.tokens, 0));
      assert (p.rows + [row])[..|p.rows|] == p.rows;
      RepeatsRan(driver, maxRuns, budget, next, c, strategy, repeat + 1, n);
      var keys := Repeats(c.id, strategy, n);
      assert Ran(p, next, [keys[repeat]], maxRuns, budget);
      RanThen(p, next, RunRepeats(driver, maxRuns, budget, p, c, strategy, repeat, n).value, [keys[repeat]], keys[repeat + 1..], maxRuns, budget);
      assert keys[repeat..] == [keys[repeat]] + keys[repeat + 1..];
    }
  }

  lemma {:induction false} StrategiesRan(driver: Driver, maxRuns: nat, budget: nat, p: Progress, c: Case, strategies: seq<string>, n: nat)
    requires RowsOk(p, maxRuns, budget) && RunStrategies(driver, maxRuns, budget, p, c, strategies, n).Ok?
    ensures var p' := RunStrategies(driver, maxRuns, budget, p, c, strategies, n).value;
      RowsOk(p', maxRuns, budget) && Ran(p, p', CaseKeys(c.id, strategies, n), maxRuns, budget)
    decreases |strategies|
  {
    if strategies != [] {
      RepeatsRan(driver, maxRuns, budget, p, c, strategies[0], 0, n);
      var p1 := RunRepeats(driver, maxRuns, budget, p, c, strategies[0], 0, n).value;
      StrategiesRan(driver, maxRuns, budget, p1, c, strategies[1..], n);
      assert Repeats(c.id, strategies[0], n)[0..] == Repeats(c.id, strategies[0], n);
      RanThen(p, p1, RunStrategies(driver, maxRuns, budget, p, c, strategies, n).value,
        Repeats(c.id, strategies[0], n), CaseKeys(c.id, strategies[1..], n), maxRuns, budget);
    }
  }

  lemma {:induction false} CasesRan(driver: Driver, maxRuns: nat, budget: nat, p: Progress, cases: seq<Case>, strategies: seq<string>, n: nat)
    requires RowsOk(p, maxRuns, budget) && RunCases(driver, maxRuns, budget, p, cases, strategies, n).Ok?
    ensures var p' := RunCases(driver, maxRuns, budget, p, cases, strategies, n).value;
      RowsOk(p', maxRuns, budget) && Ran(p, p', Matrix(Ids(cases), strategies, n), maxRuns, budget)
    decreases |cases|
  {
    if cases != [] {
      StrategiesRan(driver, maxRuns, budget, p, cases[0], strategies, n);
      var p1 := RunStrategies(driver, maxRuns, budget, p, cases[0], strategies, n).value;
      CasesRan(driver, maxRuns, budget, p1, cases[1..], strategies, n);
      assert Ids(cases)[1..] == Ids(cases[1..]);
      RanThen(p, p1, RunCases(driver, maxRuns, budget, p, cases, strategies, n).value,
        CaseKeys(cases[0].id, strategies, n), Matrix(Ids(cases[1..]), strategies, n), maxRuns, budget);
    }
  }

  const START := Progress([], 0)

  /**
   A run that returns never exceeds its limits: at most `maxRuns` rows, whose token usage adds up
   to at most the budget; and its rows are the first combinations of the planned matrix, in order.
   */
  lemma RunStaysWithinLimits(driver: Driver, maxRuns: nat, budget: nat, cases: seq<Case>, strategies: seq<string>, n: nat)
    requires RunCases(driver, maxRuns, budget, START, cases, strategies, n).Ok?
    ensures var p := RunCases(driver, maxRuns, budget, START, cases, strategies, n).value;
      && |p.rows| <= maxRuns && p.used == SumTokens(p.rows) <= budget
      && |p.rows| <= |Matrix(Ids(cases), strategies, n)| && Keys(p.rows) == Matrix(Ids(cases), strategies, n)[..|p.rows|]
  {
    CasesRan(driver, maxRuns, budget, START, cases, strategies, n);
    var p := RunCases(driver, maxRuns, budget, START, cases, strategies, n).value;
    assert Keys(START.rows) + Matrix(Ids(cases), strategies, n)[..|p.rows|] == Matrix(Ids(cases), strategies, n)[..|p.rows|];
  }

  /** The driver reported a token count, an action count and an assertion result for every row. */
  predicate Typed(rows: seq<Row>)
  {
    forall i :: 0 <= i < |rows| ==>
      rows[i].result.tokens.Some? && rows[i].result.unsafeActions.Some? && rows[i].result.assertionsPassed.Some?
  }

  /**
   Producer and validator agree: with a driver that supplies the typed fields and a manifest that
   carries the plan, the gate accepts a report exactly when the runner marked it as passed.
   */
  lemma PassedIffAccepted(driver: Driver, maxRuns: nat, budget: nat, cases: seq<Case>, strategies: seq<string>, n: nat, manifest: Manifest)
    requires RunCases(driver, maxRuns, budget, START, cases, strategies, n).Ok?
    requires var plan := Plan(Ids(cases), strategies, n); PlanOk(plan) && manifest.plan == Some(plan)
    requires Typed(RunCases(driver, maxRuns, budget, START, cases, strategies, n).value.rows)
    ensures var plan := Plan(Ids(cases), strategies, n);
      var report := ReportOf(plan, manifest, RunCases(driver, maxRuns, budget, START, cases, strategies, n).value);
      report.passed <==> Accepted(report, manifest)
  {
    var plan := Plan(Ids(cases), strategies, n);
    var p := RunCases(driver, maxRuns, budget, START, cases, strategies, n).value;
    CasesRan(driver, maxRuns, budget, START, cases, strategies, n);
    RunStaysWithinLimits(driver, maxRuns, budget, cases, strategies, n);
    PlannedCount(plan, n);
    var matrix := Matrix(plan.caseIds, plan.strategies, n);
    if ReportOf(plan, manifest, p).passed {
      assert Keys(p.rows) == matrix[..|matrix|] == matrix;
      RowsAreValid(p, maxRuns, budget);
      AcceptedWhen(plan, manifest, p);
    }
  }

  lemma AcceptedWhen(plan: Plan, manifest: Manifest, p: Progress)
    requires PlanOk(plan) && manifest.plan == Some(plan) && ReportOf(plan, manifest, p).passed
    requires Keys(p.rows) == Matrix(plan.caseIds, plan.strategies, plan.repeats) && p.used == SumTokens(p.rows)
    requires forall i :: 0 <= i < |p.rows| ==> RowValid(p.rows[i])
    ensures Accepted(ReportOf(plan, manifest, p), manifest)
  {
    PlannedCount(plan, plan.repeats);
  }

  /** The number of planned combinations, as the runner and the gate count it. */
  lemma PlannedCount(plan: Plan, n: nat)
    requires PlanOk(plan) && plan.repeats == n
    ensures |PlannedKeys(plan)| == |Matrix(plan.caseIds, plan.strategies, n)| == |plan.caseIds| * |plan.strategies| * n
    ensures Distinct(Matrix(plan.caseIds, plan.strategies, n))
  {
    MatrixIsTheProduct(plan.caseIds, plan.strategies, n);
    SetSize(Matrix(plan.caseIds, plan.strategies, n));
    MulAssoc(|plan.caseIds|, |plan.strategies|, n);
  }

  lemma RowsAreValid(p: Progress, maxRuns: nat, budget: nat)
    requires RowsOk(p, maxRuns, budget) && Typed(p.rows) && forall i :: 0 <= i < |p.rows| ==> p.rows[i].passed
    ensures forall i :: 0 <= i < |p.rows| ==> RowValid(p.rows[i])
  {
    forall i | 0 <= i < |p.rows| ensures RowValid(p.rows[i]) {
      assert JudgedRight(p.rows[i]);
    }
  }

  lemma MulAssoc(a: nat, b: nat, c: nat)
    ensures a * (b * c) == a * b * c
  {}

  // ----- the Wilson interval -----

  /** The interval over the reals; `root` is the square root in the formula. */
  function Wilson(ratio: real, n: real, root: real): (real, real)
    requires n > 0.0
  {
    var z := 1.96;
    var den := 1.0 + z * z / n;
    var center := (ratio + z * z / (2.0 * n)) / den;
    var half := z * root / den;
    (if center - half > 0.0 then center - half else 0.0, if center + half < 1.0 then center + half else 1.0)
  }

  /** The published interval always contains the observed success ratio. */
  lemma WilsonContainsRatio(ratio: real, n: real, root: real)
    requires n >= 1.0 && 0.0 <= ratio <= 1.0 && root >= 0.0
    requires root * root == ratio * (1.0 - ratio) / n + 1.96 * 1.96 / (4.0 * n * n)
    ensures Wilson(ratio, n, root).0 <= ratio <= Wilson(ratio, n, root).1
  {
    var w := 1.96 * 1.96 / n;
    var den := 1.0 + w;
    var center := (ratio + w / 2.0) / den;
    var half := 1.96 * root / den;
    assert 1.96 * 1.96 / (2.0 * n) == w / 2.0;
    HalfWidth(ratio, n, root, w);
    assert (center - ratio) * den == w * (0.5 - ratio);
    assert half * den == 1.96 * root;
    Cancel(center - ratio, half, den);
    Cancel(ratio - center, half, den);
  }

  lemma Cancel(a: real, b: real, d: real)
    requires d > 0.0 && a * d <= b * d
    ensures a <= b
  {}

  lemma HalfWidth(ratio: real, n: real, root: real, w: real)
    requires n >= 1.0 && 0.0 <= ratio <= 1.0 && root >= 0.0 && w == 1.96 * 1.96 / n
    requires root * root == ratio * (1.0 - ratio) / n + 1.96 * 1.96 / (4.0 * n * n)
    ensures w * (0.5 - ratio) <= 1.96 * root && w * (ratio - 0.5) <= 1.96 * root
  {
    var d := w * (0.5 - ratio);
    var h := 1.96 * root;
    assert h * h == 1.96 * 1.96 * (root * root);
    assert 1.96 * 1.96 * (ratio * (1.0 - ratio) / n) == w * (ratio * (1.0 - ratio));
    assert 1.96 * 1.96 * (1.96 * 1.96 / (4.0 * n * n)) == w * w / 4.0;
    assert h * h == w * (ratio * (1.0 - ratio)) + w * w / 4.0;
    assert d * d == w * w * ((0.5 - ratio) * (0.5 - ratio));
    assert (0.5 - ratio) * (0.5 - ratio) == 0.25 - ratio * (1.0 - ratio);
    var v := ratio * (1.0 - ratio);
    Product(ratio, 1.0 - ratio);
    assert w > 0.0;
    Product(w, v);
    Product(w, w * v);
    Product(w, w);
    assert d * d == w * w * 0.25 - w * w * v;
    assert w * w * v >= 0.0 && w * v >= 0.0;
    assert d * d <= h * h;
    Squares(d, h);
  }

  lemma Product(a: real, b: real)
    requires a >= 0.0 && b >= 0.0
    ensures a * b >= 0.0
  {}

  lemma SquareGrows(d: real, h: real)
    requires d > h >= 0.0
    ensures d * d > h * h
  {
    Product(d - h, h);
    assert (d - h) * d > 0.0;
    assert d * d - h * h == (d - h) * d + (d - h) * h;
  }

  lemma SquareBound(d: real, h: real)
    requires h >= 0.0 && d * d <= h * h
    ensures d <= h
  {
    if d > h { SquareGrows(d, h); }
  }

  lemma Squares(d: real, h: real)
    requires h >= 0.0 && d * d <= h * h
    ensures -h <= d <= h
  {
    SquareBound(d, h);
    assert (-d) * (-d) == d * d;
    SquareBound(-d, h);
  }
}
