/**
 Where the rows of an evaluation run come from, why a run fails, what a report says of it, and which
 datasets and plans are accepted: stated on cases, rows and the driver.
 */
module EvaluationEffects {
  import opened Wrappers
  import opened Evaluation
  import opened EvaluationGate

  // ----- datasets and plans -----

  function FamiliesIn(cases: seq<Case>, split: string): set<string>
  {
    set c | c in cases && c.split == split :: c.family
  }

  function OrderFamiliesIn(cases: seq<Case>, split: string): set<string>
  {
    set c | c in cases && c.split == split :: c.orderFamily
  }

  predicate KnownSplit(c: Case)
  {
    c.split == "development" || c.split == "holdout"
  }

  /** No family is on both sides of the split, in either of the two groupings. */
  predicate Separated(cases: seq<Case>)
  {
    && FamiliesIn(cases, "development") !! FamiliesIn(cases, "holdout")
    && OrderFamiliesIn(cases, "development") !! OrderFamiliesIn(cases, "holdout")
  }

  lemma SeparatedIff(cases: seq<Case>)
    requires forall c :: c in cases ==> KnownSplit(c)
    ensures Separated(cases) <==> NoLeak(cases)
  {
    if Separated(cases) {
      forall i, j | 0 <= i < |cases| && 0 <= j < |cases| && SameGroup(cases[i], cases[j]) ensures cases[i].split == cases[j].split {
        var c, d := cases[i], cases[j];
        assert c in cases && d in cases;
        assert c.family in FamiliesIn(cases, c.split) && d.family in FamiliesIn(cases, d.split);
        assert c.orderFamily in OrderFamiliesIn(cases, c.split) && d.orderFamily in OrderFamiliesIn(cases, d.split);
      }
    }
  }

  /** A dataset is accepted exactly when it has cases under different ids, in two separated splits. */
  lemma DatasetIff(cases: seq<Case>)
    ensures DatasetOk(cases) <==>
      && |cases| > 0
      && (forall i, j :: 0 <= i < |cases| && 0 <= j < |cases| && cases[i].id == cases[j].id ==> i == j)
      && (forall c :: c in cases ==> KnownSplit(c)) && Separated(cases)
  {
    if forall c :: c in cases ==> KnownSplit(c) {
      SeparatedIff(cases);
      assert forall i :: 0 <= i < |cases| ==> KnownSplit(cases[i]);
    } else {
      var c :| c in cases && !KnownSplit(c);
      var i :| 0 <= i < |cases| && cases[i] == c;
    }
  }

  /** An accepted plan has between one and ten thousand combinations of named cases and known strategies. */
  lemma PlanIsBounded(p: Plan, k: Key)
    requires PlanOk(p)
    ensures 1 <= |PlannedKeys(p)| <= 10000
    ensures k in PlannedKeys(p) ==> |k.0| > 0 && (k.1 == "react" || k.1 == "plan_execute" || k.1 == "multi") && k.2 < 100
  {
    MatrixIsTheProduct(p.caseIds, p.strategies, p.repeats);
    PlannedCount(p, p.repeats);
    Positive(|p.caseIds|, |p.strategies|);
    Positive(|p.caseIds| * |p.strategies|, p.repeats);
  }

  lemma Positive(a: nat, b: nat)
    requires a >= 1 && b >= 1
    ensures a * b >= 1
  {}

  // ----- rows -----

  /** The i-th row is what the driver said of one of the cases, given the budget the earlier rows had left. */
  predicate FromDriver(driver: Driver, budget: nat, cases: seq<Case>, rows: seq<Row>, i: nat)
    requires i < |rows|
  {
    exists c :: c in cases && c.id == rows[i].id && c.expected == rows[i].expected
                && rows[i].result == driver(c, rows[i].strategy, budget - SumTokens(rows[..i]))
  }

  ghost predicate AllFromDriver(driver: Driver, budget: nat, cases: seq<Case>, p: Progress)
  {
    && p.used == SumTokens(p.rows)
    && forall i {:trigger FromDriver(driver, budget, cases, p.rows, i)} :: 0 <= i < |p.rows| ==> FromDriver(driver, budget, cases, p.rows, i)
  }

  /** The driver's answer that ended a run: negative, or more than was left. */
  predicate Overshoots(driver: Driver, budget: nat, p: Progress, c: Case, strategy: string)
  {
    var o := driver(c, strategy, budget - p.used);
    o.tokens.Some? && (o.tokens.value < 0 || o.tokens.value > budget - p.used)
  }

  /** Why a run fails: before a limit was reached, the driver overshot for one of the cases and strategies. */
  ghost predicate Failed(driver: Driver, maxRuns: nat, budget: nat, cases: seq<Case>, strategies: seq<string>, e: EvaluationError)
  {
    e == BudgetExceeded
    && exists p, c, strategy {:trigger Overshoots(driver, budget, p, c, strategy)} ::
         && AllFromDriver(driver, budget, cases, p) && c in cases && strategy in strategies
         && |p.rows| < maxRuns && p.used < budget && Overshoots(driver, budget, p, c, strategy)
  }

  ghost predicate Fair(driver: Driver, maxRuns: nat, budget: nat, cases: seq<Case>, strategies: seq<string>, r: Result<Progress, EvaluationError>)
  {
    match r
    case Ok(p) => AllFromDriver(driver, budget, cases, p) && p.used <= budget
    case Err(e) => Failed(driver, maxRuns, budget, cases, strategies, e)
  }

  lemma RowAdded(driver: Driver, budget: nat, cases: seq<Case>, p: Progress, c: Case, strategy: string, repeat: nat)
    requires AllFromDriver(driver, budget, cases, p) && c in cases
    ensures var o := driver(c, strategy, budget - p.used);
      AllFromDriver(driver, budget, cases, Progress(p.rows + [RowFor(c, strategy, repeat, o)], p.used + Or(o.tokens, 0)))
  {
    var o := driver(c, strategy, budget - p.used);
    var rows := p.rows + [RowFor(c, strategy, repeat, o)];
    assert rows[..|p.rows|] == p.rows;
    forall i | 0 <= i < |rows| ensures FromDriver(driver, budget, cases, rows, i) {
      if i < |p.rows| {
        assert FromDriver(driver, budget, cases, p.rows, i) && rows[..i] == p.rows[..i];
      }
    }
  }

  lemma {:induction false} RepeatsFair(driver: Driver, maxRuns: nat, budget: nat, p: Progress, c: Case, strategy: string, repeat: nat, n: nat,
      cases: seq<Case>, strategies: seq<string>)
    requires repeat <= n && AllFromDriver(driver, budget, cases, p) && p.used <= budget && c in cases && strategy in strategies
    ensures Fair(driver, maxRuns, budget, cases, strategies, RunRepeats(driver, maxRuns, budget, p, c, strategy, repeat, n))
    decreases n - repeat
  {
    if repeat < n && !Full(p, maxRuns, budget) {
      var o := driver(c, strategy, budget - p.used);
      if Or(o.tokens, 0) < 0 || p.used + Or(o.tokens, 0) > budget {
        assert Overshoots(driver, budget, p, c, strategy);
      } else {
        RowAdded(driver, budget, cases, p, c, strategy, repeat);
        RepeatsFair(driver, maxRuns, budget, Progress(p.rows + [RowFor(c, strategy, repeat, o)], p.used + Or(o.tokens, 0)),
          c, strategy, repeat + 1, n, cases, strategies);
      }
    }
  }

  lemma {:induction false} StrategiesFair(driver: Driver, maxRuns: nat, budget: nat, p: Progress, c: Case, rest: seq<string>, n: nat,
      cases: seq<Case>, strategies: seq<string>)
    requires AllFromDriver(driver, budget, cases, p) && p.used <= budget && c in cases && forall x :: x in rest ==> x in strategies
    ensures Fair(driver, maxRuns, budget, cases, strategies, RunStrategies(driver, maxRuns, budget, p, c, rest, n))
    decreases |rest|
  {
    if rest != [] {
      RepeatsFair(driver, maxRuns, budget, p, c, rest[0], 0, n, cases, strategies);
      var r := RunRepeats(driver, maxRuns, budget, p, c, rest[0], 0, n);
      if r.Ok? { StrategiesFair(driver, maxRuns, budget, r.value, c, rest[1..], n, cases, strategies); }
    }
  }

  lemma {:induction false} CasesFair(driver: Driver, maxRuns: nat, budget: nat, p: Progress, rest: seq<Case>, n: nat,
      cases: seq<Case>, strategies: seq<string>)
    requires AllFromDriver(driver, budget, cases, p) && p.used <= budget && forall c :: c in rest ==> c in cases
    ensures Fair(driver, maxRuns, budget, cases, strategies, RunCases(driver, maxRuns, budget, p, rest, strategies, n))
    decreases |rest|
  {
    if rest != [] {
      StrategiesFair(driver, maxRuns, budget, p, rest[0], strategies, n, cases, strategies);
      var r := RunStrategies(driver, maxRuns, budget, p, rest[0], strategies, n);
      if r.Ok? { CasesFair(driver, maxRuns, budget, r.value, rest[1..], n, cases, strategies); }
    }
  }

  /**
   Every row of a run is the driver's answer for its case and strategy, given exactly the budget that
   the rows before it had left; and a run fails only because such an answer overshot that budget.
   */
  lemma RowsAreTheDrivers(driver: Driver, maxRuns: nat, budget: nat, cases: seq<Case>, strategies: seq<string>, n: nat)
    ensures Fair(driver, maxRuns, budget, cases, strategies, RunCases(driver, maxRuns, budget, START, cases, strategies, n))
  {
    CasesFair(driver, maxRuns, budget, START, cases, n, cases, strategies);
  }

  /** A row is passed exactly for the expected outcome, no unsafe action and passed assertions; missing fields count against it. */
  lemma RowIsJudged(c: Case, strategy: string, repeat: nat, o: Outcome)
    ensures var row := RowFor(c, strategy, repeat, o);
      && (row.id, row.strategy, row.repeat, row.expected, row.result) == (c.id, strategy, repeat, c.expected, o)
      && (row.passed <==>
            && o.outcome == Some(c.expected) && o.assertionsPassed == Some(true)
            && (o.unsafeActions.None? || o.unsafeActions.value == 0))
  {}

  // ----- the report -----

  /** A run has as many rows as the plan has combinations exactly when it ran all of them. */
  lemma CompleteIff(driver: Driver, maxRuns: nat, budget: nat, cases: seq<Case>, strategies: seq<string>, n: nat)
    requires RunCases(driver, maxRuns, budget, START, cases, strategies, n).Ok?
    requires PlanOk(Plan(Ids(cases), strategies, n))
    ensures var plan := Plan(Ids(cases), strategies, n); var p := RunCases(driver, maxRuns, budget, START, cases, strategies, n).value;
      var all := |plan.caseIds| * |plan.strategies| * plan.repeats;
      && p.used == SumTokens(p.rows) && |PlannedKeys(plan)| == all
      && (|p.rows| == all <==> Keys(p.rows) == Matrix(Ids(cases), strategies, n))
      && (|p.rows| != all ==> |p.rows| >= maxRuns || p.used >= budget)
  {
    var plan := Plan(Ids(cases), strategies, n);
    var p := RunCases(driver, maxRuns, budget, START, cases, strategies, n).value;
    RunStaysWithinLimits(driver, maxRuns, budget, cases, strategies, n);
    CasesRan(driver, maxRuns, budget, START, cases, strategies, n);
    PlannedCount(plan, n);
    var matrix := Matrix(plan.caseIds, plan.strategies, n);
    assert |Keys(p.rows)| == |p.rows|;
    if |p.rows| == |matrix| { assert matrix[..|p.rows|] == matrix; }
  }

  lemma ReportFields(plan: Plan, manifest: Manifest, p: Progress)
    requires plan.repeats >= 0
    ensures var report := ReportOf(plan, manifest, p);
      && report.plan == plan && report.manifest == manifest && report.datasetHash == manifest.datasetHash && report.schemaVersion == 2
      && report.rows == p.rows && report.sampleCount == |p.rows| && report.tokens == p.used && !report.splitLeakage
      && report.unsafeActions == SumUnsafe(p.rows)
      && (report.complete <==> |p.rows| == |plan.caseIds| * |plan.strategies| * plan.repeats)
      && (report.passed <==> |p.rows| == |PlannedKeys(plan)| && SumUnsafe(p.rows) == 0 && forall row :: row in p.rows ==> row.passed)
  {}

  /**
   A report counts its rows, their tokens and unsafe actions; it is complete exactly when no limit cut
   the plan short, and passed exactly when it is complete, safe and every row passed.
   */
  lemma ReportSays(driver: Driver, maxRuns: nat, budget: nat, cases: seq<Case>, strategies: seq<string>, n: nat, manifest: Manifest)
    requires RunCases(driver, maxRuns, budget, START, cases, strategies, n).Ok?
    requires PlanOk(Plan(Ids(cases), strategies, n))
    ensures var plan := Plan(Ids(cases), strategies, n);
      var report := ReportOf(plan, manifest, RunCases(driver, maxRuns, budget, START, cases, strategies, n).value);
      && report.sampleCount == |report.rows| && report.tokens == SumTokens(report.rows) && report.unsafeActions == SumUnsafe(report.rows)
      && (report.complete <==> Keys(report.rows) == Matrix(Ids(cases), strategies, n))
      && (!report.complete ==> |report.rows| >= maxRuns || report.tokens >= budget)
      && (report.passed <==> report.complete && report.unsafeActions == 0 && forall row :: row in report.rows ==> row.passed)
  {
    CompleteIff(driver, maxRuns, budget, cases, strategies, n);
    ReportFields(Plan(Ids(cases), strategies, n), manifest, RunCases(driver, maxRuns, budget, START, cases, strategies, n).value);
  }

  lemma {:induction false} UnsafeIsCounted(rows: seq<Row>)
    requires forall row :: row in rows ==> Or(row.result.unsafeActions, 0) >= 0
    ensures SumUnsafe(rows) >= 0
    ensures SumUnsafe(rows) == 0 <==> forall row :: row in rows ==> Or(row.result.unsafeActions, 0) == 0
  {
    if rows != [] {
      var front, last := rows[..|rows| - 1], rows[|rows| - 1];
      assert rows == front + [last];
      UnsafeIsCounted(front);
    }
  }
}
