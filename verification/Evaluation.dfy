/**
 The evaluation matrix and the release gate: the runner of app/platform/evaluation.py produces a
 report, and app/platform/evaluation_contract.py, written independently, decides whether it is
 release evidence.
 */
module Evaluation {
  import opened Wrappers

  datatype Case = Case(id: string, expected: string, split: string, family: string, orderFamily: string)

  /** Hashes are collision free: the dataset hash stands for the cases it was taken of. */
  datatype DatasetHash = HashOf(cases: seq<Case>)

  /** What the driver returned; a missing field is None. */
  datatype Outcome = Outcome(tokens: Option<int>, outcome: Option<string>, unsafeActions: Option<int>, assertionsPassed: Option<bool>)

  datatype Row = Row(id: string, strategy: string, repeat: nat, expected: string, result: Outcome, passed: bool)

  datatype Plan = Plan(caseIds: seq<string>, strategies: seq<string>, repeats: int)

  datatype Manifest = Manifest(datasetHash: DatasetHash, plan: Option<Plan>)

  /** `manifest` is what the manifest hash was taken of; hashes are collision free. */
  datatype Report = Report(
    schemaVersion: int,
    plan: Plan,
    manifest: Manifest,
    datasetHash: DatasetHash,
    sampleCount: int,
    tokens: int,
    unsafeActions: int,
    passed: bool,
    splitLeakage: bool,
    complete: bool,
    rows: seq<Row>)

  datatype EvaluationError = DatasetInvalid | PlanInvalid | VersionMismatch | PlanMismatch | BudgetExceeded | PlanRequired | GateFailed

  type Driver = (Case, string, int) -> Outcome

  type Key = (string, string, nat)

  const STRATEGIES := {"react", "plan_execute", "multi"}

  predicate Distinct<T(==)>(s: seq<T>)
  {
    forall i, j :: 0 <= i < j < |s| ==> s[i] != s[j]
  }

  predicate PlanOk(p: Plan)
  {
    && 1 <= |p.caseIds| <= 10000 && 1 <= |p.strategies| <= 3 && 1 <= p.repeats <= 100
    && Distinct(p.caseIds) && Distinct(p.strategies)
    && (forall i :: 0 <= i < |p.caseIds| ==> p.caseIds[i] != "")
    && (forall i :: 0 <= i < |p.strategies| ==> p.strategies[i] in STRATEGIES)
    && |p.caseIds| * |p.strategies| * p.repeats <= 10000
  }

  // ----- the dataset -----

  predicate SameGroup(a: Case, b: Case)
  {
    a.family == b.family || a.orderFamily == b.orderFamily
  }

  predicate NoLeak(cases: seq<Case>)
  {
    forall i, j :: 0 <= i < |cases| && 0 <= j < |cases| && SameGroup(cases[i], cases[j]) ==> cases[i].split == cases[j].split
  }

  /** Distinct ids, known splits, and no family on both sides of the split. */
  predicate DatasetOk(cases: seq<Case>)
  {
    && cases != []
    && (forall i, j :: 0 <= i < j < |cases| ==> cases[i].id != cases[j].id)
    && (forall i :: 0 <= i < |cases| ==> cases[i].split in {"development", "holdout"})
    && NoLeak(cases)
  }

  function GroupOf(c: Case, byFamily: bool): string
  {
    if byFamily then c.family else c.orderFamily
  }

  predicate Known(cases: seq<Case>, byFamily: bool, g: string)
  {
    exists k :: 0 <= k < |cases| && GroupOf(cases[k], byFamily) == g
  }

  predicate Recorded(m: map<string, string>, c: Case, byFamily: bool)
  {
    GroupOf(c, byFamily) in m && m[GroupOf(c, byFamily)] == c.split
  }

  /** The table of groups seen so far, each with the split of its cases. */
  ghost predicate Seen(m: map<string, string>, cases: seq<Case>, byFamily: bool)
  {
    && (forall k {:trigger Recorded(m, cases[k], byFamily)} :: 0 <= k < |cases| ==> Recorded(m, cases[k], byFamily))
    && (forall g {:trigger Known(cases, byFamily, g)} :: g in m ==> Known(cases, byFamily, g))
  }

  lemma SeenStep(m: map<string, string>, cases: seq<Case>, c: Case, byFamily: bool)
    requires Seen(m, cases, byFamily)
    requires GroupOf(c, byFamily) in m ==> m[GroupOf(c, byFamily)] == c.split
    ensures Seen(m[GroupOf(c, byFamily) := c.split], cases + [c], byFamily)
  {
    var m', all := m[GroupOf(c, byFamily) := c.split], cases + [c];
    forall k | 0 <= k < |all| ensures Recorded(m', all[k], byFamily) {
      if k < |cases| { assert all[k] == cases[k] && Recorded(m, cases[k], byFamily); }
    }
    forall g | g in m' ensures Known(all, byFamily, g) {
      if g in m {
        assert Known(cases, byFamily, g);
        var k :| 0 <= k < |cases| && GroupOf(cases[k], byFamily) == g;
        assert all[k] == cases[k];
      } else {
        assert all[|cases|] == c;
      }
    }
  }

  /** A group met again in another split is a leak between the splits. */
  lemma SeenLeak(m: map<string, string>, cases: seq<Case>, i: nat, byFamily: bool)
    requires i < |cases| && Seen(m, cases[..i], byFamily)
    requires GroupOf(cases[i], byFamily) in m && m[GroupOf(cases[i], byFamily)] != cases[i].split
    ensures !NoLeak(cases)
  {
    assert Known(cases[..i], byFamily, GroupOf(cases[i], byFamily));
    var k :| 0 <= k < |cases[..i]| && GroupOf(cases[..i][k], byFamily) == GroupOf(cases[i], byFamily);
    assert Recorded(m, cases[..i][k], byFamily) && SameGroup(cases[k], cases[i]);
  }

  lemma SeenAll(families: map<string, string>, orders: map<string, string>, cases: seq<Case>)
    requires Seen(families, cases, true) && Seen(orders, cases, false)
    ensures NoLeak(cases)
  {
    forall i, j | 0 <= i < |cases| && 0 <= j < |cases| && SameGroup(cases[i], cases[j]) ensures cases[i].split == cases[j].split {
      assert Recorded(families, cases[i], true) && Recorded(orders, cases[i], false);
      assert Recorded(families, cases[j], true) && Recorded(orders, cases[j], false);
    }
  }

  method ValidateDataset(cases: seq<Case>) returns (ok: bool)
    ensures ok == DatasetOk(cases)
  {
    if cases == [] || exists i, j :: 0 <= i < j < |cases| && cases[i].id == cases[j].id {
      return false;
    }
    var families: map<string, string>, orders: map<string, string> := map[], map[];
    for i := 0 to |cases|
      invariant forall k :: 0 <= k < i ==> cases[k].split in {"development", "holdout"}
      invariant Seen(families, cases[..i], true) && Seen(orders, cases[..i], false)
    {
      var c := cases[i];
      assert cases[..i + 1] == cases[..i] + [c];
      if c.split !in {"development", "holdout"} {
        return false;
      }
      if c.family in families && families[c.family] != c.split {
        SeenLeak(families, cases, i, true);
        return false;
      }
      SeenStep(families, cases[..i], c, true);
      families := families[c.family := c.split];
      if c.orderFamily in orders && orders[c.orderFamily] != c.split {
        SeenLeak(orders, cases, i, false);
        return false;
      }
      SeenStep(orders, cases[..i], c, false);
      orders := orders[c.orderFamily := c.split];
    }
    assert cases[..|cases|] == cases;
    SeenAll(families, orders, cases);
    return true;
  }

  // ----- the planned matrix, in the order in which it is run -----

  function Repeats(id: string, strategy: string, n: nat): (keys: seq<Key>)
    ensures |keys| == n
    ensures forall i :: 0 <= i < n ==> keys[i] == (id, strategy, i)
  {
    if n == 0 then [] else Repeats(id, strategy, n - 1) + [(id, strategy, n - 1)]
  }

  function CaseKeys(id: string, strategies: seq<string>, n: nat): seq<Key>
  {
    if strategies == [] then [] else Repeats(id, strategies[0], n) + CaseKeys(id, strategies[1..], n)
  }

  function Matrix(ids: seq<string>, strategies: seq<string>, n: nat): seq<Key>
  {
    if ids == [] then [] else CaseKeys(ids[0], strategies, n) + Matrix(ids[1..], strategies, n)
  }

  function PlannedKeys(p: Plan): set<Key>
    requires p.repeats >= 0
  {
    set k | k in Matrix(p.caseIds, p.strategies, p.repeats)
  }

  // ----- the runner -----

  datatype Progress = Progress(rows: seq<Row>, used: int)

  function Or<T>(o: Option<T>, default: T): T
  {
    match o
    case Some(v) => v
    case None => default
  }

  function RowFor(c: Case, strategy: string, repeat: nat, o: Outcome): Row
  {
    Row(c.id, strategy, repeat, c.expected, o,
        o.outcome == Some(c.expected) && Or(o.unsafeActions, 0) == 0 && Or(o.assertionsPassed, false))
  }

  predicate Full(p: Progress, maxRuns: nat, budget: nat)
  {
    |p.rows| >= maxRuns || p.used >= budget
  }

  function RunRepeats(driver: Driver, maxRuns: nat, budget: nat, p: Progress, c: Case, strategy: string, repeat: nat, n: nat)
    : Result<Progress, EvaluationError>
    requires repeat <= n
    decreases n - repeat
  {
    if repeat == n || Full(p, maxRuns, budget) then Ok(p)
    else
      var o := driver(c, strategy, budget - p.used);
      var tokens := Or(o.tokens, 0);
      if tokens < 0 || p.used + tokens > budget then Err(BudgetExceeded)
      else RunRepeats(driver, maxRuns, budget, Progress(p.rows + [RowFor(c, strategy, repeat, o)], p.used + tokens), c, strategy, repeat + 1, n)
  }

  function RunStrategies(driver: Driver, maxRuns: nat, budget: nat, p: Progress, c: Case, strategies: seq<string>, n: nat)
    : Result<Progress, EvaluationError>
    decreases |strategies|
  {
    if strategies == [] then Ok(p)
    else
      match RunRepeats(driver, maxRuns, budget, p, c, strategies[0], 0, n)
      case Err(e) => Err(e)
      case Ok(p') => RunStrategies(driver, maxRuns, budget, p', c, strategies[1..], n)
  }

  function RunCases(driver: Driver, maxRuns: nat, budget: nat, p: Progress, cases: seq<Case>, strategies: seq<string>, n: nat)
    : Result<Progress, EvaluationError>
    decreases |cases|
  {
    if cases == [] then Ok(p)
    else
      match RunStrategies(driver, maxRuns, budget, p, cases[0], strategies, n)
      case Err(e) => Err(e)
      case Ok(p') => RunCases(driver, maxRuns, budget, p', cases[1..], strategies, n)
  }

  function Ids(cases: seq<Case>): (ids: seq<string>)
    ensures |ids| == |cases|
  {
    if cases == [] then [] else [cases[0].id] + Ids(cases[1..])
  }

  function SumUnsafe(rows: seq<Row>): int
  {
    if rows == [] then 0 else SumUnsafe(rows[..|rows| - 1]) + Or(rows[|rows| - 1].result.unsafeActions, 0)
  }

  function ReportOf(plan: Plan, manifest: Manifest, p: Progress): Report
    requires plan.repeats >= 0
  {
    Report(2, plan, manifest, manifest.datasetHash, |p.rows|, p.used, SumUnsafe(p.rows),
           |p.rows| == |PlannedKeys(plan)| && SumUnsafe(p.rows) == 0 && (forall i :: 0 <= i < |p.rows| ==> p.rows[i].passed),
           false, |p.rows| == |plan.caseIds| * |plan.strategies| * plan.repeats, p.rows)
  }

  class AgentEvaluationRunner {
    const driver: Driver
    const maxRuns: nat
    const tokenBudget: nat

    constructor (driver: Driver, maxRuns: nat, tokenBudget: nat)
      requires maxRuns >= 1 && tokenBudget >= 1
      ensures this.driver == driver && this.maxRuns == maxRuns && this.tokenBudget == tokenBudget
    {
      this.driver, this.maxRuns, this.tokenBudget := driver, maxRuns, tokenBudget;
    }

    /** The triple loop; `break` leaves only the innermost one. */
    method RunMatrix(cases: seq<Case>, strategies: seq<string>, repeats: nat) returns (r: Result<Progress, EvaluationError>)
      ensures r == RunCases(driver, maxRuns, tokenBudget, Progress([], 0), cases, strategies, repeats)
    {
      var rows: seq<Row>, used := [], 0;
      var i := 0;
      while i < |cases|
        invariant 0 <= i <= |cases|
        invariant RunCases(driver, maxRuns, tokenBudget, Progress([], 0), cases, strategies, repeats)
               == RunCases(driver, maxRuns, tokenBudget, Progress(rows, used), cases[i..], strategies, repeats)
      {
        var c := cases[i];
        ghost var p := Progress(rows, used);
        var j := 0;
        while j < |strategies|
          invariant 0 <= j <= |strategies|
          invariant RunStrategies(driver, maxRuns, tokenBudget, p, c, strategies, repeats)
                 == RunStrategies(driver, maxRuns, tokenBudget, Progress(rows, used), c, strategies[j..], repeats)
        {
          ghost var q := Progress(rows, used);
          var repeat := 0;
          while repeat < repeats
            invariant 0 <= repeat <= repeats
            invariant RunRepeats(driver, maxRuns, tokenBudget, q, c, strategies[j], 0, repeats)
                   == RunRepeats(driver, maxRuns, tokenBudget, Progress(rows, used), c, strategies[j], repeat, repeats)
          {
            if |rows| >= maxRuns || used >= tokenBudget {
              break;
            }
            var result := driver(c, strategies[j], tokenBudget - used);
            var tokens := if result.tokens.Some? then result.tokens.value else 0;
            if tokens < 0 || used + tokens > tokenBudget {
              return Err(BudgetExceeded);
            }
            used := used + tokens;
            rows := rows + [RowFor(c, strategies[j], repeat, result)];
            repeat := repeat + 1;
          }
          assert strategies[j..][1..] == strategies[j + 1..];
          j := j + 1;
        }
        assert cases[i..][1..] == cases[i + 1..];
        i := i + 1;
      }
      return Ok(Progress(rows, used));
    }

    method Run(cases: seq<Case>, manifest: Manifest, strategies: seq<string>, repeats: int) returns (r: Result<Report, EvaluationError>)
      ensures var plan := Plan(Ids(cases), strategies, repeats);
        if !DatasetOk(cases) then r == Err(DatasetInvalid)
        else if manifest.datasetHash != HashOf(cases) then r == Err(VersionMismatch)
        else if !PlanOk(plan) then r == Err(PlanInvalid)
        else if manifest.plan.Some? && manifest.plan.value != plan then r == Err(PlanMismatch)
        else
          match RunCases(driver, maxRuns, tokenBudget, Progress([], 0), cases, strategies, repeats)
          case Err(e) => r == Err(e)
          case Ok(p) => r == Ok(ReportOf(plan, manifest, p))
    {
      var valid := ValidateDataset(cases);
      if !valid {
        return Err(DatasetInvalid);
      }
      if manifest.datasetHash != HashOf(cases) {
        return Err(VersionMismatch);
      }
      var plan := Plan(Ids(cases), strategies, repeats);
      if !PlanOk(plan) {
        return Err(PlanInvalid);
      }
      if manifest.plan.Some? && manifest.plan.value != plan {
        return Err(PlanMismatch);
      }
      var run := RunMatrix(cases, strategies, repeats);
      if run.Err? {
        return Err(run.error);
      }
      var rows, used := run.value.rows, run.value.used;
      var unsafeActions, passed := 0, true;
      for i := 0 to |rows|
        invariant unsafeActions == SumUnsafe(rows[..i])
        invariant passed <==> forall k :: 0 <= k < i ==> rows[k].passed
      {
        assert rows[..i + 1][..i] == rows[..i];
        unsafeActions := unsafeActions + Or(rows[i].result.unsafeActions, 0);
        passed := passed && rows[i].passed;
      }
      assert rows[..|rows|] == rows;
      var n := |rows|;
      return Ok(Report(2, plan, manifest, HashOf(cases), n, used, unsafeActions,
        n == |PlannedKeys(plan)| && unsafeActions == 0 && passed, false, n == |cases| * |strategies| * repeats, rows));
    }
  }

  // ----- the gate -----

  function KeyOf(r: Row): Key { (r.id, r.strategy, r.repeat) }

  predicate RowValid(r: Row)
  {
    && r.result.tokens.Some? && r.result.tokens.value >= 0 && r.result.unsafeActions == Some(0)
    && r.passed && r.result.assertionsPassed == Some(true) && r.result.outcome == Some(r.expected)
  }

  function Keys(rows: seq<Row>): (keys: seq<Key>)
    ensures |keys| == |rows| && forall i :: 0 <= i < |rows| ==> keys[i] == KeyOf(rows[i])
  {
    if rows == [] then [] else Keys(rows[..|rows| - 1]) + [KeyOf(rows[|rows| - 1])]
  }

  function SumTokens(rows: seq<Row>): int
  {
    if rows == [] then 0 else SumTokens(rows[..|rows| - 1]) + Or(rows[|rows| - 1].result.tokens, 0)
  }

  /** What release evidence must show. */
  ghost predicate Accepted(report: Report, manifest: Manifest)
  {
    && manifest.plan.Some? && PlanOk(manifest.plan.value) && PlanOk(report.plan)
    && report.manifest == manifest && report.datasetHash == manifest.datasetHash && report.schemaVersion == 2
    && report.complete && report.passed && !report.splitLeakage && report.plan == manifest.plan.value
    && report.sampleCount == |PlannedKeys(manifest.plan.value)| == |report.rows|
    && (forall i :: 0 <= i < |report.rows| ==> RowValid(report.rows[i]))
    && Distinct(Keys(report.rows)) && (set k | k in Keys(report.rows)) == PlannedKeys(manifest.plan.value)
    && report.unsafeActions == 0 && report.tokens == SumTokens(report.rows)
  }
}
