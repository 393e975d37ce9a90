/**
 Fencing of plan runs in both back ends, and exactly when the two back ends agree.
 */
module PlanRunRefinement {
  import opened Wrappers
  import opened PlanRuns

  datatype Step =
    | Claim(claimant: Claimant, now: real)
    | Mutate(runId: string, worker: string, token: nat, update: Update)

  function JsonDo(runs: seq<PlanRun>, step: Step): (seq<PlanRun>, Result<PlanRun, Refusal>)
  {
    match step
    case Claim(c, now) => JsonClaim(runs, c, now)
    case Mutate(runId, worker, token, u) => JsonMutate(runs, runId, worker, token, u)
  }

  ghost function MaxOf(s: set<nat>): (m: nat)
    ensures forall x :: x in s ==> x <= m
    ensures m > 0 ==> m in s
  {
    if s == {} then 0
    else
      var x :| x in s;
      var rest := MaxOf(s - {x});
      assert forall y :: y in s ==> y == x || y in s - {x};
      if rest > x then rest else x
  }

  ghost function Latest(rows: Table, plan: string): (m: nat)
    ensures IsLatest(rows, plan, m)
  {
    var m := MaxOf(Tokens(rows, plan));
    assert forall id :: id in rows && rows[id].planId == plan ==> rows[id].token in Tokens(rows, plan);
    m
  }

  ghost function SqlDo(rows: Table, user: Option<string>, step: Step): (Table, Result<PlanRun, Refusal>)
  {
    match step
    case Claim(c, now) => SqlClaim(rows, c, now, Latest(rows, c.planId))
    case Mutate(runId, worker, token, u) =>
      SqlMutate(rows, user, runId, worker, token, u, if runId in rows then Latest(rows, rows[runId].planId) else 0)
  }

  function JsonRun(runs: seq<PlanRun>, steps: seq<Step>): seq<PlanRun>
    decreases |steps|
  {
    if steps == [] then runs else JsonRun(JsonDo(runs, steps[0]).0, steps[1..])
  }

  ghost function SqlRun(rows: Table, user: Option<string>, steps: seq<Step>): Table
    decreases |steps|
  {
    if steps == [] then rows else SqlRun(SqlDo(rows, user, steps[0]).0, user, steps[1..])
  }

  // ----- fencing in the list -----

  /** Tokens grow along the list, and a running run carries the greatest token of its plan. */
  ghost predicate ListOk(runs: seq<PlanRun>)
  {
    && (forall i, j :: 0 <= i < j < |runs| && runs[i].planId == runs[j].planId ==> runs[i].token < runs[j].token)
    && (forall i, j :: 0 <= i < |runs| && 0 <= j < |runs| && runs[i].planId == runs[j].planId && runs[i].status == Running
          ==> runs[j].token <= runs[i].token)
  }

  lemma {:induction false} MaxTokenIs(runs: seq<PlanRun>, plan: string)
    ensures forall i :: 0 <= i < |runs| && runs[i].planId == plan ==> runs[i].token <= MaxToken(runs, plan)
    ensures MaxToken(runs, plan) > 0 ==> exists i :: 0 <= i < |runs| && runs[i].planId == plan && runs[i].token == MaxToken(runs, plan)
  {
    if runs != [] {
      MaxTokenIs(runs[..|runs| - 1], plan);
      assert runs[..|runs| - 1] + [runs[|runs| - 1]] == runs;
    }
  }

  lemma JsonClaimKeeps(runs: seq<PlanRun>, c: Claimant, now: real)
    requires ListOk(runs)
    ensures ListOk(JsonClaim(runs, c, now).0)
  {
    MaxTokenIs(runs, c.planId);
  }

  lemma JsonMutateKeeps(runs: seq<PlanRun>, runId: string, worker: string, token: nat, u: Update)
    requires ListOk(runs)
    ensures ListOk(JsonMutate(runs, runId, worker, token, u).0)
  {
    var k := Find(runs, runId);
    if k < |runs| { MaxTokenIs(runs, runs[k].planId); }
  }

  lemma TokensOnlyGrow(runs: seq<PlanRun>, runs': seq<PlanRun>, plan: string)
    requires |runs| <= |runs'|
    requires forall i :: 0 <= i < |runs| ==> runs'[i].planId == runs[i].planId && runs'[i].token == runs[i].token
    ensures MaxToken(runs, plan) <= MaxToken(runs', plan)
  {
    MaxTokenIs(runs, plan);
    MaxTokenIs(runs', plan);
  }

  lemma JsonStepKeeps(runs: seq<PlanRun>, step: Step)
    requires ListOk(runs)
    ensures ListOk(JsonDo(runs, step).0)
    ensures forall plan :: MaxToken(runs, plan) <= MaxToken(JsonDo(runs, step).0, plan)
  {
    forall plan ensures MaxToken(runs, plan) <= MaxToken(JsonDo(runs, step).0, plan) {
      TokensOnlyGrow(runs, JsonDo(runs, step).0, plan);
    }
    match step
    case Claim(c, now) => JsonClaimKeeps(runs, c, now);
    case Mutate(runId, worker, token, u) => JsonMutateKeeps(runs, runId, worker, token, u);
  }

  lemma {:induction false} JsonRunKeeps(runs: seq<PlanRun>, steps: seq<Step>)
    requires ListOk(runs)
    ensures ListOk(JsonRun(runs, steps))
    ensures forall plan :: MaxToken(runs, plan) <= MaxToken(JsonRun(runs, steps), plan)
    decreases |steps|
  {
    if steps != [] {
      JsonStepKeeps(runs, steps[0]);
      JsonRunKeeps(JsonDo(runs, steps[0]).0, steps[1..]);
    }
  }

  /** File back end: never two running runs of one plan, and the running one has the last token. */
  lemma JsonOneRunning(steps: seq<Step>, i: nat, j: nat)
    requires var runs := JsonRun([], steps);
      i < |runs| && j < |runs| && runs[i].planId == runs[j].planId && runs[i].status == Running
    ensures var runs := JsonRun([], steps);
      runs[j].token <= runs[i].token && (runs[j].status == Running ==> i == j)
  {
    JsonRunKeeps([], steps);
  }

  /** Once a plan has seen token f, every write under a smaller token is refused forever. */
  lemma JsonOldTokenIsDead(runs: seq<PlanRun>, steps: seq<Step>, i: nat, runId: string, worker: string, token: nat, u: Update)
    requires ListOk(runs) && i < |runs| && token < runs[i].token
    requires var end := JsonRun(runs, steps);
      Find(end, runId) < |end| ==> end[Find(end, runId)].planId == runs[i].planId
    ensures JsonMutate(JsonRun(runs, steps), runId, worker, token, u) == (JsonRun(runs, steps), Err(Conflict))
  {
    JsonRunKeeps(runs, steps);
    MaxTokenIs(runs, runs[i].planId);
  }

  // ----- fencing in the table -----

  ghost predicate PairOk(rows: Table, a: string, b: string)
  {
    a in rows && b in rows && rows[a].planId == rows[b].planId ==>
      && (rows[a].token == rows[b].token ==> a == b)
      && (rows[a].status == Running ==> rows[b].token <= rows[a].token)
  }

  ghost predicate TableOk(rows: Table)
  {
    forall a, b {:trigger PairOk(rows, a, b)} :: PairOk(rows, a, b)
  }

  /** Rows stay, with their plan and token. */
  ghost predicate KeepsTokens(rows: Table, rows': Table)
  {
    forall id :: id in rows ==> id in rows' && rows'[id].planId == rows[id].planId && rows'[id].token == rows[id].token
  }

  lemma SqlStepPairs(rows: Table, user: Option<string>, step: Step, a: string, b: string)
    requires TableOk(rows)
    ensures PairOk(SqlDo(rows, user, step).0, a, b)
  {
    assert PairOk(rows, a, b);
  }

  lemma SqlStepKeeps(rows: Table, user: Option<string>, step: Step)
    requires TableOk(rows)
    ensures TableOk(SqlDo(rows, user, step).0) && KeepsTokens(rows, SqlDo(rows, user, step).0)
  {
    forall a, b ensures PairOk(SqlDo(rows, user, step).0, a, b) { SqlStepPairs(rows, user, step, a, b); }
  }

  lemma {:induction false} SqlRunKeeps(rows: Table, user: Option<string>, steps: seq<Step>)
    requires TableOk(rows)
    ensures TableOk(SqlRun(rows, user, steps)) && KeepsTokens(rows, SqlRun(rows, user, steps))
    decreases |steps|
  {
    if steps != [] {
      SqlStepKeeps(rows, user, steps[0]);
      SqlRunKeeps(SqlDo(rows, user, steps[0]).0, user, steps[1..]);
    }
  }

  /** Database back end: the same two promises. */
  lemma SqlOneRunning(user: Option<string>, steps: seq<Step>, a: string, b: string)
    requires var rows := SqlRun(map[], user, steps);
      a in rows && b in rows && rows[a].planId == rows[b].planId && rows[a].status == Running
    ensures var rows := SqlRun(map[], user, steps);
      rows[b].token <= rows[a].token && (rows[b].status == Running ==> a == b)
  {
    SqlRunKeeps(map[], user, steps);
    var rows := SqlRun(map[], user, steps);
    assert PairOk(rows, a, b) && PairOk(rows, b, a);
  }

  lemma SqlOldTokenIsDead(rows: Table, user: Option<string>, steps: seq<Step>, id: string, runId: string, worker: string,
      token: nat, u: Update)
    requires TableOk(rows) && id in rows && token < rows[id].token
    requires var end := SqlRun(rows, user, steps); runId in end ==> end[runId].planId == rows[id].planId
    ensures var end := SqlRun(rows, user, steps); SqlDo(end, user, Mutate(runId, worker, token, u)) == (end, Err(Conflict))
  {
    SqlRunKeeps(rows, user, steps);
  }

  // ----- the two back ends side by side -----

  predicate Listed(runs: seq<PlanRun>, r: PlanRun)
  {
    exists i :: 0 <= i < |runs| && runs[i] == r
  }

  /** The list and the table hold the same runs, one per run id. */
  ghost predicate Same(runs: seq<PlanRun>, rows: Table)
  {
    && (forall i, j :: 0 <= i < j < |runs| ==> runs[i].runId != runs[j].runId)
    && (forall i :: 0 <= i < |runs| ==> runs[i].runId in rows && rows[runs[i].runId] == runs[i])
    && (forall id :: id in rows ==> rows[id].runId == id && Listed(runs, rows[id]))
  }

  lemma SameLatest(runs: seq<PlanRun>, rows: Table, plan: string)
    requires Same(runs, rows)
    ensures MaxToken(runs, plan) == Latest(rows, plan)
    ensures HasPlan(runs, plan) == TableHasPlan(rows, plan)
    ensures forall now :: HasActive(runs, plan, now) == TableHasActive(rows, plan, now)
  {
    MaxTokenIs(runs, plan);
    if Latest(rows, plan) > 0 {
      var id :| id in rows && rows[id].planId == plan && rows[id].token == Latest(rows, plan);
      assert Listed(runs, rows[id]);
    }
    if MaxToken(runs, plan) > 0 {
      var i :| 0 <= i < |runs| && runs[i].planId == plan && runs[i].token == MaxToken(runs, plan);
      assert runs[i].runId in rows;
    }
    SameExistence(runs, rows, plan);
  }

  lemma SameExistence(runs: seq<PlanRun>, rows: Table, plan: string)
    requires Same(runs, rows)
    ensures HasPlan(runs, plan) == TableHasPlan(rows, plan)
    ensures forall now :: HasActive(runs, plan, now) == TableHasActive(rows, plan, now)
  {
    if HasPlan(runs, plan) {
      var i :| 0 <= i < |runs| && runs[i].planId == plan;
      assert runs[i].runId in rows;
    }
    if TableHasPlan(rows, plan) {
      var id :| id in rows && rows[id].planId == plan;
      assert Listed(runs, rows[id]);
    }
    forall now ensures HasActive(runs, plan, now) == TableHasActive(rows, plan, now) {
      if HasActive(runs, plan, now) {
        var i :| 0 <= i < |runs| && runs[i].planId == plan && LeaseActive(runs[i], now);
        assert runs[i].runId in rows;
      }
      if TableHasActive(rows, plan, now) {
        var id :| id in rows && rows[id].planId == plan && LeaseActive(rows[id], now);
        assert Listed(runs, rows[id]);
      }
    }
  }

  /** What a caller must respect for the back ends to be interchangeable. */
  ghost predicate Portable(rows: Table, user: Option<string>, step: Step)
  {
    match step
    case Claim(c, now) => c.runId in rows ==> TableHasActive(rows, c.planId, now)
    case Mutate(runId, worker, token, u) =>
      runId in rows && Holds(rows[runId], worker, token, Latest(rows, rows[runId].planId)) ==> Visible(rows[runId], user)
  }

  lemma ClaimAnswersAgree(runs: seq<PlanRun>, rows: Table, c: Claimant, now: real)
    requires Same(runs, rows)
    ensures var j, s := JsonClaim(runs, c, now), SqlClaim(rows, c, now, Latest(rows, c.planId));
      j.1 == s.1 <==> Portable(rows, None, Claim(c, now))
  {
    SameLatest(runs, rows, c.planId);
  }

  /** Fencing the same rows and adding the same new run. */
  lemma SameAfterClaim(runs: seq<PlanRun>, rows: Table, plan: string, now: real, run: PlanRun)
    requires Same(runs, rows) && run.runId !in rows
    ensures Same(FenceAll(runs, plan, now) + [run], FenceTable(rows, plan, now)[run.runId := run])
  {
    var runs', rows' := FenceAll(runs, plan, now) + [run], FenceTable(rows, plan, now)[run.runId := run];
    forall id | id in rows' ensures rows'[id].runId == id && Listed(runs', rows'[id]) {
      if id == run.runId {
        assert runs'[|runs|] == rows'[id];
      } else {
        assert Listed(runs, rows[id]);
        var i :| 0 <= i < |runs| && runs[i] == rows[id];
        assert runs'[i] == rows'[id];
      }
    }
  }

  lemma ClaimAgrees(runs: seq<PlanRun>, rows: Table, c: Claimant, now: real)
    requires Same(runs, rows)
    ensures var j, s := JsonClaim(runs, c, now), SqlClaim(rows, c, now, Latest(rows, c.planId));
      && (j.1 == s.1 <==> Portable(rows, None, Claim(c, now)))
      && (j.1 == s.1 ==> Same(j.0, s.0))
  {
    ClaimAnswersAgree(runs, rows, c, now);
    SameLatest(runs, rows, c.planId);
    var (rows', r) := SqlClaim(rows, c, now, Latest(rows, c.planId));
    if r.Ok? { SameAfterClaim(runs, rows, c.planId, now, r.value); }
  }

  lemma MutateAgrees(runs: seq<PlanRun>, rows: Table, user: Option<string>, runId: string, worker: string, token: nat, u: Update)
    requires Same(runs, rows)
    ensures var step := Mutate(runId, worker, token, u);
      var j, s := JsonDo(runs, step), SqlDo(rows, user, step);
      && (j.1 == s.1 <==> Portable(rows, user, step))
      && (j.1 == s.1 ==> Same(j.0, s.0))
  {
    var step := Mutate(runId, worker, token, u);
    var j, s := JsonDo(runs, step), SqlDo(rows, user, step);
    var k := Find(runs, runId);
    if runId in rows {
      assert Listed(runs, rows[runId]);
      assert k < |runs| && runs[k] == rows[runId];
      SameLatest(runs, rows, rows[runId].planId);
      if j.1.Ok? && s.1.Ok? {
        forall id | id in s.0 ensures s.0[id].runId == id && Listed(j.0, s.0[id]) {
          assert Listed(runs, rows[id]);
          var i :| 0 <= i < |runs| && runs[i] == rows[id];
          assert j.0[i] == s.0[id];
        }
      }
    }
  }

  /**
   One step: from the same runs both back ends give the same answer and the same runs if and only
   if the step is portable - a claim with a new run id unless the plan is leased anyway, and no
   write by the live holder through a repository opened for another user.
   */
  lemma StepAgreesIff(runs: seq<PlanRun>, rows: Table, user: Option<string>, step: Step)
    requires Same(runs, rows)
    ensures JsonDo(runs, step).1 == SqlDo(rows, user, step).1 <==> Portable(rows, user, step)
    ensures Portable(rows, user, step) ==> Same(JsonDo(runs, step).0, SqlDo(rows, user, step).0)
  {
    match step
    case Claim(c, now) => ClaimAgrees(runs, rows, c, now);
    case Mutate(runId, worker, token, u) => MutateAgrees(runs, rows, user, runId, worker, token, u);
  }

  ghost predicate PortableRun(rows: Table, user: Option<string>, steps: seq<Step>)
    decreases |steps|
  {
    steps != [] ==> Portable(rows, user, steps[0]) && PortableRun(SqlDo(rows, user, steps[0]).0, user, steps[1..])
  }

  /** The answers of a history, step by step. */
  function JsonAnswers(runs: seq<PlanRun>, steps: seq<Step>): seq<Result<PlanRun, Refusal>>
    decreases |steps|
  {
    if steps == [] then [] else [JsonDo(runs, steps[0]).1] + JsonAnswers(JsonDo(runs, steps[0]).0, steps[1..])
  }

  ghost function SqlAnswers(rows: Table, user: Option<string>, steps: seq<Step>): seq<Result<PlanRun, Refusal>>
    decreases |steps|
  {
    if steps == [] then []
    else [SqlDo(rows, user, steps[0]).1] + SqlAnswers(SqlDo(rows, user, steps[0]).0, user, steps[1..])
  }

  /**
   Whole histories from the same runs: every answer is the same in both back ends if and only if
   every step is portable where it is made, and then both end with the same runs.
   */
  lemma {:induction false} HistoriesAgreeIff(runs: seq<PlanRun>, rows: Table, user: Option<string>, steps: seq<Step>)
    requires Same(runs, rows)
    ensures JsonAnswers(runs, steps) == SqlAnswers(rows, user, steps) <==> PortableRun(rows, user, steps)
    ensures PortableRun(rows, user, steps) ==> Same(JsonRun(runs, steps), SqlRun(rows, user, steps))
    decreases |steps|
  {
    if steps != [] {
      var j, s := JsonDo(runs, steps[0]), SqlDo(rows, user, steps[0]);
      StepAgreesIff(runs, rows, user, steps[0]);
      assert JsonAnswers(runs, steps)[0] == j.1 && JsonAnswers(runs, steps)[1..] == JsonAnswers(j.0, steps[1..]);
      assert SqlAnswers(rows, user, steps)[0] == s.1 && SqlAnswers(rows, user, steps)[1..] == SqlAnswers(s.0, user, steps[1..]);
      if j.1 == s.1 {
        HistoriesAgreeIff(j.0, s.0, user, steps[1..]);
      }
    }
  }

  /** The first claim of two empty stores, whoever the database repository was opened for. */
  lemma FirstClaim(c: Claimant, now: real, user: Option<string>)
    ensures var run := NewRun(c, 1, false, now);
      && JsonClaim([], c, now) == ([run], Ok(run))
      && SqlDo(map[], user, Claim(c, now)) == (map[c.runId := run], Ok(run))
      && Same([run], map[c.runId := run])
  {
    var run := NewRun(c, 1, false, now);
    assert FenceAll([], c.planId, now) + [run] == [run];
    assert FenceTable(map[], c.planId, now) == map[];
    assert Listed([run], run) by { assert [run][0] == run; }
  }

  /** Portability is needed: the file back end accepts a second run with an id already used. */
  lemma ReusedRunIdDiverges(c: Claimant)
    requires c.lease == 30
    ensures var json := JsonClaim([], c, 0.0).0; var sql := SqlDo(map[], None, Claim(c, 0.0)).0;
      Same(json, sql) && JsonClaim(json, c, 100.0).1.Ok? && SqlDo(sql, None, Claim(c, 100.0)).1 == Err(Conflict)
  {
    FirstClaim(c, 0.0, None);
    assert !LeaseActive(NewRun(c, 1, false, 0.0), 100.0);
  }

  /**
   The other half is needed too: the holder of a claim made through a repository opened for another
   user writes under its own live lease; the file accepts every such write, the database none.
   */
  lemma ForeignUserDiverges(c: Claimant, now: real, other: string, u: Update)
    requires other != c.user
    ensures var json := JsonClaim([], c, now).0; var sql := SqlDo(map[], Some(other), Claim(c, now)).0;
      var write := Mutate(c.runId, c.worker, 1, u);
      && Same(json, sql)
      && JsonDo(json, write).1.Ok?
      && SqlDo(sql, Some(other), write) == (sql, Err(Conflict))
  {
    FirstClaim(c, now, Some(other));
    var run := NewRun(c, 1, false, now);
    MaxTokenIs([run], c.planId);
    assert [run][0].planId == c.planId && [run][0].runId == c.runId;
    assert MaxToken([run], c.planId) == 1;
  }
}
