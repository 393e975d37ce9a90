/**
 Plan runs with execution leases and fencing tokens, app/repositories/plan_runs.py: the JSON file
 back end, which rewrites a list, and the SQL back end, which issues conditional updates.
 */
module PlanRuns {
  import opened Wrappers

  datatype RunStatus = Running | AwaitingConfirmation | Completed | Failed | Cancelled | Fenced

  datatype RunKind = Initial | Confirmation | Recovery | Manual

  datatype Execution = Execution(body: string, usage: string)

  datatype PlanRun = PlanRun(
    runId: string,
    planId: string,
    session: string,
    user: string,
    worker: string,
    kind: RunKind,
    status: RunStatus,
    token: nat,
    leaseUntil: real,
    usage: string,
    checkpoint: Option<Execution>,
    createdAt: real,
    updatedAt: real,
    completedAt: Option<real>)

  datatype Claimant = Claimant(runId: string, planId: string, session: string, user: string, worker: string, lease: int, kind: RunKind)

  /** The transformation a holder asks for. */
  datatype Update =
    | Renew(lease: int, now: real)
    | Checkpoint(execution: Execution, now: real)
    | Finish(status: RunStatus, result: Option<Execution>, now: real)

  datatype Refusal = Conflict

  function LeaseEnd(now: real, seconds: int): real
  {
    now + (if seconds > 1 then seconds else 1) as real
  }

  predicate LeaseActive(r: PlanRun, now: real)
  {
    r.status == Running && r.leaseUntil > now
  }

  function NewRun(c: Claimant, token: nat, earlier: bool, now: real): PlanRun
  {
    PlanRun(c.runId, c.planId, c.session, c.user, c.worker, if earlier && c.kind == Initial then Recovery else c.kind,
            Running, token, LeaseEnd(now, c.lease), "", None, now, now, None)
  }

  function Fence(r: PlanRun, plan: string, now: real): PlanRun
  {
    if r.planId == plan && r.status == Running && !LeaseActive(r, now) then r.(status := Fenced, updatedAt := now) else r
  }

  function Apply(r: PlanRun, u: Update): PlanRun
  {
    match u
    case Renew(lease, now) => r.(leaseUntil := LeaseEnd(now, lease), updatedAt := now)
    case Checkpoint(e, now) => r.(checkpoint := Some(e), usage := e.usage, updatedAt := now)
    case Finish(status, result, now) =>
      r.(status := status, checkpoint := if result.Some? then result else r.checkpoint,
         usage := if result.Some? then result.value.usage else r.usage, completedAt := Some(now), updatedAt := now)
  }

  // ----- the list -----

  function MaxToken(runs: seq<PlanRun>, plan: string): nat
  {
    if runs == [] then 0
    else
      var rest, r := MaxToken(runs[..|runs| - 1], plan), runs[|runs| - 1];
      if r.planId == plan && r.token > rest then r.token else rest
  }

  predicate HasPlan(runs: seq<PlanRun>, plan: string)
  {
    exists i :: 0 <= i < |runs| && runs[i].planId == plan
  }

  predicate HasActive(runs: seq<PlanRun>, plan: string, now: real)
  {
    exists i :: 0 <= i < |runs| && runs[i].planId == plan && LeaseActive(runs[i], now)
  }

  function FenceAll(runs: seq<PlanRun>, plan: string, now: real): seq<PlanRun>
  {
    seq(|runs|, i requires 0 <= i < |runs| => Fence(runs[i], plan, now))
  }

  function JsonClaim(runs: seq<PlanRun>, c: Claimant, now: real): (seq<PlanRun>, Result<PlanRun, Refusal>)
  {
    if HasActive(runs, c.planId, now) then (runs, Err(Conflict))
    else
      var run := NewRun(c, MaxToken(runs, c.planId) + 1, HasPlan(runs, c.planId), now);
      (FenceAll(runs, c.planId, now) + [run], Ok(run))
  }

  /** The first position of a run id; later duplicates are never looked at. */
  function Find(runs: seq<PlanRun>, runId: string): (k: nat)
    ensures k <= |runs|
    ensures forall i :: 0 <= i < k ==> runs[i].runId != runId
    ensures k < |runs| ==> runs[k].runId == runId
  {
    if runs == [] then 0
    else
      var k := Find(runs[..|runs| - 1], runId);
      if k < |runs| - 1 || runs[|runs| - 1].runId == runId then k else |runs|
  }

  predicate Holds(r: PlanRun, worker: string, token: nat, latest: nat)
  {
    r.worker == worker && r.token == token && token == latest && r.status == Running
  }

  function JsonMutate(runs: seq<PlanRun>, runId: string, worker: string, token: nat, u: Update): (seq<PlanRun>, Result<PlanRun, Refusal>)
  {
    var k := Find(runs, runId);
    if k == |runs| || !Holds(runs[k], worker, token, MaxToken(runs, runs[k].planId)) then (runs, Err(Conflict))
    else (runs[k := Apply(runs[k], u)], Ok(Apply(runs[k], u)))
  }

  class JsonPlanRunRepository {
    var runs: seq<PlanRun>

    constructor ()
      ensures runs == []
    {
      runs := [];
    }

    method Claim(c: Claimant, now: real) returns (r: Result<PlanRun, Refusal>)
      modifies this
      ensures (runs, r) == JsonClaim(old(runs), c, now)
    {
      if exists i :: 0 <= i < |runs| && runs[i].planId == c.planId && LeaseActive(runs[i], now) {
        return Err(Conflict);
      }
      var matching := HasPlan(runs, c.planId);
      var fencing := LatestToken(c.planId);
      var index := 0;
      while index < |runs|
        invariant 0 <= index <= |runs| == |old(runs)|
        invariant forall i :: 0 <= i < |runs| ==>
          runs[i] == if i < index then Fence(old(runs)[i], c.planId, now) else old(runs)[i]
      {
        var item := runs[index];
        if item.planId == c.planId && item.status == Running && !LeaseActive(item, now) {
          runs := runs[index := item.(status := Fenced, updatedAt := now)];
        }
        index := index + 1;
      }
      var run := NewRun(c, fencing + 1, matching, now);
      assert runs == FenceAll(old(runs), c.planId, now);
      runs := runs + [run];
      return Ok(run);
    }

    method LatestToken(plan: string) returns (m: nat)
      ensures m == MaxToken(runs, plan)
    {
      m := 0;
      for i := 0 to |runs|
        invariant m == MaxToken(runs[..i], plan)
      {
        assert runs[..i + 1][..i] == runs[..i];
        if runs[i].planId == plan && runs[i].token > m {
          m := runs[i].token;
        }
      }
      assert runs[..|runs|] == runs;
    }

    method Mutate(runId: string, worker: string, token: nat, u: Update) returns (r: Result<PlanRun, Refusal>)
      modifies this
      ensures (runs, r) == JsonMutate(old(runs), runId, worker, token, u)
    {
      var index := 0;
      while index < |runs|
        invariant 0 <= index <= |runs| && runs == old(runs)
        invariant forall i :: 0 <= i < index ==> runs[i].runId != runId
      {
        var item := runs[index];
        if item.runId == runId {
          assert Find(runs, runId) == index;
          var latest := LatestToken(item.planId);
          if item.worker != worker || item.token != token || item.token != latest || item.status != Running {
            return Err(Conflict);
          }
          runs := runs[index := Apply(item, u)];
          return Ok(Apply(item, u));
        }
        index := index + 1;
      }
      return Err(Conflict);
    }
  }

  // ----- the table -----

  type Table = map<string, PlanRun>

  ghost function Tokens(rows: Table, plan: string): set<nat>
  {
    set id | id in rows && rows[id].planId == plan :: rows[id].token
  }

  ghost predicate IsLatest(rows: Table, plan: string, m: nat)
  {
    && (forall id :: id in rows && rows[id].planId == plan ==> rows[id].token <= m)
    && (m > 0 ==> exists id :: id in rows && rows[id].planId == plan && rows[id].token == m)
  }

  predicate TableHasPlan(rows: Table, plan: string)
  {
    exists id :: id in rows && rows[id].planId == plan
  }

  predicate TableHasActive(rows: Table, plan: string, now: real)
  {
    exists id :: id in rows && rows[id].planId == plan && LeaseActive(rows[id], now)
  }

  /** The first update of a claim; every matching row whose lease has ended. */
  function FenceTable(rows: Table, plan: string, now: real): Table
  {
    map id | id in rows :: Fence(rows[id], plan, now)
  }

  /** The unique constraints on run id and on (plan, token). */
  predicate Insertable(rows: Table, r: PlanRun)
  {
    r.runId !in rows && forall id :: id in rows ==> !(rows[id].planId == r.planId && rows[id].token == r.token)
  }

  /** `latest` is the greatest token of the plan. */
  function SqlClaim(rows: Table, c: Claimant, now: real, latest: nat): (Table, Result<PlanRun, Refusal>)
  {
    var run := NewRun(c, latest + 1, TableHasPlan(rows, c.planId), now);
    if TableHasActive(rows, c.planId, now) || !Insertable(rows, run) then (rows, Err(Conflict))
    else (FenceTable(rows, c.planId, now)[c.runId := run], Ok(run))
  }

  /** Rows of other users are invisible to a repository opened for one user. */
  predicate Visible(r: PlanRun, user: Option<string>)
  {
    user.None? || r.user == user.value
  }

  function SqlMutate(rows: Table, user: Option<string>, runId: string, worker: string, token: nat, u: Update, latest: nat)
    : (Table, Result<PlanRun, Refusal>)
  {
    if runId !in rows || !Visible(rows[runId], user) || !Holds(rows[runId], worker, token, latest) then (rows, Err(Conflict))
    else (rows[runId := Apply(rows[runId], u)], Ok(Apply(rows[runId], u)))
  }

  class SqlPlanRunRepository {
    var rows: Table
    const user: Option<string>

    constructor (user: Option<string>)
      ensures rows == map[] && this.user == user
    {
      rows := map[];
      this.user := user;
    }

    method LatestToken(plan: string) returns (m: nat)
      ensures IsLatest(rows, plan, m)
    {
      m := 0;
      var todo := rows.Keys;
      while todo != {}
        invariant todo <= rows.Keys
        invariant forall id :: id in rows && id !in todo && rows[id].planId == plan ==> rows[id].token <= m
        invariant m > 0 ==> exists id :: id in rows && rows[id].planId == plan && rows[id].token == m
        decreases |todo|
      {
        var id :| id in todo;
        if rows[id].planId == plan && rows[id].token > m {
          m := rows[id].token;
        }
        todo := todo - {id};
      }
    }

    method Claim(c: Claimant, now: real) returns (r: Result<PlanRun, Refusal>, ghost latest: nat)
      modifies this
      ensures IsLatest(old(rows), c.planId, latest)
      ensures (rows, r) == SqlClaim(old(rows), c, now, latest)
    {
      var fencing := LatestToken(c.planId);
      latest := fencing;
      if exists id :: id in rows && rows[id].planId == c.planId && LeaseActive(rows[id], now) {
        return Err(Conflict), latest;
      }
      var run := NewRun(c, fencing + 1, TableHasPlan(rows, c.planId), now);
      if c.runId in rows || exists id :: id in rows && rows[id].planId == c.planId && rows[id].token == run.token {
        return Err(Conflict), latest;
      }
      rows := FenceTable(rows, c.planId, now);
      rows := rows[c.runId := run];
      return Ok(run), latest;
    }

    method ConditionalUpdate(runId: string, worker: string, token: nat, u: Update) returns (r: Result<PlanRun, Refusal>, ghost latest: nat)
      modifies this
      ensures runId in old(rows) ==> IsLatest(old(rows), old(rows)[runId].planId, latest)
      ensures (rows, r) == SqlMutate(old(rows), user, runId, worker, token, u, latest)
    {
      latest := 0;
      if runId !in rows {
        return Err(Conflict), latest;
      }
      var current := rows[runId];
      var fencing := LatestToken(current.planId);
      latest := fencing;
      if user.Some? && current.user != user.value {
        return Err(Conflict), latest;
      }
      if fencing != token {
        return Err(Conflict), latest;
      }
      if current.worker != worker || current.token != token || current.status != Running {
        return Err(Conflict), latest;
      }
      rows := rows[runId := Apply(current, u)];
      return Ok(rows[runId]), latest;
    }
  }
}
