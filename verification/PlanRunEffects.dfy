/**
 When a plan run is handed out or written, and exactly what that writes: stated on the list of runs
 before and after, for both back ends where they share a rule.
 */
module PlanRunEffects {
  import opened Wrappers
  import opened PlanRuns

  /** Some holder of the plan is still inside its lease. */
  predicate Held(runs: seq<PlanRun>, plan: string, now: real)
  {
    exists i :: 0 <= i < |runs| && runs[i].planId == plan && runs[i].status.Running? && now < runs[i].leaseUntil
  }

  /** The token is that of a run of the plan, or zero without runs, and none is greater. */
  predicate Greatest(runs: seq<PlanRun>, plan: string, token: nat)
  {
    && (forall i :: 0 <= i < |runs| && runs[i].planId == plan ==> runs[i].token <= token)
    && (token == 0 || exists i :: 0 <= i < |runs| && runs[i].planId == plan && runs[i].token == token)
  }

  lemma {:induction false} MaxTokenIsGreatest(runs: seq<PlanRun>, plan: string)
    ensures Greatest(runs, plan, MaxToken(runs, plan))
  {
    if runs != [] {
      var front := runs[..|runs| - 1];
      MaxTokenIsGreatest(front, plan);
      assert runs == front + [runs[|runs| - 1]];
      if MaxToken(runs, plan) != 0 && MaxToken(runs, plan) == MaxToken(front, plan) {
        var i :| 0 <= i < |front| && front[i].planId == plan && front[i].token == MaxToken(front, plan);
        assert runs[i].planId == plan && runs[i].token == MaxToken(runs, plan);
      }
    }
  }

  /** A lease lasts the seconds asked for, but at least one. */
  lemma LeaseLasts(now: real, seconds: int)
    ensures LeaseEnd(now, seconds) - now == (if seconds < 1 then 1 else seconds) as real
  {}

  /** What a claim writes for itself. */
  predicate Fresh(run: PlanRun, c: Claimant, token: nat, takesOver: bool, now: real)
  {
    && run.runId == c.runId && run.planId == c.planId && run.session == c.session && run.user == c.user && run.worker == c.worker
    && run.kind == (if takesOver && c.kind.Initial? then Recovery else c.kind)
    && run.status == Running && run.token == token && run.leaseUntil == LeaseEnd(now, c.lease)
    && run.createdAt == run.updatedAt == now && run.completedAt.None? && run.checkpoint.None? && run.usage == ""
  }

  /** What it does to an earlier run: a running one of the plan is fenced, any other stays as it is. */
  predicate Displaced(r: PlanRun, r': PlanRun, plan: string, now: real)
  {
    if r.planId == plan && r.status.Running? then r' == r.(status := Fenced, updatedAt := now) else r' == r
  }

  /**
   The file: a claim is refused exactly while another holder is inside its lease; otherwise every
   running run of the plan is fenced in place and the new one is appended under the next token.
   */
  lemma JsonClaimDecides(runs: seq<PlanRun>, c: Claimant, now: real, latest: nat)
    requires Greatest(runs, c.planId, latest)
    ensures var (runs', r) := JsonClaim(runs, c, now);
      if Held(runs, c.planId, now) then r == Err(Conflict) && runs' == runs
      else
        && r.Ok? && |runs'| == |runs| + 1 && runs'[|runs|] == r.value
        && Fresh(r.value, c, latest + 1, exists i :: 0 <= i < |runs| && runs[i].planId == c.planId, now)
        && forall i :: 0 <= i < |runs| ==> Displaced(runs[i], runs'[i], c.planId, now)
  {
    MaxTokenIsGreatest(runs, c.planId);
    if !Held(runs, c.planId, now) {
      forall i | 0 <= i < |runs| ensures Displaced(runs[i], JsonClaim(runs, c, now).0[i], c.planId, now) {
        assert runs[i].planId == c.planId && runs[i].status.Running? ==> !LeaseActive(runs[i], now);
      }
    }
  }

  /** The run `id` is this worker's under this token, it is running, and no later run of its plan exists. */
  predicate MayWrite(r: PlanRun, worker: string, token: nat, latest: nat)
  {
    r.status.Running? && (r.worker, r.token) == (worker, token) && r.token == latest
  }

  /** What each kind of write changes, and that it changes nothing else. */
  predicate Wrote(r: PlanRun, r': PlanRun, u: Update)
  {
    match u
    case Renew(lease, now) => r' == r.(leaseUntil := r'.leaseUntil, updatedAt := now) && r'.leaseUntil == LeaseEnd(now, lease)
    case Checkpoint(e, now) => r' == r.(checkpoint := Some(e), usage := e.usage, updatedAt := now)
    case Finish(status, result, now) =>
      && r' == r.(status := status, checkpoint := r'.checkpoint, usage := r'.usage, completedAt := Some(now), updatedAt := now)
      && (result.None? ==> r'.checkpoint == r.checkpoint && r'.usage == r.usage)
      && (result.Some? ==> r'.checkpoint == result && r'.usage == result.value.usage)
  }

  /** The first run with the id, if there is one. */
  predicate FirstWith(runs: seq<PlanRun>, runId: string, k: nat)
  {
    k < |runs| && runs[k].runId == runId && forall i :: 0 <= i < k ==> runs[i].runId != runId
  }

  /** The file: a write reaches the first run with the id, exactly for its holder under the latest token. */
  lemma JsonMutateDecides(runs: seq<PlanRun>, runId: string, worker: string, token: nat, u: Update, k: nat, latest: nat)
    requires FirstWith(runs, runId, k) && Greatest(runs, runs[k].planId, latest)
    ensures var (runs', r) := JsonMutate(runs, runId, worker, token, u);
      if MayWrite(runs[k], worker, token, latest)
      then |runs'| == |runs| && runs' == runs[k := runs'[k]] && Wrote(runs[k], runs'[k], u) && r == Ok(runs'[k])
      else r == Err(Conflict) && runs' == runs
  {
    MaxTokenIsGreatest(runs, runs[k].planId);
    assert Find(runs, runId) == k;
  }

  lemma JsonUnknownRun(runs: seq<PlanRun>, runId: string, worker: string, token: nat, u: Update)
    requires forall i :: 0 <= i < |runs| ==> runs[i].runId != runId
    ensures JsonMutate(runs, runId, worker, token, u) == (runs, Err(Conflict))
  {}

  predicate TableHeld(rows: Table, plan: string, now: real)
  {
    exists id :: id in rows && rows[id].planId == plan && rows[id].status.Running? && now < rows[id].leaseUntil
  }

  /** The run id or the token is taken. */
  predicate Clash(rows: Table, c: Claimant, token: nat)
  {
    c.runId in rows || exists id :: id in rows && (rows[id].planId, rows[id].token) == (c.planId, token)
  }

  lemma TableRefusals(rows: Table, c: Claimant, now: real, latest: nat)
    ensures TableHasActive(rows, c.planId, now) <==> TableHeld(rows, c.planId, now)
    ensures Insertable(rows, NewRun(c, latest + 1, TableHasPlan(rows, c.planId), now)) <==> !Clash(rows, c, latest + 1)
  {
    if TableHasActive(rows, c.planId, now) {
      var id :| id in rows && rows[id].planId == c.planId && LeaseActive(rows[id], now);
      assert rows[id].status.Running? && now < rows[id].leaseUntil;
    }
    if TableHeld(rows, c.planId, now) {
      var id :| id in rows && rows[id].planId == c.planId && rows[id].status.Running? && now < rows[id].leaseUntil;
      assert LeaseActive(rows[id], now);
    }
  }

  /**
   The table: a claim is refused while another holder is inside its lease, and when its run id or its
   token is taken; otherwise it fences and inserts as the file does.
   */
  lemma SqlClaimDecides(rows: Table, c: Claimant, now: real, latest: nat)
    ensures var (rows', r) := SqlClaim(rows, c, now, latest);
      if TableHeld(rows, c.planId, now) || Clash(rows, c, latest + 1) then r == Err(Conflict) && rows' == rows
      else
        && r.Ok? && rows'.Keys == rows.Keys + {c.runId} && rows'[c.runId] == r.value
        && Fresh(r.value, c, latest + 1, exists id :: id in rows && rows[id].planId == c.planId, now)
        && forall id :: id in rows ==> Displaced(rows[id], rows'[id], c.planId, now)
  {
    TableRefusals(rows, c, now, latest);
    var (rows', r) := SqlClaim(rows, c, now, latest);
    if r.Ok? {
      forall id | id in rows ensures Displaced(rows[id], rows'[id], c.planId, now) {
        assert rows[id].planId == c.planId && rows[id].status.Running? ==> !LeaseActive(rows[id], now);
      }
    }
  }

  /** The table: a write needs a visible run, its holder and the latest token. */
  lemma SqlMutateDecides(rows: Table, user: Option<string>, runId: string, worker: string, token: nat, u: Update, latest: nat)
    ensures var (rows', r) := SqlMutate(rows, user, runId, worker, token, u, latest);
      if runId in rows && (user == None || user == Some(rows[runId].user)) && MayWrite(rows[runId], worker, token, latest)
      then rows' == rows[runId := rows'[runId]] && Wrote(rows[runId], rows'[runId], u) && r == Ok(rows'[runId])
      else r == Err(Conflict) && rows' == rows
  {}

  // ----- in time -----

  /** A granted or renewed run keeps every other claim of the plan out at exactly the readings before its lease ends. */
  lemma LeaseKeepsOthersOut(runs: seq<PlanRun>, k: nat, c: Claimant, at: real)
    requires k < |runs| && runs[k].status == Running && runs[k].planId == c.planId
    requires forall i :: 0 <= i < |runs| && i != k && runs[i].planId == c.planId ==> runs[i].status != Running
    ensures JsonClaim(runs, c, at).1.Err? <==> at < runs[k].leaseUntil
  {
    assert LeaseActive(runs[k], at) <==> at < runs[k].leaseUntil;
  }
}
