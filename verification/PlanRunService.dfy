/**
 The use cases of app/services/plan_runs.py over the file back end: acquiring a run, checkpointing
 under a renewed lease, finishing, and the events they publish.
 */
module PlanRunServices {
  import opened Wrappers
  import opened PlanRuns
  import opened PlanRunRefinement

  datatype PlanEvent =
    | LeaseExpired(previousToken: int) | RunFenced(previousToken: int) | RunRecovered | Acquired(kind: RunKind)
    | Checkpointed | Ended(status: RunStatus)

  datatype Published = Published(planId: string, runId: string, worker: string, token: nat, event: PlanEvent)

  function Publish(r: PlanRun, e: PlanEvent): Published
  {
    Published(r.planId, r.runId, r.worker, r.token, e)
  }

  /** Taking a plan over is announced before the acquisition itself. */
  function StartEvents(r: PlanRun): seq<Published>
  {
    (if r.kind == Recovery
     then [Publish(r, LeaseExpired(r.token - 1)), Publish(r, RunFenced(r.token - 1)), Publish(r, RunRecovered)]
     else [])
    + [Publish(r, Acquired(r.kind))]
  }

  /** The plan outcomes that become run outcomes; anything else is a failure. */
  function FinishStatus(outcome: string): RunStatus
  {
    if outcome == "awaiting_confirmation" then AwaitingConfirmation
    else if outcome == "completed" then Completed
    else if outcome == "cancelled" then Cancelled
    else Failed
  }

  /** Two separate writes; the second uses the credentials of the renewed run. */
  function CheckpointTwice(runs: seq<PlanRun>, r: PlanRun, lease: int, e: Execution, now: real, at: real)
    : (seq<PlanRun>, Result<PlanRun, Refusal>)
  {
    match JsonMutate(runs, r.runId, r.worker, r.token, Renew(lease, now))
    case (runs', Err(x)) => (runs', Err(x))
    case (runs', Ok(renewed)) => JsonMutate(runs', renewed.runId, renewed.worker, renewed.token, PlanRuns.Checkpoint(e, at))
  }

  class PlanRunService {
    const repository: JsonPlanRunRepository
    const leaseSeconds: int
    var events: seq<Published>

    constructor (repository: JsonPlanRunRepository, leaseSeconds: int)
      ensures this.repository == repository && events == []
      ensures this.leaseSeconds == if leaseSeconds > 1 then leaseSeconds else 1
    {
      this.repository := repository;
      this.leaseSeconds := if leaseSeconds > 1 then leaseSeconds else 1;
      events := [];
    }

    method Start(c: Claimant, now: real) returns (r: Result<PlanRun, Refusal>)
      modifies this`events, repository
      ensures (repository.runs, r) == JsonClaim(old(repository.runs), c.(lease := leaseSeconds), now)
      ensures r.Err? ==> events == old(events)
      ensures events == old(events) + if r.Ok? then StartEvents(r.value) else []
    {
      r := repository.Claim(c.(lease := leaseSeconds), now);
      if r.Ok? {
        var run := r.value;
        if run.kind == Recovery {
          events := events + [Publish(run, LeaseExpired(run.token - 1))];
          events := events + [Publish(run, RunFenced(run.token - 1))];
          events := events + [Publish(run, RunRecovered)];
        }
        events := events + [Publish(run, Acquired(run.kind))];
      }
    }

    method Checkpoint(run: PlanRun, e: Execution, now: real, at: real) returns (r: Result<PlanRun, Refusal>)
      modifies this`events, repository
      ensures (repository.runs, r) == CheckpointTwice(old(repository.runs), run, leaseSeconds, e, now, at)
      ensures events == old(events) + if r.Ok? then [Publish(r.value, Checkpointed)] else []
    {
      var renewed := repository.Mutate(run.runId, run.worker, run.token, Renew(leaseSeconds, now));
      if renewed.Err? {
        return Err(renewed.error);
      }
      var held := renewed.value;
      r := repository.Mutate(held.runId, held.worker, held.token, PlanRuns.Checkpoint(e, at));
      if r.Ok? {
        events := events + [Publish(r.value, Checkpointed)];
      }
    }

    method Finish(run: PlanRun, outcome: string, e: Execution, now: real) returns (r: Result<PlanRun, Refusal>)
      modifies this`events, repository
      ensures (repository.runs, r) ==
        JsonMutate(old(repository.runs), run.runId, run.worker, run.token, PlanRuns.Finish(FinishStatus(outcome), Some(e), now))
      ensures events == old(events) + if r.Ok? then [Publish(r.value, Ended(FinishStatus(outcome)))] else []
    {
      var status := Failed;
      if outcome in {"awaiting_confirmation", "completed", "failed", "cancelled"} {
        status := FinishStatus(outcome);
      }
      r := repository.Mutate(run.runId, run.worker, run.token, PlanRuns.Finish(status, Some(e), now));
      if r.Ok? {
        events := events + [Publish(r.value, Ended(r.value.status))];
      }
    }
  }

  /**
   A checkpoint whose renewal is accepted is stored, leaves the run running, and keeps every other
   claim of the plan out until the renewed lease ends.
   */
  lemma CheckpointIsStored(runs: seq<PlanRun>, r: PlanRun, lease: int, e: Execution, now: real, at: real, c: Claimant, later: real)
    requires JsonMutate(runs, r.runId, r.worker, r.token, Renew(lease, now)).1.Ok?
    requires later < LeaseEnd(now, lease)
    ensures var (end, result) := CheckpointTwice(runs, r, lease, e, now, at);
      && result.Ok? && result.value.checkpoint == Some(e) && result.value.usage == e.usage
      && result.value.status == Running && result.value.token == r.token && result.value.leaseUntil == LeaseEnd(now, lease)
      && (c.planId == result.value.planId ==> JsonClaim(end, c, later) == (end, Err(Conflict)))
  {
    var k := Find(runs, r.runId);
    var runs' := JsonMutate(runs, r.runId, r.worker, r.token, Renew(lease, now)).0;
    assert Find(runs', r.runId) == k by { FindStable(runs, runs', r.runId); }
    var plan := runs[k].planId;
    TokensOnlyGrow(runs, runs', plan);
    TokensOnlyGrow(runs', runs, plan);
    var end := CheckpointTwice(runs, r, lease, e, now, at).0;
    assert LeaseActive(end[k], later);
  }

  lemma FindStable(a: seq<PlanRun>, b: seq<PlanRun>, id: string)
    requires |a| == |b| && forall i :: 0 <= i < |a| ==> a[i].runId == b[i].runId
    ensures Find(a, id) == Find(b, id)
  {}

  /**
   What a start announces: its last event is the acquisition by the run that is now stored last, and
   every event carries that run's token, one above all earlier ones. Recovery events come before it.
   */
  lemma StartAnnounces(runs: seq<PlanRun>, c: Claimant, now: real)
    requires JsonClaim(runs, c, now).1.Ok?
    ensures var (end, r) := JsonClaim(runs, c, now); var run := r.value; var events := StartEvents(run);
      && end[|end| - 1] == run && run.status == Running
      && (forall i :: 0 <= i < |runs| && runs[i].planId == c.planId ==> runs[i].token < run.token)
      && (forall e :: e in events ==> e.planId == c.planId && e.runId == c.runId && e.worker == c.worker && e.token == run.token)
      && events[|events| - 1].event == Acquired(run.kind)
      && (forall i :: 0 <= i < |events| && events[i].event.Acquired? ==> i == |events| - 1)
      && (c.kind == Initial ==> (|events| > 1 <==> HasPlan(runs, c.planId)))
      && (|events| > 1 ==>
            && events[0].event == LeaseExpired(run.token - 1) && events[1].event == RunFenced(run.token - 1)
            && events[2].event == RunRecovered && |events| == 4)
  {
    MaxTokenIs(runs, c.planId);
  }

  predicate HasRunning(runs: seq<PlanRun>, plan: string)
  {
    exists i :: 0 <= i < |runs| && runs[i].planId == plan && runs[i].status == Running
  }

  /** Between the two lists the run of the plan with this token went from running to fenced. */
  predicate FencedBetween(runs: seq<PlanRun>, end: seq<PlanRun>, plan: string, token: int)
    requires |runs| <= |end|
  {
    exists i :: 0 <= i < |runs| && runs[i].planId == plan && runs[i].token == token && runs[i].status == Running && end[i].status == Fenced
  }

  /**
   A recovery announces that the token before its own was fenced. That is what happened exactly when
   the plan still had a running run: a run that had ended by itself is announced as fenced as well.
   */
  lemma FenceAnnouncedIff(runs: seq<PlanRun>, c: Claimant, now: real)
    requires ListOk(runs) && JsonClaim(runs, c, now).1.Ok? && JsonClaim(runs, c, now).1.value.kind == Recovery
    ensures var (end, r) := JsonClaim(runs, c, now); var fenced := StartEvents(r.value)[1].event;
      && fenced.RunFenced?
      && (FencedBetween(runs, end, c.planId, fenced.previousToken) <==> HasRunning(runs, c.planId))
  {
    MaxTokenIs(runs, c.planId);
    if HasRunning(runs, c.planId) {
      var i :| 0 <= i < |runs| && runs[i].planId == c.planId && runs[i].status == Running;
      assert runs[i].token == MaxToken(runs, c.planId);
      assert !LeaseActive(runs[i], now);
      assert JsonClaim(runs, c, now).0[i].status == Fenced;
    }
  }

  // ----- a finished run -----

  predicate EndedAt(runs: seq<PlanRun>, k: nat, runId: string)
  {
    k < |runs| && Find(runs, runId) == k && runs[k].status != Running
  }

  lemma EndedStays(runs: seq<PlanRun>, k: nat, runId: string, step: Step)
    requires EndedAt(runs, k, runId)
    ensures EndedAt(JsonDo(runs, step).0, k, runId)
    ensures JsonDo(runs, step).0[k] == runs[k]
  {
    match step
    case Claim(c, now) =>
      var (end, r) := JsonClaim(runs, c, now);
      if r.Ok? {
        FindStable(runs, FenceAll(runs, c.planId, now), runId);
        assert end[..|end| - 1] == FenceAll(runs, c.planId, now);
      }
    case Mutate(id, worker, token, u) =>
      FindStable(runs, JsonMutate(runs, id, worker, token, u).0, runId);
  }

  /**
   An accepted finish ends the run for good: whatever happens afterwards, its row stays what the
   finish stored and every write to it is refused, whoever makes it and under whatever token.
   */
  lemma FinishIsForever(runs: seq<PlanRun>, r: PlanRun, outcome: string, e: Execution, now: real, steps: seq<Step>,
      worker: string, token: nat, u: Update)
    requires JsonMutate(runs, r.runId, r.worker, r.token, PlanRuns.Finish(FinishStatus(outcome), Some(e), now)).1.Ok?
    ensures var (end, finished) := JsonMutate(runs, r.runId, r.worker, r.token, PlanRuns.Finish(FinishStatus(outcome), Some(e), now));
      var later := JsonRun(end, steps);
      && finished.value.checkpoint == Some(e)
      && (match outcome
          case "awaiting_confirmation" => finished.value.status == AwaitingConfirmation
          case "completed" => finished.value.status == Completed
          case "cancelled" => finished.value.status == Cancelled
          case _ => finished.value.status == Failed)
      && Find(later, r.runId) < |later| && later[Find(later, r.runId)] == finished.value
      && JsonMutate(later, r.runId, worker, token, u) == (later, Err(Conflict))
  {
    var end := JsonMutate(runs, r.runId, r.worker, r.token, PlanRuns.Finish(FinishStatus(outcome), Some(e), now)).0;
    var k := Find(runs, r.runId);
    FindStable(runs, end, r.runId);
    EndedForever(end, k, r.runId, steps);
  }

  lemma {:induction false} EndedForever(runs: seq<PlanRun>, k: nat, runId: string, steps: seq<Step>)
    requires EndedAt(runs, k, runId)
    ensures EndedAt(JsonRun(runs, steps), k, runId) && JsonRun(runs, steps)[k] == runs[k]
    decreases |steps|
  {
    if steps != [] {
      EndedStays(runs, k, runId, steps[0]);
      EndedForever(JsonDo(runs, steps[0]).0, k, runId, steps[1..]);
    }
  }
}
