/**
 When each operation on a stored run stops, and exactly what it writes: stated on the row before and
 after, for every operation that was planned on the current row.
 */
module RunEffects {
  import opened Wrappers
  import opened Handoffs
  import opened RunQueue
  import opened RunProtocol
  import opened RunSafety

  /** Some write call is not known to have completed. */
  ghost predicate InDoubt(r: Run)
  {
    exists k: CallKey :: k in r.payload.calls && k.kind.WriteCall? && !r.payload.calls[k].state.Done?
  }

  /** A cancellation was asked for while nothing had been written. */
  predicate ToBeCancelled(r: Run)
  {
    r.cancel.Requested? && !r.payload.writeStarted
  }

  /** Submission data never change; the version counts the write. */
  predicate SameRun(r: Run, r': Run)
  {
    r'.scope == r.scope && r'.key == r.key && r'.requestHash == r.requestHash && r'.build == r.build && r'.version == r.version + 1
  }

  /** Nothing changes but what the lemma says about status, lease, cancellation and error. */
  predicate SameWork(r: Run, r': Run)
  {
    SameRun(r, r') && r'.payload == r.payload && r'.maxAttempts == r.maxAttempts
  }

  predicate SameClaim(r: Run, r': Run)
  {
    r'.owner == r.owner && r'.fence == r.fence && r'.attempt == r.attempt
  }

  /** Only the payload changes. */
  predicate OnlyPayload(r: Run, r': Run)
  {
    r' == r.(payload := r'.payload, version := r.version + 1)
  }

  /** What an operation makes of the current row when nothing refuses it. */
  function Next(own: Owners, r: Run, op: Op): Run
    requires Planned(r, op).Some?
  {
    Outcome(own, r, Planned(r, op).value)
  }

  // ----- claiming -----

  predicate DueAt(r: Run, at: real)
  {
    (r.status in {Queued, RetryWait} && at >= r.nextRetryAt) || (r.status.Running? && at >= r.leaseUntil)
  }

  /**
   A candidate that is due is, in this order: set aside when a write is in doubt or the build differs,
   cancelled if that was asked for in time, buried without an attempt left, or handed to the caller
   for its lease under the next fence.
   */
  lemma ClaimDecides(own: Owners, r: Run, owner: string, now: real, lease: real, build: nat)
    ensures var op := Claim(owner, now, lease, build);
      && (Planned(r, op).Some? <==> DueAt(r, now))
      && (DueAt(r, now) ==>
            && var r' := Next(own, r, op); var e := Planned(r, op).value.event;
            && SameWork(r, r') && r'.nextRetryAt == r.nextRetryAt
            && (if InDoubt(r) || build != r.build then
                  SameClaim(r, r') && r'.status == NeedsReconciliation && r'.error == "UNSAFE_RECOVERY" && e == RunNeedsReconciliation
                  && r'.leaseUntil == r.leaseUntil && r'.cancel == r.cancel
                else if ToBeCancelled(r) then
                  SameClaim(r, r') && r'.status == Cancelled && r'.cancel == Acknowledged && r'.error == r.error && e == RunCancelled
                else if r.maxAttempts <= r.attempt then
                  SameClaim(r, r') && r'.status == DeadLetter && r'.error == "ATTEMPTS_EXHAUSTED" && e == RunDeadLetter && r'.cancel == r.cancel
                else
                  r'.status == Running && r'.owner == owner && r'.fence == r.fence + 1 && r'.attempt == r.attempt + 1
                  && r'.cancel == r.cancel && r'.error == "" && e == RunClaimed(owner, r'.fence, r.status == Running)))
  {}

  /** A granted run is its holder's at exactly the readings before the end of the lease, and due from then on. */
  lemma ClaimHolds(own: Owners, r: Run, owner: string, now: real, lease: real, build: nat)
    requires DueAt(r, now) && !InDoubt(r) && build == r.build && !ToBeCancelled(r) && r.attempt < r.maxAttempts
    ensures var r' := Next(own, r, Claim(owner, now, lease, build));
      && (forall at :: Owned(r', owner, r'.fence, at) <==> at < now + lease)
      && (forall at :: DueAt(r', at) <==> now + lease <= at)
  {}

  /** A heartbeat moves the end of the lease and nothing else. */
  lemma HeartbeatRenews(own: Owners, r: Run, now: real, lease: real)
    requires r.status == Running
    ensures Planned(r, Heartbeat(now, lease)).Some?
    ensures var r' := Next(own, r, Heartbeat(now, lease));
      && r' == r.(leaseUntil := r'.leaseUntil, version := r.version + 1)
      && (forall at :: Owned(r', r.owner, r.fence, at) <==> at < now + lease)
  {}

  /** The lease check: a running row, its holder, its fence, before the end. */
  lemma OwnedIff(r: Run, owner: string, fence: nat, at: real)
    ensures Owned(r, owner, fence, at) <==> r.status.Running? && (r.owner, r.fence) == (owner, fence) && at < r.leaseUntil
  {}

  // ----- operators -----

  /** A cancellation succeeds at once before any write, is noted on a running run, and otherwise comes too late. */
  lemma CancelDecides(own: Owners, r: Run)
    ensures Planned(r, Cancel).Some? <==> r.cancel != Acknowledged
    ensures r.cancel != Acknowledged ==>
      && var r' := Next(own, r, Cancel);
      && r' == r.(status := r'.status, cancel := r'.cancel, version := r.version + 1)
      && (if r.status in {Queued, RetryWait, DeadLetter} && !r.payload.writeStarted
          then r'.status == Cancelled && r'.cancel == Acknowledged
          else r'.status == r.status && r'.cancel == if r.status.Running? then Requested else TooLate)
  {}

  /** Only a dead letter of this build without a write in doubt is replayed: due at once, three more attempts. */
  lemma ReplayDecides(own: Owners, r: Run, actor: string, now: real, build: nat)
    ensures var op := Replay(actor, now, build);
      && (Planned(r, op).Some? <==> r.status.DeadLetter? && !InDoubt(r) && r.build == build)
      && (Planned(r, op).Some? ==>
            && var r' := Next(own, r, op);
            && SameRun(r, r') && SameClaim(r, r') && r'.payload == r.payload && r'.leaseUntil == r.leaseUntil
            && r'.status == Queued && (forall at :: DueAt(r', at) <==> now <= at)
            && r'.maxAttempts - r.attempt == 3 && r'.cancel == NoCancel && r'.error == "")
  {}

  // ----- calls -----

  /** Starting a call: refused for a cancelled run; otherwise it is in flight with one more dispatch. */
  lemma BeginRegisters(own: Owners, r: Run, k: CallKey)
    ensures Planned(r, Begin(k)).Some? <==> !ToBeCancelled(r)
    ensures !ToBeCancelled(r) ==>
      && var r' := Next(own, r, Begin(k)); var before := if k in r.payload.calls then r.payload.calls[k].dispatches else 0;
      && OnlyPayload(r, r') && r'.payload == r.payload.(calls := r'.payload.calls, writeStarted := r'.payload.writeStarted)
      && (r'.payload.writeStarted <==> r.payload.writeStarted || k.kind.WriteCall?)
      && r'.payload.calls == r.payload.calls[k := Call(InFlight, before + 1)]
  {}

  /** Ending a call: only a known one, which is done or unknown from then on; its dispatches stay. */
  lemma CompleteRecords(own: Owners, r: Run, k: CallKey, uncertain: bool)
    ensures Planned(r, Complete(k, uncertain)).Some? <==> k in r.payload.calls
    ensures k in r.payload.calls ==>
      && var r' := Next(own, r, Complete(k, uncertain)); var call := r'.payload.calls[k];
      && OnlyPayload(r, r') && r'.payload == r.payload.(calls := r.payload.calls[k := call])
      && call.dispatches == r.payload.calls[k].dispatches && (call.state.Done? <==> !uncertain) && (call.state.Unknown? <==> uncertain)
  {}

  /** The session is remembered as the run first read it; a handoff keeps the newest draft given. */
  lemma NotesAreKept(own: Owners, r: Run, value: Option<string>, draft: Option<Reply>)
    requires r.status == Running
    ensures Planned(r, TakeSnapshot(value)).Some? <==> !ToBeCancelled(r)
    ensures Planned(r, NoteHandoff(draft)).Some? <==> !ToBeCancelled(r)
    ensures !ToBeCancelled(r) ==>
      && var s, h := Next(own, r, TakeSnapshot(value)), Next(own, r, NoteHandoff(draft));
      && OnlyPayload(r, s) && OnlyPayload(r, h)
      && s.payload == r.payload.(snapshot := if r.payload.snapshot.None? then Some(value) else r.payload.snapshot)
      && h.payload == r.payload.(handoff := true, draft := if draft.None? then r.payload.draft else Some(draft))
    ensures Next(own, r, Usage) == r.(version := r.version + 1)
  {}

  // ----- the end of an attempt -----

  /**
   Why an attempt stops decides what follows: a write in doubt or a lost session needs a human, an
   honoured cancellation ends the run, a transient error is retried while attempts last.
   */
  lemma StopDecides(own: Owners, r: Run, code: string, now: real)
    requires r.status == Running
    ensures Planned(r, Stop(code, now)).Some?
    ensures var r' := Next(own, r, Stop(code, now));
      var human := InDoubt(r) || code == "SESSION_CHANGED" || code == "RUN_WRITE_UNKNOWN";
      var again := (code == "TRANSIENT_ERROR" || code == "PLAN_LEASE_PENDING") && r.attempt < r.maxAttempts;
      && SameWork(r, r') && SameClaim(r, r') && r'.error == code && r'.leaseUntil == 0.0
      && (r'.status == NeedsReconciliation <==> human)
      && (r'.status == Cancelled <==> !human && code == "RUN_CANCELLED")
      && (r'.status == RetryWait <==> !human && code != "RUN_CANCELLED" && again)
      && (r'.status == DeadLetter <==> !human && code != "RUN_CANCELLED" && !again)
      && r'.cancel == (if r'.status.Cancelled? then Acknowledged else r.cancel)
      && r'.nextRetryAt - now == RetryDelay(r.attempt)
  {
    PowersOfTwo(r.attempt);
  }

  /** One second after the first failed attempt number zero, doubling, at most a minute. */
  function RetryDelay(attempt: nat): real
  {
    if attempt == 0 then 1.0
    else if 2.0 * RetryDelay(attempt - 1) < 60.0 then 2.0 * RetryDelay(attempt - 1) else 60.0
  }

  lemma {:induction false} PowersOfTwo(n: nat)
    ensures RetryDelay(n) == if Pow2(n) < 60 then Pow2(n) as real else 60.0
  {
    if n > 0 {
      PowersOfTwo(n - 1);
    }
  }

  /** The agent still answers for the session as it did when the run was submitted. */
  predicate Undisturbed(own: Owners, r: Run)
  {
    || !r.payload.runtime.collaboration
    || r.scope !in own
    || (own[r.scope].state.Agent? && (r.payload.runtime.pinned.None? || r.payload.runtime.pinned.value == own[r.scope].version))
  }

  /**
   Completing: refused while a cancellation or a write is pending. An undisturbed run stores exactly
   the reply given; otherwise the public reply is empty and asks for a human, and the reply given is
   kept as the draft unless there is one.
   */
  lemma FinishDelivers(own: Owners, r: Run, reply: Reply, session: Option<string>)
    ensures Planned(r, Finish(reply, session)).Some? <==> !ToBeCancelled(r) && !InDoubt(r)
    ensures !ToBeCancelled(r) && !InDoubt(r) ==>
      && var r' := Next(own, r, Finish(reply, session)); var p, p' := r.payload, r'.payload;
      && SameRun(r, r') && SameClaim(r, r') && r'.maxAttempts == r.maxAttempts && r'.nextRetryAt == r.nextRetryAt && r'.error == r.error
      && r'.status == Completed && r'.leaseUntil == 0.0
      && r'.cancel == (if r.cancel.Requested? then TooLate else r.cancel)
      && p' == p.(result := p'.result, draft := p'.draft)
      && (if Undisturbed(own, r) then p'.result == Some(reply) && p'.draft == p.draft
          else p'.result == Some(Reply("", true, None, [])) && p'.draft == if p.draft.None? then Some(Some(reply)) else p.draft)
  {}

  // ----- the conditional update -----

  /** The stored history is what the run first read of it. */
  predicate SessionFits(s: Store, r: Run)
  {
    if r.scope in s.sessions then r.payload.snapshot == Some(Some(s.sessions[r.scope]))
    else r.payload.snapshot in {None, Some(None)}
  }

  /** What reaches the session history: everything given, except by a disturbed run not handed off. */
  function Output(own: Owners, r: Run, op: Op): Option<string>
  {
    if !op.Finish? then None
    else if Undisturbed(own, r) || r.payload.handoff then op.session else None
  }

  /** What `Delivered` lets through to the history, and the rows an update of this kind is never refused for. */
  lemma UpdateFacts(s: Store, id: string, r: Run, op: Op)
    requires TablesOk(s) && id in s.runs && s.runs[id] == r && Applicable(r, op)
    ensures var p := Planned(r, op).value;
      && Delivered(s.own, r, p.changes, p.session).1 == Output(s.own, r, op)
      && (p.event.CallStarted? <==> op.Begin?)
      && Next(s.own, r, op).version == r.version + 1
      && !Clashes(s.runs, id, Next(s.own, r, op)) && (id, r.version + 1) !in s.events
  {
    assert RowAt(s, id);
    OpKeeps(s.own, r, op);
    NeverRefused(s, id, Next(s.own, r, op));
  }

  /**
   An operation planned on the current row is refused in two cases only: a call started for a disturbed
   run, and history written over a session that has changed. Otherwise row, event and history appear
   together; planned on any other version it changes nothing.
   */
  lemma OpTakesEffectIff(s: Store, id: string, r: Run, op: Op)
    requires TablesOk(s) && id in s.runs && s.runs[id] == r && Applicable(r, op)
    ensures var (s', answer) := OpTx(s, id, r, op); var session := Output(s.own, r, op);
      && answer.Some?
      && (answer.value == Err(HandoffInterrupt) <==> op.Begin? && !Undisturbed(s.own, r))
      && (answer.value == Err(SessionChanged) <==> session.Some? && !SessionFits(s, r))
      && (answer.value.Err? ==> s' == s && answer.value.error in {HandoffInterrupt, SessionChanged})
      && (answer.value.Ok? ==>
            && answer.value.value == Next(s.own, r, op)
            && s' == s.(runs := s.runs[id := Next(s.own, r, op)],
                        events := s.events[(id, r.version + 1) := Planned(r, op).value.event],
                        sessions := if session.Some? then s.sessions[r.scope := session.value] else s.sessions))
  {
    UpdateFacts(s, id, r, op);
  }

  lemma OutdatedPlanFails(s: Store, id: string, stale: Run, op: Op)
    requires id !in s.runs || s.runs[id].version != stale.version
    ensures var (s', answer) := OpTx(s, id, stale, op);
      && s' == s && (answer.Some? ==> answer.value.Err?)
      && (answer.Some? && !(op.Begin? && !Undisturbed(s.own, stale)) ==> answer.value == Err(VersionConflict))
  {}

  // ----- submission -----

  /** A new run is queued and due from the start, with all its attempts and an empty journal. */
  lemma NewRunWaits(scope: Scope, key: string, hash: string, build: nat, max: nat, now: real, runtime: Runtime)
    ensures var r := NewRun(scope, key, hash, build, max, now, runtime);
      && r.scope == scope && r.key == key && r.requestHash == hash && r.build == build && r.payload.runtime == runtime
      && r.status == Queued && (forall at :: DueAt(r, at) <==> now <= at) && r.maxAttempts == max && r.attempt == r.fence == 0
      && r.cancel == NoCancel && r.version == 1 && r.error == "" && r.owner == "" && r.leaseUntil == 0.0
      && r.payload == Payload(map[], false, runtime, None, None, None, false)
  {}

  predicate SessionIdle(s: Store, scope: Scope)
  {
    forall other :: other in s.runs && s.runs[other].scope == scope ==> s.runs[other].status in {Completed, Cancelled}
  }

  predicate NewRequest(s: Store, user: string, key: string)
  {
    forall other :: other in s.runs ==> s.runs[other].key != key || s.runs[other].scope.0 != user
  }

  lemma UnfinishedIsActive(status: Status)
    ensures Active(status) <==> status !in {Completed, Cancelled}
  {
    match status
    case _ =>
  }

  /** A request is stored exactly when its run id and key are new and its session has no unfinished run. */
  lemma SubmitStoresIff(s: Store, id: string, r: Run)
    requires TablesOk(s) && r.status == Queued
    ensures var s' := SubmitTx(s, id, r);
      if id !in s.runs && NewRequest(s, r.scope.0, r.key) && SessionIdle(s, r.scope)
      then s' == s.(runs := s.runs[id := r], events := s.events[(id, 1) := RunQueued])
      else s' == s
  {
    assert LogOk(s, id);
    if !NewRequest(s, r.scope.0, r.key) {
      var other :| other in s.runs && s.runs[other].key == r.key && s.runs[other].scope.0 == r.scope.0;
      assert SameRequest(s.runs[other], r.scope.0, r.key);
    }
    if !SessionIdle(s, r.scope) && id !in s.runs {
      var other :| other in s.runs && s.runs[other].scope == r.scope && s.runs[other].status !in {Completed, Cancelled};
      UnfinishedIsActive(s.runs[other].status);
      assert Clashes(s.runs, id, r);
    }
  }
}
