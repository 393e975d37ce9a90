/**
 The durable agent-run queue of app/repositories/runs.py with the worker's writes of
 app/services/runs.py and app/services/run_context.py.

 Every write is `ChangeTx`: columns computed from a row read earlier, accepted only if the row's
 version is still the one read. `Planned` says which columns each operation computes.
 */
module RunQueue {
  import opened Wrappers
  import opened Handoffs

  // ----- entities -----

  datatype Kind = ModelCall | ReadCall | WriteCall

  /** A journal key: a digest of scope, kind, name and arguments, plus the occurrence index. */
  datatype CallKey = CallKey(kind: Kind, digest: string, index: nat)

  datatype CallState = InFlight | Unknown | Done

  datatype Call = Call(state: CallState, dispatches: nat)

  datatype Runtime = Runtime(collaboration: bool, pinned: Option<nat>)

  datatype Reply = Reply(text: string, requiresHuman: bool, followUp: Option<string>, citations: seq<string>)

  datatype Payload = Payload(
    calls: map<CallKey, Call>,
    writeStarted: bool,
    runtime: Runtime,
    snapshot: Option<Option<string>>,
    result: Option<Reply>,
    draft: Option<Option<Reply>>,
    handoff: bool)

  datatype Status = Queued | Running | RetryWait | DeadLetter | NeedsReconciliation | Completed | Cancelled

  datatype CancelState = NoCancel | Requested | Acknowledged | TooLate

  /** One row of agent_runs; `build` is the execution version that wrote it. */
  datatype Run = Run(
    scope: Scope,
    key: string,
    requestHash: string,
    build: nat,
    status: Status,
    owner: string,
    fence: nat,
    attempt: nat,
    maxAttempts: nat,
    version: nat,
    leaseUntil: real,
    nextRetryAt: real,
    cancel: CancelState,
    error: string,
    payload: Payload)

  datatype Event =
    | RunQueued | RunClaimed(owner: string, fence: nat, recovered: bool) | RunNeedsReconciliation | RunCancelled
    | RunDeadLetter | RunCancel | RunReplayed(actor: string) | RunHeartbeat | RunSnapshot | ModelUsage
    | CallStarted(call: CallKey) | CallCompleted(call: CallKey) | RunHandoff | RunCompleted | RunStopped(code: string)

  /** Events are keyed by run and sequence; sessions hold the stored conversation history. */
  datatype Store = Store(
    runs: map<string, Run>,
    events: map<(string, nat), Event>,
    own: Owners,
    sessions: map<Scope, string>)

  datatype RunError =
    | InvalidKey | IdempotencyConflict | SessionRunActive | IntegrityError | VersionConflict | SessionChanged
    | HandoffInterrupt | NotFound | Busy | ReplayUnsafe

  predicate Active(s: Status)
  {
    s in {Queued, Running, RetryWait, DeadLetter, NeedsReconciliation}
  }

  /** Some write call of the journal is not known to have completed. */
  predicate Unsafe(p: Payload)
  {
    exists k :: k in p.calls && k.kind == WriteCall && p.calls[k].state != Done
  }

  // ----- the one kind of write -----

  /** The columns an update names; the others keep the value of the current row. */
  datatype Changes = Changes(
    status: Option<Status>,
    owner: Option<string>,
    fence: Option<nat>,
    attempt: Option<nat>,
    maxAttempts: Option<nat>,
    leaseUntil: Option<real>,
    nextRetryAt: Option<real>,
    cancel: Option<CancelState>,
    error: Option<string>,
    payload: Option<Payload>)

  const NOTHING := Changes(None, None, None, None, None, None, None, None, None, None)

  function Or<T>(o: Option<T>, default: T): T
  {
    match o
    case Some(v) => v
    case None => default
  }

  function Written(current: Run, stale: Run, ch: Changes): Run
  {
    current.(
      status := Or(ch.status, current.status), owner := Or(ch.owner, current.owner), fence := Or(ch.fence, current.fence),
      attempt := Or(ch.attempt, current.attempt), maxAttempts := Or(ch.maxAttempts, current.maxAttempts),
      leaseUntil := Or(ch.leaseUntil, current.leaseUntil), nextRetryAt := Or(ch.nextRetryAt, current.nextRetryAt),
      cancel := Or(ch.cancel, current.cancel), error := Or(ch.error, current.error),
      payload := Or(ch.payload, current.payload), version := stale.version + 1)
  }

  /** The conversation is no longer the agent's, or has changed hands since the run was submitted. */
  predicate Displaced(own: Owners, run: Run)
  {
    && run.payload.runtime.collaboration
    && run.scope in own
    && (own[run.scope].state == Human
        || (run.payload.runtime.pinned.Some? && own[run.scope].version != run.payload.runtime.pinned.value))
  }

  /** The public reply is emptied; the generated one survives only as an internal draft. */
  function Suppressed(p: Payload): Payload
  {
    p.(draft := if p.draft.Some? then p.draft else Some(p.result), result := Some(Reply("", true, None, [])))
  }

  /** What a completing update writes after the ownership check. */
  function Delivered(own: Owners, stale: Run, ch: Changes, session: Option<string>): (Changes, Option<string>)
  {
    if ch.status != Some(Completed) || !Displaced(own, stale) then (ch, session)
    else
      var p := Or(ch.payload, stale.payload);
      (ch.(payload := Some(Suppressed(p))), if p.handoff then session else None)
  }

  /** The unique index on the active runs of a session. */
  predicate Clashes(runs: map<string, Run>, id: string, r: Run)
  {
    Active(r.status) && exists other :: other in runs && other != id && runs[other].scope == r.scope && Active(runs[other].status)
  }

  function SessionOf(s: Store, scope: Scope): Option<string>
  {
    if scope in s.sessions then Some(s.sessions[scope]) else None
  }

  /** The session as the run first read it; reading none and not having read look the same. */
  function SnapshotOf(p: Payload): Option<string>
  {
    Or(p.snapshot, None)
  }

  function ChangeTx(s: Store, id: string, stale: Run, ch: Changes, event: Event, session: Option<string>)
    : (Store, Result<Run, RunError>)
  {
    if event.CallStarted? && Displaced(s.own, stale) then (s, Err(HandoffInterrupt))
    else
      var (ch', session') := Delivered(s.own, stale, ch, session);
      if id !in s.runs || s.runs[id].version != stale.version then (s, Err(VersionConflict))
      else
        var r := Written(s.runs[id], stale, ch');
        if Clashes(s.runs, id, r) || (id, r.version) in s.events then (s, Err(IntegrityError))
        else if session'.Some? && SessionOf(s, stale.scope) != SnapshotOf(stale.payload) then (s, Err(SessionChanged))
        else
          (s.(runs := s.runs[id := r], events := s.events[(id, r.version) := event],
              sessions := if session'.Some? then s.sessions[stale.scope := session'.value] else s.sessions),
           Ok(r))
  }

  // ----- submission -----

  function NewRun(scope: Scope, key: string, hash: string, build: nat, maxAttempts: nat, now: real, runtime: Runtime): Run
  {
    Run(scope, key, hash, build, Queued, "", 0, 0, maxAttempts, 1, 0.0, now, NoCancel, "",
        Payload(map[], false, runtime, None, None, None, false))
  }

  predicate SameRequest(r: Run, user: string, key: string)
  {
    r.scope.0 == user && r.key == key
  }

  /** The primary key, the request key and the active-session index. */
  predicate Insertable(s: Store, id: string, r: Run)
  {
    && id !in s.runs
    && (forall other :: other in s.runs ==> !SameRequest(s.runs[other], r.scope.0, r.key))
    && !Clashes(s.runs, id, r)
    && (id, 1) !in s.events
  }

  function SubmitTx(s: Store, id: string, r: Run): Store
  {
    if Insertable(s, id, r) then s.(runs := s.runs[id := r], events := s.events[(id, 1) := RunQueued]) else s
  }

  // ----- what the operations compute from the row they read -----

  datatype Op =
    | Claim(owner: string, now: real, lease: real, build: nat)
    | Cancel
    | Replay(actor: string, now: real, build: nat)
    | Begin(call: CallKey)
    | Complete(call: CallKey, uncertain: bool)
    | Heartbeat(now: real, lease: real)
    | Usage
    | TakeSnapshot(value: Option<string>)
    | NoteHandoff(draft: Option<Reply>)
    | Finish(result: Reply, session: Option<string>)
    | Stop(code: string, now: real)

  datatype Plan = Plan(changes: Changes, event: Event, session: Option<string>)

  /** The body of the claim loop for one candidate. */
  function ClaimPlan(r: Run, owner: string, now: real, lease: real, build: nat): Plan
  {
    if Unsafe(r.payload) || r.build != build then
      Plan(NOTHING.(status := Some(NeedsReconciliation), error := Some("UNSAFE_RECOVERY")), RunNeedsReconciliation, None)
    else if r.cancel == Requested && !r.payload.writeStarted then
      Plan(NOTHING.(status := Some(Cancelled), cancel := Some(Acknowledged)), RunCancelled, None)
    else if r.attempt >= r.maxAttempts then
      Plan(NOTHING.(status := Some(DeadLetter), error := Some("ATTEMPTS_EXHAUSTED")), RunDeadLetter, None)
    else
      Plan(NOTHING.(status := Some(Running), owner := Some(owner), fence := Some(r.fence + 1),
             attempt := Some(r.attempt + 1), leaseUntil := Some(now + lease), error := Some("")),
           RunClaimed(owner, r.fence + 1, r.status == Running), None)
  }

  predicate Eligible(r: Run, now: real)
  {
    || (r.status in {Queued, RetryWait} && r.nextRetryAt <= now)
    || (r.status == Running && r.leaseUntil <= now)
  }

  function CancelPlan(r: Run): Plan
  {
    if r.status in {Queued, RetryWait, DeadLetter} && !r.payload.writeStarted then
      Plan(NOTHING.(status := Some(Cancelled), cancel := Some(Acknowledged)), RunCancel, None)
    else if r.status == Running then Plan(NOTHING.(cancel := Some(Requested)), RunCancel, None)
    else Plan(NOTHING.(cancel := Some(TooLate)), RunCancel, None)
  }

  predicate Replayable(r: Run, build: nat)
  {
    r.status == DeadLetter && !Unsafe(r.payload) && r.build == build
  }

  function ReplayPlan(r: Run, actor: string, now: real): Plan
  {
    Plan(NOTHING.(status := Some(Queued), nextRetryAt := Some(now), maxAttempts := Some(r.attempt + 3),
           cancel := Some(NoCancel), error := Some("")),
         RunReplayed(actor), None)
  }

  function CallOf(p: Payload, k: CallKey): Call
  {
    if k in p.calls then p.calls[k] else Call(InFlight, 0)
  }

  function Started(p: Payload, k: CallKey): Payload
  {
    p.(calls := p.calls[k := Call(InFlight, CallOf(p, k).dispatches + 1)], writeStarted := p.writeStarted || k.kind == WriteCall)
  }

  function Ended(p: Payload, k: CallKey, uncertain: bool): Payload
  {
    p.(calls := p.calls[k := CallOf(p, k).(state := if uncertain then Unknown else Done)])
  }

  function StopStatus(r: Run, code: string): Status
  {
    if Unsafe(r.payload) || code in {"SESSION_CHANGED", "RUN_WRITE_UNKNOWN"} then NeedsReconciliation
    else if code == "RUN_CANCELLED" then Cancelled
    else if code in {"TRANSIENT_ERROR", "PLAN_LEASE_PENDING"} && r.attempt < r.maxAttempts then RetryWait
    else DeadLetter
  }

  function Pow2(n: nat): nat
  {
    if n == 0 then 1 else 2 * Pow2(n - 1)
  }

  function StopPlan(r: Run, code: string, now: real): Plan
  {
    var status := StopStatus(r, code);
    var wait := if Pow2(r.attempt) < 60 then Pow2(r.attempt) as real else 60.0;
    Plan(NOTHING.(status := Some(status), error := Some(code), leaseUntil := Some(0.0), nextRetryAt := Some(now + wait),
           cancel := Some(if status == Cancelled then Acknowledged else r.cancel)),
         RunStopped(code), None)
  }

  function FinishPlan(r: Run, result: Reply, session: Option<string>): Plan
  {
    Plan(NOTHING.(status := Some(Completed), payload := Some(r.payload.(result := Some(result))),
           cancel := Some(if r.cancel == Requested then TooLate else r.cancel), leaseUntil := Some(0.0)),
         RunCompleted, session)
  }

  predicate CancelPending(r: Run)
  {
    r.cancel == Requested && !r.payload.writeStarted
  }

  /** None when the operation stops before its update. */
  function Planned(r: Run, op: Op): Option<Plan>
  {
    match op
    case Claim(owner, now, lease, build) => if Eligible(r, now) then Some(ClaimPlan(r, owner, now, lease, build)) else None
    case Cancel => if r.cancel == Acknowledged then None else Some(CancelPlan(r))
    case Replay(actor, now, build) => if Replayable(r, build) then Some(ReplayPlan(r, actor, now)) else None
    case Begin(k) =>
      if CancelPending(r) then None
      else Some(Plan(NOTHING.(payload := Some(Started(r.payload, k))), CallStarted(k), None))
    case Complete(k, uncertain) =>
      if k !in r.payload.calls then None
      else Some(Plan(NOTHING.(payload := Some(Ended(r.payload, k, uncertain))), CallCompleted(k), None))
    case Heartbeat(now, lease) => Some(Plan(NOTHING.(leaseUntil := Some(now + lease)), RunHeartbeat, None))
    case Usage => Some(Plan(NOTHING, ModelUsage, None))
    case TakeSnapshot(value) =>
      if CancelPending(r) then None
      else
        var p := if r.payload.snapshot.Some? then r.payload else r.payload.(snapshot := Some(value));
        Some(Plan(NOTHING.(payload := Some(p)), RunSnapshot, None))
    case NoteHandoff(draft) =>
      if CancelPending(r) then None
      else
        var p := r.payload.(handoff := true, draft := if draft.Some? then Some(draft) else r.payload.draft);
        Some(Plan(NOTHING.(payload := Some(p)), RunHandoff, None))
    case Finish(result, session) =>
      if CancelPending(r) || Unsafe(r.payload) then None else Some(FinishPlan(r, result, session))
    case Stop(code, now) => Some(StopPlan(r, code, now))
  }

  /** Everything but claim, cancel and replay is a write of the claim's holder. */
  predicate HoldersOp(op: Op)
  {
    !op.Claim? && !op.Cancel? && !op.Replay?
  }

  /** The lease check of `owned`, made on the row that was read. */
  predicate Owned(r: Run, owner: string, fence: nat, now: real)
  {
    r.status == Running && r.owner == owner && r.fence == fence && r.leaseUntil > now
  }

  /** Plan on the row read earlier, then the conditional update. */
  function OpTx(s: Store, id: string, stale: Run, op: Op): (Store, Option<Result<Run, RunError>>)
  {
    match Planned(stale, op)
    case None => (s, None)
    case Some(p) =>
      var (s', r) := ChangeTx(s, id, stale, p.changes, p.event, p.session);
      (s', Some(r))
  }
}
