/**
 Runs, workers, operators and takeovers interleaved at every statement: any thread may read a row,
 be overtaken by anybody, and only then try its conditional update. Crashes drop a worker's memory.
 */
module RunProtocol {
  import opened Wrappers
  import opened Handoffs
  import opened RunQueue

  /**
   What the worker of one claim remembers: the call keys it has counted, those it found free to
   start, those it started and has not ended, and whether it has seen a cancellation that must be honoured.
   */
  datatype Context = Context(used: set<CallKey>, armed: set<CallKey>, begun: set<CallKey>, cancelSeen: bool)

  const FRESH := Context({}, {}, {}, false)

  /** `snaps` are rows read by threads, `pins` ownership versions read before a submission. */
  datatype System = System(
    store: Store,
    contexts: map<(string, nat), Context>,
    snaps: map<nat, (string, Run)>,
    pins: map<nat, (Scope, nat)>)

  datatype Step =
    | Ensure(thread: nat, scope: Scope)
    | Submit(thread: nat, id: string, scope: Scope, key: string, hash: string, build: nat, max: nat, at: real, collaboration: bool)
    | Transition(scope: Scope, actor: string, expected: nat, take: bool, inFlight: bool)
    | Read(thread: nat, id: string)
    | Try(thread: nat, op: Op)
    | Check(id: string, fence: nat, owner: string, at: real, call: CallKey)
    | SeeCancel(id: string, fence: nat, owner: string, at: real)
    | Mutate(thread: nat, fence: nat, owner: string, at: real, op: Op)
    | Crash(id: string, fence: nat)
    | SaveSession(scope: Scope, value: string)

  function RuntimeFor(q: System, thread: nat, scope: Scope, collaboration: bool): Option<Runtime>
  {
    if !collaboration then Some(Runtime(false, None))
    else if thread in q.pins && q.pins[thread].0 == scope then Some(Runtime(true, Some(q.pins[thread].1)))
    else None
  }

  /** A claim, cancellation or replay from a row read earlier. */
  function TryStep(q: System, thread: nat, op: Op): System
  {
    if thread !in q.snaps || HoldersOp(op) then q
    else
      var (id, stale) := q.snaps[thread];
      var (store, r) := OpTx(q.store, id, stale, op);
      if r.Some? && r.value.Ok? && r.value.value.fence > stale.fence
      then q.(store := store, contexts := q.contexts[(id, r.value.value.fence) := FRESH])
      else q.(store := store)
  }

  /** Looking up a call in the journal before starting it; every key is counted once per claim. */
  function Checked(c: Context, r: Run, k: CallKey): Context
  {
    if CancelPending(r) then c.(used := c.used + {k}, cancelSeen := true)
    else if k in r.payload.calls && (r.payload.calls[k].state == Done || k.kind == WriteCall) then c.(used := c.used + {k})
    else c.(used := c.used + {k}, armed := c.armed + {k})
  }

  predicate Allows(c: Context, op: Op)
  {
    match op
    case Begin(k) => k in c.armed
    case Complete(k, uncertain) => k in c.begun
    case Stop(code, now) => code == "RUN_CANCELLED" ==> c.cancelSeen
    case _ => true
  }

  function AfterMutate(c: Context, op: Op): Context
  {
    if op.Begin? then c.(armed := c.armed - {op.call}, begun := c.begun + {op.call})
    else if op.Complete? then c.(begun := c.begun - {op.call})
    else c
  }

  /** A write of the claim's holder from a row read earlier, on which the lease check passes. */
  function MutateStep(q: System, thread: nat, fence: nat, owner: string, at: real, op: Op): System
  {
    if thread !in q.snaps || !HoldersOp(op) then q
    else
      var (id, stale) := q.snaps[thread];
      if (id, fence) !in q.contexts || !Owned(stale, owner, fence, at) || !Allows(q.contexts[(id, fence)], op) then q
      else
        var (store, r) := OpTx(q.store, id, stale, op);
        if r.Some? && r.value.Ok?
        then q.(store := store, contexts := q.contexts[(id, fence) := AfterMutate(q.contexts[(id, fence)], op)])
        else q
  }

  function Do(q: System, step: Step): System
  {
    match step
    case Ensure(t, scope) =>
      var own := EnsureTx(q.store.own, scope);
      q.(store := q.store.(own := own), pins := q.pins[t := (scope, Holding(own, scope).version)])
    case Submit(t, id, scope, key, hash, build, max, at, collaboration) =>
      (match RuntimeFor(q, t, scope, collaboration)
       case None => q
       case Some(runtime) => q.(store := SubmitTx(q.store, id, NewRun(scope, key, hash, build, max, at, runtime))))
    case Transition(scope, actor, expected, take, inFlight) =>
      q.(store := q.store.(own := TransitionTx(EnsureTx(q.store.own, scope), scope, actor, expected, take, inFlight).0))
    case Read(t, id) => if id !in q.store.runs then q else q.(snaps := q.snaps[t := (id, q.store.runs[id])])
    case Try(t, op) => TryStep(q, t, op)
    case Check(id, fence, owner, at, k) =>
      if (id, fence) !in q.contexts || id !in q.store.runs || k in q.contexts[(id, fence)].used
         || !Owned(q.store.runs[id], owner, fence, at) then q
      else q.(contexts := q.contexts[(id, fence) := Checked(q.contexts[(id, fence)], q.store.runs[id], k)])
    case SeeCancel(id, fence, owner, at) =>
      if (id, fence) !in q.contexts || id !in q.store.runs || !Owned(q.store.runs[id], owner, fence, at)
         || !CancelPending(q.store.runs[id]) then q
      else q.(contexts := q.contexts[(id, fence) := q.contexts[(id, fence)].(cancelSeen := true)])
    case Mutate(t, fence, owner, at, op) => MutateStep(q, t, fence, owner, at, op)
    case Crash(id, fence) => q.(contexts := q.contexts - {(id, fence)})
    case SaveSession(scope, value) => q.(store := q.store.(sessions := q.store.sessions[scope := value]))
  }

  function After(q: System, steps: seq<Step>): System
    decreases |steps|
  {
    if steps == [] then q else After(Do(q, steps[0]), steps[1..])
  }

  const EMPTY := System(Store(map[], map[], map[], map[]), map[], map[], map[])

  // ----- one row -----

  /** What every update keeps of a row, in particular that a finished run stays finished. */
  ghost predicate Evolves(a: Run, b: Run)
  {
    && a.scope == b.scope && a.key == b.key && a.requestHash == b.requestHash && a.build == b.build
    && a.payload.runtime == b.payload.runtime
    && a.version <= b.version && (a.version == b.version ==> a == b)
    && a.fence <= b.fence
    && a.payload.calls.Keys <= b.payload.calls.Keys
    && (!Active(a.status) ==> b.status == a.status && b.payload == a.payload && b.fence == a.fence)
  }

  ghost predicate RowOk(r: Run)
  {
    && r.attempt == r.fence && r.attempt <= r.maxAttempts
    && (r.status == RetryWait ==> r.attempt < r.maxAttempts)
    && (forall k :: k in r.payload.calls && k.kind == WriteCall ==> r.payload.writeStarted)
    && (r.status == Completed ==> !Unsafe(r.payload))
    && (r.status == Cancelled ==> !r.payload.writeStarted)
  }

  lemma EvolvesTransitive(a: Run, b: Run, c: Run)
    requires Evolves(a, b) && Evolves(b, c)
    ensures Evolves(a, c)
  {}

  /** The row as an accepted update leaves it. */
  function Outcome(own: Owners, r: Run, p: Plan): Run
  {
    Written(r, r, Delivered(own, r, p.changes, p.session).0)
  }

  /** The conditions under which the system applies an operation to the row it was planned on. */
  predicate Applicable(r: Run, op: Op)
  {
    && Planned(r, op).Some?
    && (HoldersOp(op) ==> r.status == Running)
    && (op.Stop? && op.code == "RUN_CANCELLED" ==> CancelPending(r))
  }

  lemma QueueOpKeeps(own: Owners, r: Run, op: Op)
    requires RowOk(r) && Applicable(r, op) && !HoldersOp(op)
    ensures var r' := Outcome(own, r, Planned(r, op).value);
      && RowOk(r') && Evolves(r, r') && r'.version == r.version + 1
      && r'.payload == r.payload && (Active(r'.status) ==> Active(r.status))
  {}

  lemma CallOpKeeps(own: Owners, r: Run, op: Op)
    requires RowOk(r) && Applicable(r, op) && (op.Begin? || op.Complete?)
    ensures var r' := Outcome(own, r, Planned(r, op).value);
      RowOk(r') && Evolves(r, r') && r'.version == r.version + 1 && r'.status == Running
  {}

  lemma FinishKeeps(own: Owners, r: Run, op: Op)
    requires RowOk(r) && Applicable(r, op) && op.Finish?
    ensures var r' := Outcome(own, r, Planned(r, op).value);
      RowOk(r') && Evolves(r, r') && r'.version == r.version + 1 && r'.status == Completed
  {
    var r' := Outcome(own, r, Planned(r, op).value);
    assert r'.payload.calls == r.payload.calls;
    assert !Unsafe(r'.payload);
  }

  lemma OtherOpKeeps(own: Owners, r: Run, op: Op)
    requires RowOk(r) && Applicable(r, op) && HoldersOp(op) && !op.Begin? && !op.Complete? && !op.Finish?
    ensures var r' := Outcome(own, r, Planned(r, op).value);
      && RowOk(r') && Evolves(r, r') && r'.version == r.version + 1
      && r'.payload.calls == r.payload.calls && r'.payload.writeStarted == r.payload.writeStarted
  {}

  lemma OpKeeps(own: Owners, r: Run, op: Op)
    requires RowOk(r) && Applicable(r, op)
    ensures var r' := Outcome(own, r, Planned(r, op).value);
      RowOk(r') && Evolves(r, r') && r'.version == r.version + 1 && (Active(r'.status) ==> Active(r.status))
  {
    if !HoldersOp(op) { QueueOpKeeps(own, r, op); }
    else if op.Begin? || op.Complete? { CallOpKeeps(own, r, op); }
    else if op.Finish? { FinishKeeps(own, r, op); }
    else { OtherOpKeeps(own, r, op); }
  }
}
