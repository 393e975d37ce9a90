/**
 Left alone, a run gets there: from any reachable state of the queue, a request that is submitted, claimed and
 worked on by one undisturbed worker calls what it has to call once and delivers its reply.
 */
module RunProgress {
  import opened Wrappers
  import opened Handoffs
  import opened RunQueue
  import opened RunProtocol
  import opened RunSafety
  import opened RunEffects
  import opened RunTheorems

  lemma TwoSteps(q: System, a: Step, b: Step)
    ensures After(q, [a, b]) == Do(Do(q, a), b)
  {
    assert [a, b][1..] == [b] && [b][1..] == [];
    assert After(Do(q, a), [b]) == After(Do(Do(q, a), b), []);
  }

  lemma {:induction false} AfterBoth(q: System, a: seq<Step>, b: seq<Step>)
    ensures After(q, a + b) == After(After(q, a), b)
    decreases |a|
  {
    if a == [] {
      assert a + b == b;
    } else {
      assert (a + b)[0] == a[0] && (a + b)[1..] == a[1..] + b;
      AfterBoth(Do(q, a[0]), a[1..], b);
    }
  }

  lemma TwoKeep(q: System, a: Step, b: Step)
    requires Inv(q)
    ensures Inv(After(q, [a, b]))
  {
    StepKeeps(q, a);
    StepKeeps(Do(q, a), b);
    TwoSteps(q, a, b);
  }

  lemma ReadShape(q: System, t: nat, id: string)
    requires id in q.store.runs
    ensures var q' := Do(q, Read(t, id));
      q'.store == q.store && q'.contexts == q.contexts && t in q'.snaps && q'.snaps[t] == (id, q.store.runs[id])
  {}

  // ----- submission -----

  /** The request is new, its conversation has no unfinished run, and the agent holds it. */
  predicate Welcome(s: Store, id: string, scope: Scope, key: string)
  {
    && id !in s.runs && NewRequest(s, scope.0, key) && SessionIdle(s, scope)
    && (scope in s.own ==> s.own[scope].state.Agent?)
  }

  function Submission(t: nat, id: string, scope: Scope, key: string, hash: string, build: nat, max: nat, at: real, collaboration: bool): seq<Step>
  {
    [Ensure(t, scope), Submit(t, id, scope, key, hash, build, max, at, collaboration)]
  }

  /** A submitted run waits, and with collaboration it is pinned to the version its conversation then has. */
  lemma SubmissionPins(q: System, t: nat, id: string, scope: Scope, key: string, hash: string, build: nat, max: nat, at: real, collaboration: bool)
    requires Inv(q) && Welcome(q.store, id, scope, key)
    ensures var q' := After(q, Submission(t, id, scope, key, hash, build, max, at, collaboration));
      && Inv(q') && id in q'.store.runs && scope in q'.store.own && q'.store.own[scope].state.Agent?
      && q'.store.sessions == q.store.sessions
      && q'.store.runs[id] == NewRun(scope, key, hash, build, max, at,
           if collaboration then Runtime(true, Some(q'.store.own[scope].version)) else Runtime(false, None))
      && (scope in q.store.own ==> q'.store.own == q.store.own)
  {
    var a, b := Ensure(t, scope), Submit(t, id, scope, key, hash, build, max, at, collaboration);
    TwoSteps(q, a, b);
    StepKeeps(q, a);
    var q1 := Do(q, a);
    StepKeeps(q1, b);
    var runtime := if collaboration then Runtime(true, Some(q1.store.own[scope].version)) else Runtime(false, None);
    SubmitStoresIff(q1.store, id, NewRun(scope, key, hash, build, max, at, runtime));
  }

  // ----- claim -----

  /** The worker of the claim under this row's fence holds the run and remembers `c`. */
  ghost predicate Working(q: System, id: string, r: Run, c: Context)
  {
    && Inv(q) && id in q.store.runs && q.store.runs[id] == r && r.status == Running
    && (id, r.fence) in q.contexts && q.contexts[(id, r.fence)] == c
  }

  /** The given row, claimed: running for its worker until the end of the lease, nothing else changed. */
  predicate ClaimedBy(r: Run, r': Run, owner: string, at: real, lease: real)
  {
    && r'.status == Running && r'.owner == owner && r'.fence == r.fence + 1 && r'.leaseUntil == at + lease
    && r'.payload == r.payload && r'.scope == r.scope && r'.cancel == r.cancel
  }

  lemma ClaimWorks(q: System, t: nat, id: string, owner: string, at: real, lease: real, build: nat)
    requires Inv(q) && id in q.store.runs && q.store.runs[id].status == Queued && q.store.runs[id].nextRetryAt <= at
    requires var r := q.store.runs[id]; r.build == build && r.attempt < r.maxAttempts && !ToBeCancelled(r) && !InDoubt(r)
    ensures var q' := After(q, Claiming(t, id, owner, at, lease, build));
      && id in q'.store.runs && ClaimedBy(q.store.runs[id], q'.store.runs[id], owner, at, lease)
      && Working(q', id, q'.store.runs[id], Context({}, {}, {}, false))
      && q'.store.own == q.store.own && q'.store.sessions == q.store.sessions
  {
    var op := RunQueue.Claim(owner, at, lease, build);
    var r := q.store.runs[id];
    TwoSteps(q, Read(t, id), Try(t, op));
    TwoKeep(q, Read(t, id), Try(t, op));
    ReadShape(q, t, id);
    var q1 := Do(q, Read(t, id));
    ClaimTakesEffect(q.store, id, r, owner, at, lease, build);
    TryShape(q1, t, id, r, op);
  }

  lemma ClaimTakesEffect(s: Store, id: string, r: Run, owner: string, at: real, lease: real, build: nat)
    requires TablesOk(s) && id in s.runs && s.runs[id] == r && r.status == Queued && r.nextRetryAt <= at
    requires r.build == build && r.attempt < r.maxAttempts && !ToBeCancelled(r) && !InDoubt(r)
    ensures var (s', answer) := OpTx(s, id, r, RunQueue.Claim(owner, at, lease, build));
      && answer.Some? && answer.value.Ok? && id in s'.runs && s'.runs[id] == answer.value.value
      && ClaimedBy(r, s'.runs[id], owner, at, lease) && s'.own == s.own && s'.sessions == s.sessions
  {
    ClaimDecides(s.own, r, owner, at, lease, build);
    assert Applicable(r, RunQueue.Claim(owner, at, lease, build));
    OpTakesEffectIff(s, id, r, RunQueue.Claim(owner, at, lease, build));
  }

  /** A granted claim starts with an empty memory. */
  lemma TryShape(q: System, t: nat, id: string, r: Run, op: Op)
    requires t in q.snaps && q.snaps[t] == (id, r) && op.Claim?
    requires var (s', answer) := OpTx(q.store, id, r, op); answer.Some? && answer.value.Ok? && answer.value.value.fence == r.fence + 1
    ensures var q' := Do(q, Try(t, op));
      && q'.store == OpTx(q.store, id, r, op).0
      && (id, r.fence + 1) in q'.contexts && q'.contexts[(id, r.fence + 1)] == Context({}, {}, {}, false)
  {}

  // ----- work -----

  /** A call that may be started: unknown so far to the worker and, for a write, to the run's journal. */
  predicate Free(r: Run, c: Context, k: CallKey)
  {
    k !in c.used && !ToBeCancelled(r) && k !in r.payload.calls
  }

  lemma LooksUp(q: System, id: string, r: Run, c: Context, at: real, k: CallKey)
    requires Working(q, id, r, c) && at < r.leaseUntil && Free(r, c, k)
    ensures var q' := Do(q, Check(id, r.fence, r.owner, at, k));
      q'.store == q.store && Working(q', id, r, c.(used := c.used + {k}, armed := c.armed + {k}))
  {
    StepKeeps(q, Check(id, r.fence, r.owner, at, k));
  }

  /** What the worker remembers after one of its writes. */
  function Later(c: Context, op: Op): Context
  {
    match op
    case Begin(k) => Context(c.used, c.armed - {k}, c.begun + {k}, c.cancelSeen)
    case Complete(k, _) => Context(c.used, c.armed, c.begun - {k}, c.cancelSeen)
    case _ => c
  }

  function Writing(t: nat, id: string, owner: string, fence: nat, at: real, op: Op): seq<Step>
  {
    [Read(t, id), Mutate(t, fence, owner, at, op)]
  }

  /** One undisturbed write of the holder takes effect. */
  lemma WriteWorks(q: System, t: nat, id: string, r: Run, c: Context, at: real, op: Op)
    requires Working(q, id, r, c) && at < r.leaseUntil && HoldersOp(op) && Applicable(r, op) && Permitted(c, op)
    requires op.Begin? ==> Undisturbed(q.store.own, r)
    requires Output(q.store.own, r, op).Some? ==> SessionFits(q.store, r)
    ensures var q' := After(q, Writing(t, id, r.owner, r.fence, at, op)); var session := Output(q.store.own, r, op);
      && Inv(q') && id in q'.store.runs && q'.store.runs[id] == Next(q.store.own, r, op) && q'.store.own == q.store.own
      && q'.store.sessions == (if session.Some? then q.store.sessions[r.scope := session.value] else q.store.sessions)
      && (id, r.fence) in q'.contexts && q'.contexts[(id, r.fence)] == Later(c, op)
  {
    TwoSteps(q, Read(t, id), Mutate(t, r.fence, r.owner, at, op));
    TwoKeep(q, Read(t, id), Mutate(t, r.fence, r.owner, at, op));
    ReadShape(q, t, id);
    var q1 := Do(q, Read(t, id));
    OpTakesEffectIff(q.store, id, r, op);
    MutateShape(q1, t, id, r, c, at, op);
  }

  lemma MutateShape(q: System, t: nat, id: string, r: Run, c: Context, at: real, op: Op)
    requires t in q.snaps && q.snaps[t] == (id, r) && HoldersOp(op) && Permitted(c, op)
    requires (id, r.fence) in q.contexts && q.contexts[(id, r.fence)] == c && r.status == Running && at < r.leaseUntil
    requires var (s', answer) := OpTx(q.store, id, r, op); answer.Some? && answer.value.Ok?
    ensures var q' := Do(q, Mutate(t, r.fence, r.owner, at, op));
      && q'.store == OpTx(q.store, id, r, op).0
      && (id, r.fence) in q'.contexts && q'.contexts[(id, r.fence)] == Later(c, op)
  {}

  /** A worker starts what it found free, ends what it started, and does the rest at any time. */
  predicate Permitted(c: Context, op: Op)
  {
    (op.Begin? ==> op.call in c.armed) && (op.Complete? ==> op.call in c.begun) && !op.Stop?
  }

  /** The run after a call: the journal has it as done once, everything else is as before. */
  predicate Called(r: Run, r': Run, k: CallKey)
  {
    && r' == r.(version := r'.version, payload := r'.payload)
    && r'.payload == r.payload.(calls := r.payload.calls[k := Call(Done, 1)], writeStarted := r'.payload.writeStarted)
    && (r'.payload.writeStarted <==> r.payload.writeStarted || k.kind.WriteCall?)
  }

  function Calling(t: nat, id: string, owner: string, fence: nat, at: real, k: CallKey): seq<Step>
  {
    [Check(id, fence, owner, at, k)] + (Writing(t, id, owner, fence, at, Begin(k)) + Writing(t, id, owner, fence, at, Complete(k, false)))
  }

  lemma BeginWorks(q: System, t: nat, id: string, r: Run, c: Context, at: real, k: CallKey)
    requires Working(q, id, r, c) && at < r.leaseUntil && k in c.armed && Undisturbed(q.store.own, r) && !ToBeCancelled(r)
    ensures var q' := After(q, Writing(t, id, r.owner, r.fence, at, Begin(k))); var r' := Next(q.store.own, r, Begin(k));
      && Working(q', id, r', Context(c.used, c.armed - {k}, c.begun + {k}, c.cancelSeen))
      && q'.store.own == q.store.own && q'.store.sessions == q.store.sessions
  {
    BeginRegisters(q.store.own, r, k);
    WriteWorks(q, t, id, r, c, at, Begin(k));
  }

  lemma CompleteWorks(q: System, t: nat, id: string, r: Run, c: Context, at: real, k: CallKey)
    requires Working(q, id, r, c) && at < r.leaseUntil && k in c.begun && k in r.payload.calls
    ensures var q' := After(q, Writing(t, id, r.owner, r.fence, at, Complete(k, false))); var r' := Next(q.store.own, r, Complete(k, false));
      && Working(q', id, r', Context(c.used, c.armed, c.begun - {k}, c.cancelSeen)) && q'.store.own == q.store.own && q'.store.sessions == q.store.sessions
  {
    CompleteRecords(q.store.own, r, k, false);
    WriteWorks(q, t, id, r, c, at, Complete(k, false));
  }

  lemma StartAndEnd(q: System, t: nat, id: string, r: Run, c: Context, at: real, k: CallKey)
    requires Working(q, id, r, c) && at < r.leaseUntil && k in c.armed && k !in r.payload.calls && Undisturbed(q.store.own, r) && !ToBeCancelled(r)
    ensures var q' := After(q, Writing(t, id, r.owner, r.fence, at, Begin(k)) + Writing(t, id, r.owner, r.fence, at, Complete(k, false)));
      && id in q'.store.runs && Called(r, q'.store.runs[id], k)
      && Working(q', id, q'.store.runs[id], Context(c.used, c.armed - {k}, c.begun + {k} - {k}, c.cancelSeen))
      && q'.store.own == q.store.own && q'.store.sessions == q.store.sessions
  {
    var begin, end := Writing(t, id, r.owner, r.fence, at, Begin(k)), Writing(t, id, r.owner, r.fence, at, Complete(k, false));
    AfterBoth(q, begin, end);
    BeginRegisters(q.store.own, r, k);
    BeginWorks(q, t, id, r, c, at, k);
    var q', r' := After(q, begin), Next(q.store.own, r, Begin(k));
    CompleteRecords(q.store.own, r', k, false);
    CompleteWorks(q', t, id, r', Context(c.used, c.armed - {k}, c.begun + {k}, c.cancelSeen), at, k);
  }

  /** Looked up, started, made and ended by an undisturbed worker, a call is in the journal as done once. */
  lemma CallWorks(q: System, t: nat, id: string, r: Run, c: Context, at: real, k: CallKey)
    requires Working(q, id, r, c) && at < r.leaseUntil && Free(r, c, k) && Undisturbed(q.store.own, r)
    ensures var q' := After(q, Calling(t, id, r.owner, r.fence, at, k));
      && id in q'.store.runs && Called(r, q'.store.runs[id], k)
      && Working(q', id, q'.store.runs[id], Context(c.used + {k}, c.armed + {k} - {k}, c.begun + {k} - {k}, c.cancelSeen))
      && q'.store.own == q.store.own && q'.store.sessions == q.store.sessions
  {
    var look := Check(id, r.fence, r.owner, at, k);
    LooksUp(q, id, r, c, at, k);
    AfterBoth(q, [look], Writing(t, id, r.owner, r.fence, at, Begin(k)) + Writing(t, id, r.owner, r.fence, at, Complete(k, false)));
    assert [look][1..] == [];
    assert After(q, [look]) == After(Do(q, look), []) == Do(q, look);
    StartAndEnd(Do(q, look), t, id, r, c.(used := c.used + {k}, armed := c.armed + {k}), at, k);
  }

  lemma SnapshotWorks(q: System, t: nat, id: string, r: Run, c: Context, at: real)
    requires Working(q, id, r, c) && at < r.leaseUntil && !ToBeCancelled(r) && r.payload.snapshot.None?
    ensures var value := Stored(q.store, r.scope); var q' := After(q, Writing(t, id, r.owner, r.fence, at, TakeSnapshot(value)));
      && Working(q', id, r.(version := r.version + 1, payload := r.payload.(snapshot := Some(value))), c)
      && q'.store.own == q.store.own && q'.store.sessions == q.store.sessions
  {
    var value := Stored(q.store, r.scope);
    NotesAreKept(q.store.own, r, value, None);
    WriteWorks(q, t, id, r, c, at, TakeSnapshot(value));
  }

  /** The history a conversation has. */
  function Stored(s: Store, scope: Scope): Option<string>
  {
    if scope in s.sessions then Some(s.sessions[scope]) else None
  }

  lemma FinishWorks(q: System, t: nat, id: string, r: Run, c: Context, at: real, reply: Reply, history: string)
    requires Working(q, id, r, c) && at < r.leaseUntil && Undisturbed(q.store.own, r)
    requires !ToBeCancelled(r) && !InDoubt(r) && r.payload.snapshot == Some(Stored(q.store, r.scope))
    ensures var q' := After(q, Writing(t, id, r.owner, r.fence, at, Finish(reply, Some(history))));
      && id in q'.store.runs && q'.store.runs[id].status == Completed && q'.store.runs[id].payload.result == Some(reply)
      && q'.store.runs[id].payload.calls == r.payload.calls && q'.store.sessions == q.store.sessions[r.scope := history]
  {
    FinishDelivers(q.store.own, r, reply, Some(history));
    WriteWorks(q, t, id, r, c, at, Finish(reply, Some(history)));
  }

  /** What one undisturbed worker does with a run it has claimed. */
  function Work(t: nat, id: string, owner: string, fence: nat, at: real, session: Option<string>, k: CallKey, reply: Reply, history: string): seq<Step>
  {
    Writing(t, id, owner, fence, at, TakeSnapshot(session))
    + (Calling(t, id, owner, fence, at, k) + Writing(t, id, owner, fence, at, Finish(reply, Some(history))))
  }

  predicate DeliveredOnce(s: Store, s': Store, id: string, scope: Scope, k: CallKey, reply: Reply, history: string)
  {
    && id in s'.runs && s'.runs[id].status == Completed && s'.runs[id].payload.result == Some(reply)
    && s'.runs[id].payload.calls == map[k := Call(Done, 1)]
    && s'.sessions == s.sessions[scope := history]
  }

  lemma WorkDelivers(q: System, t: nat, id: string, r: Run, at: real, k: CallKey, reply: Reply, history: string)
    requires Working(q, id, r, FRESH) && at < r.leaseUntil && Undisturbed(q.store.own, r)
    requires r.cancel == NoCancel && r.payload.calls == map[] && r.payload.snapshot.None?
    ensures var end := After(q, Work(t, id, r.owner, r.fence, at, Stored(q.store, r.scope), k, reply, history));
      DeliveredOnce(q.store, end.store, id, r.scope, k, reply, history)
  {
    var session := Stored(q.store, r.scope);
    var snap, call, finish := Writing(t, id, r.owner, r.fence, at, TakeSnapshot(session)), Calling(t, id, r.owner, r.fence, at, k),
      Writing(t, id, r.owner, r.fence, at, Finish(reply, Some(history)));
    AfterBoth(q, snap, call + finish);
    SnapshotWorks(q, t, id, r, FRESH, at);
    var q1 := After(q, snap);
    var r1 := q1.store.runs[id];
    AfterBoth(q1, call, finish);
    CallWorks(q1, t, id, r1, FRESH, at, k);
    var q2 := After(q1, call);
    FinishWorks(q2, t, id, q2.store.runs[id], Context(FRESH.used + {k}, FRESH.armed + {k} - {k}, FRESH.begun + {k} - {k}, false), at, reply, history);
  }

  function Claiming(t: nat, id: string, owner: string, at: real, lease: real, build: nat): seq<Step>
  {
    [Read(t, id), Try(t, RunQueue.Claim(owner, at, lease, build))]
  }

  lemma ClaimDelivers(q: System, t: nat, id: string, r: Run, owner: string, at: real, lease: real, k: CallKey, reply: Reply, history: string)
    requires Inv(q) && id in q.store.runs && q.store.runs[id] == r && r.status == Queued && r.nextRetryAt <= at && r.attempt < r.maxAttempts
    requires r.fence == 0 && r.cancel == NoCancel && r.payload.calls == map[] && r.payload.snapshot.None? && Undisturbed(q.store.own, r)
    requires lease > 0.0
    ensures var end := After(q, Claiming(t, id, owner, at, lease, r.build) + Work(t, id, owner, 1, at, Stored(q.store, r.scope), k, reply, history));
      DeliveredOnce(q.store, end.store, id, r.scope, k, reply, history)
  {
    AfterBoth(q, Claiming(t, id, owner, at, lease, r.build), Work(t, id, owner, 1, at, Stored(q.store, r.scope), k, reply, history));
    ClaimWorks(q, t, id, owner, at, lease, r.build);
    var q' := After(q, Claiming(t, id, owner, at, lease, r.build));
    WorkDelivers(q', t, id, q'.store.runs[id], at, k, reply, history);
  }

  /** Everything from the request to its reply, when nobody disturbs it. */
  function Life(t: nat, id: string, scope: Scope, key: string, hash: string, build: nat, max: nat, collaboration: bool,
      owner: string, at: real, lease: real, session: Option<string>, k: CallKey, reply: Reply, history: string): seq<Step>
  {
    Submission(t, id, scope, key, hash, build, max, at, collaboration)
    + (Claiming(t, id, owner, at, lease, build) + Work(t, id, owner, 1, at, session, k, reply, history))
  }

  /**
   Whatever has happened before: a new request of a free conversation that the agent holds, worked on by
   one undisturbed worker, makes its call exactly once, stores exactly its reply and extends the history.
   */
  lemma UndisturbedRunDelivers(before: seq<Step>, t: nat, id: string, scope: Scope, key: string, hash: string, build: nat, max: nat,
      collaboration: bool, owner: string, at: real, lease: real, k: CallKey, reply: Reply, history: string)
    requires Welcome(After(EMPTY, before).store, id, scope, key) && max >= 1 && lease > 0.0
    ensures var q := After(EMPTY, before);
      var end := After(q, Life(t, id, scope, key, hash, build, max, collaboration, owner, at, lease, Stored(q.store, scope), k, reply, history));
      DeliveredOnce(q.store, end.store, id, scope, k, reply, history)
  {
    RunKeeps(EMPTY, before);
    var q := After(EMPTY, before);
    var submit := Submission(t, id, scope, key, hash, build, max, at, collaboration);
    AfterBoth(q, submit, Claiming(t, id, owner, at, lease, build) + Work(t, id, owner, 1, at, Stored(q.store, scope), k, reply, history));
    SubmissionPins(q, t, id, scope, key, hash, build, max, at, collaboration);
    var q' := After(q, submit);
    ClaimDelivers(q', t, id, q'.store.runs[id], owner, at, lease, k, reply, history);
  }

  // ----- cancellation -----

  /**
   What looking up a call tells its worker: it is counted, it may be started unless the run is about to be
   cancelled, the call has ended, or it is a write with an open record; and a cancellation is noticed.
   */
  lemma LookupDecides(q: System, id: string, r: Run, c: Context, at: real, k: CallKey)
    requires Working(q, id, r, c) && at < r.leaseUntil && k !in c.used
    ensures var q' := Do(q, Check(id, r.fence, r.owner, at, k));
      && q'.store == q.store && (id, r.fence) in q'.contexts
      && var c' := q'.contexts[(id, r.fence)]; var known := k in r.payload.calls;
      && c'.used == c.used + {k} && c'.begun == c.begun
      && c'.armed == (if ToBeCancelled(r) || (known && (r.payload.calls[k].state.Done? || k.kind.WriteCall?)) then c.armed else c.armed + {k})
      && (c'.cancelSeen <==> c.cancelSeen || ToBeCancelled(r))
  {}

  /** A cancellation asked for before any write is honoured by the worker that looks. */
  lemma UndisturbedCancelIsHonoured(q: System, t: nat, id: string, r: Run, c: Context, at: real, now: real)
    requires Working(q, id, r, c) && at < r.leaseUntil && ToBeCancelled(r)
    ensures var q' := After(Do(q, SeeCancel(id, r.fence, r.owner, at)), Writing(t, id, r.owner, r.fence, at, Stop("RUN_CANCELLED", now)));
      id in q'.store.runs && q'.store.runs[id].status == Cancelled && q'.store.runs[id].cancel == Acknowledged && q'.store.runs[id].payload == r.payload
  {
    var op := Stop("RUN_CANCELLED", now);
    StepKeeps(q, SeeCancel(id, r.fence, r.owner, at));
    var q1 := Do(q, SeeCancel(id, r.fence, r.owner, at));
    assert RowAt(q.store, id);
    StopDecides(q.store.own, r, "RUN_CANCELLED", now);
    assert Applicable(r, op);
    TwoSteps(q1, Read(t, id), Mutate(t, r.fence, r.owner, at, op));
    ReadShape(q1, t, id);
    OpTakesEffectIff(q.store, id, r, op);
    StopShape(Do(q1, Read(t, id)), t, id, r, at, op);
  }

  lemma StopShape(q: System, t: nat, id: string, r: Run, at: real, op: Op)
    requires t in q.snaps && q.snaps[t] == (id, r) && op.Stop?
    requires (id, r.fence) in q.contexts && q.contexts[(id, r.fence)].cancelSeen && r.status == Running && at < r.leaseUntil
    requires var (s', answer) := OpTx(q.store, id, r, op); answer.Some? && answer.value.Ok?
    ensures Do(q, Mutate(t, r.fence, r.owner, at, op)).store == OpTx(q.store, id, r, op).0
  {}

  // ----- disturbances -----

  /** A conversation taken while its run is at work: the reply goes nowhere but into the draft. */
  lemma TakeSilences(q: System, t: nat, id: string, r: Run, c: Context, at: real, reply: Reply, history: string, actor: string)
    requires Working(q, id, r, c) && at < r.leaseUntil && !ToBeCancelled(r) && !InDoubt(r)
    requires r.payload.runtime.collaboration && !r.payload.handoff && r.payload.draft.None?
    requires r.scope in q.store.own && q.store.own[r.scope].state.Agent?
    ensures var taken := Do(q, Transition(r.scope, actor, q.store.own[r.scope].version, true, false));
      var end := After(taken, Writing(t, id, r.owner, r.fence, at, Finish(reply, Some(history))));
      && taken.store.own[r.scope] == Ownership(Human, actor, q.store.own[r.scope].version + 1)
      && taken.store.runs == q.store.runs
      && id in end.store.runs && end.store.runs[id].status == Completed && end.store.sessions == q.store.sessions
      && end.store.runs[id].payload.result == Some(SILENT) && end.store.runs[id].payload.draft == Some(Some(reply))
  {
    var take := Transition(r.scope, actor, q.store.own[r.scope].version, true, false);
    var taken := Do(q, take);
    StepKeeps(q, take);
    TakeShape(q, r.scope, actor);
    FinishDelivers(taken.store.own, r, reply, Some(history));
    WriteWorks(taken, t, id, r, c, at, Finish(reply, Some(history)));
  }

  lemma TakeShape(q: System, scope: Scope, actor: string)
    requires scope in q.store.own && q.store.own[scope].state.Agent?
    ensures var q' := Do(q, Transition(scope, actor, q.store.own[scope].version, true, false));
      && q'.store.own == q.store.own[scope := Ownership(Human, actor, q.store.own[scope].version + 1)]
      && q'.store.runs == q.store.runs && q'.store.sessions == q.store.sessions && q'.contexts == q.contexts
  {}

  /** A history somebody else has written in the meantime is not overwritten: the finish is refused. */
  lemma NewerHistoryIsKept(q: System, t: nat, id: string, r: Run, c: Context, at: real, reply: Reply, history: string, newer: string)
    requires Working(q, id, r, c) && at < r.leaseUntil && !ToBeCancelled(r) && !InDoubt(r) && Undisturbed(q.store.own, r)
    requires r.payload.snapshot != Some(Some(newer))
    ensures var saved := Do(q, SaveSession(r.scope, newer));
      var end := After(saved, Writing(t, id, r.owner, r.fence, at, Finish(reply, Some(history))));
      saved.store == q.store.(sessions := q.store.sessions[r.scope := newer]) && end.store == saved.store
  {
    var op := Finish(reply, Some(history));
    var saved := Do(q, SaveSession(r.scope, newer));
    StepKeeps(q, SaveSession(r.scope, newer));
    SaveShape(q, r.scope, newer);
    FinishDelivers(q.store.own, r, reply, Some(history));
    TwoSteps(saved, Read(t, id), Mutate(t, r.fence, r.owner, at, op));
    ReadShape(saved, t, id);
    OpTakesEffectIff(saved.store, id, r, op);
    RefusedShape(Do(saved, Read(t, id)), t, id, r, at, op);
  }

  lemma SaveShape(q: System, scope: Scope, value: string)
    ensures var q' := Do(q, SaveSession(scope, value));
      q'.store == q.store.(sessions := q.store.sessions[scope := value]) && q'.contexts == q.contexts
  {}

  lemma RefusedShape(q: System, t: nat, id: string, r: Run, at: real, op: Op)
    requires t in q.snaps && q.snaps[t] == (id, r)
    requires OpTx(q.store, id, r, op).0 == q.store
    ensures Do(q, Mutate(t, r.fence, r.owner, at, op)).store == q.store
  {}

  /** A worker that has crashed writes nothing more. */
  lemma CrashedWritesNothing(q: System, t: nat, id: string, owner: string, fence: nat, at: real, op: Op)
    requires id in q.store.runs
    ensures After(Do(q, RunProtocol.Crash(id, fence)), Writing(t, id, owner, fence, at, op)).store == q.store
  {
    var crashed := Do(q, RunProtocol.Crash(id, fence));
    TwoSteps(crashed, Read(t, id), Mutate(t, fence, owner, at, op));
  }

  // ----- operators -----

  /** A cancellation, a replay or a claim that closes the run takes effect when nobody comes between reading and writing. */
  lemma UndisturbedTryTakesEffect(q: System, t: nat, id: string, r: Run, op: Op)
    requires Inv(q) && id in q.store.runs && q.store.runs[id] == r && !HoldersOp(op) && Planned(r, op).Some?
    ensures var q' := After(q, [Read(t, id), Try(t, op)]);
      && q'.store.runs == q.store.runs[id := Next(q.store.own, r, op)] && q'.store.own == q.store.own && q'.store.sessions == q.store.sessions
      && q'.store.events == q.store.events[(id, r.version + 1) := Planned(r, op).value.event]
  {
    TwoSteps(q, Read(t, id), Try(t, op));
    ReadShape(q, t, id);
    assert Applicable(r, op);
    OpTakesEffectIff(q.store, id, r, op);
    TryStores(Do(q, Read(t, id)), t, id, r, op);
  }

  lemma TryStores(q: System, t: nat, id: string, r: Run, op: Op)
    requires t in q.snaps && q.snaps[t] == (id, r) && !HoldersOp(op)
    ensures Do(q, Try(t, op)).store == OpTx(q.store, id, r, op).0
  {}
}
