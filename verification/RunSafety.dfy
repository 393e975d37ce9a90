/**
 The invariant of the run queue and its preservation by every step.
 */
module RunSafety {
  import opened Wrappers
  import opened Handoffs
  import opened RunQueue
  import opened RunProtocol

  // ----- the stored tables -----

  ghost predicate RowAt(s: Store, id: string)
  {
    id in s.runs ==> RowOk(s.runs[id])
  }

  /** The events of a run are numbered exactly 1..version. */
  ghost predicate LogOk(s: Store, id: string)
  {
    forall n: nat {:trigger (id, n) in s.events} :: (id, n) in s.events <==> id in s.runs && 1 <= n <= s.runs[id].version
  }

  /** A started call is in the journal of its run from then on. */
  ghost predicate StartedOk(s: Store, id: string, n: nat)
  {
    (id, n) in s.events && s.events[(id, n)].CallStarted? && id in s.runs ==>
      s.events[(id, n)].call in s.runs[id].payload.calls
  }

  /** No write call is started twice in the life of a run. */
  ghost predicate OnceOk(s: Store, id: string, n: nat, m: nat)
  {
    (&& (id, n) in s.events && (id, m) in s.events && s.events[(id, n)] == s.events[(id, m)]
     && s.events[(id, n)].CallStarted? && s.events[(id, n)].call.kind == WriteCall) ==> n == m
  }

  ghost predicate AloneOk(s: Store, a: string, b: string)
  {
    a in s.runs && b in s.runs && s.runs[a].scope == s.runs[b].scope && Active(s.runs[a].status) && Active(s.runs[b].status)
    ==> a == b
  }

  /** A collaborative run is pinned to an ownership version that existed. */
  ghost predicate PinnedOk(s: Store, id: string)
  {
    id in s.runs && s.runs[id].payload.runtime.collaboration ==>
      && s.runs[id].payload.runtime.pinned.Some?
      && s.runs[id].scope in s.own
      && s.runs[id].payload.runtime.pinned.value <= s.own[s.runs[id].scope].version
  }

  ghost predicate TablesOk(s: Store)
  {
    && (forall id {:trigger RowAt(s, id)} :: RowAt(s, id))
    && (forall id {:trigger LogOk(s, id)} :: LogOk(s, id))
    && (forall id {:trigger PinnedOk(s, id)} :: PinnedOk(s, id))
    && (forall a, b {:trigger AloneOk(s, a, b)} :: AloneOk(s, a, b))
    && (forall id, n {:trigger StartedOk(s, id, n)} :: StartedOk(s, id, n))
    && (forall id, n, m {:trigger OnceOk(s, id, n, m)} :: OnceOk(s, id, n, m))
  }

  ghost predicate RunsEvolve(a: map<string, Run>, b: map<string, Run>)
  {
    forall id :: id in a ==> id in b && Evolves(a[id], b[id])
  }

  ghost predicate Remembers(s: Store, id: string, r: Run)
  {
    id in s.runs && Evolves(r, s.runs[id])
  }

  /** One accepted update: the row, its event and perhaps the session history. */
  ghost predicate Accepted(s: Store, s': Store, id: string, r': Run, event: Event)
  {
    && id in s.runs && s'.runs == s.runs[id := r'] && s'.events == s.events[(id, r'.version) := event] && s'.own == s.own
    && RowOk(r') && Evolves(s.runs[id], r') && r'.version == s.runs[id].version + 1
    && (Active(r'.status) ==> Active(s.runs[id].status))
    && (event.CallStarted? ==> event.call in r'.payload.calls)
    && (event.CallStarted? && event.call.kind == WriteCall ==> event.call !in s.runs[id].payload.calls)
  }

  lemma AcceptedRows(s: Store, s': Store, id: string, r': Run, event: Event)
    requires TablesOk(s) && Accepted(s, s', id, r', event)
    ensures forall other :: RowAt(s', other) && LogOk(s', other) && PinnedOk(s', other)
  {
    forall other ensures RowAt(s', other) && LogOk(s', other) && PinnedOk(s', other) {
      assert RowAt(s, other) && LogOk(s, other) && PinnedOk(s, other);
    }
  }

  lemma AcceptedAlone(s: Store, s': Store, id: string, r': Run, event: Event)
    requires TablesOk(s) && Accepted(s, s', id, r', event)
    ensures forall a, b :: AloneOk(s', a, b)
  {
    forall a, b ensures AloneOk(s', a, b) {
      assert AloneOk(s, a, b);
    }
  }

  lemma AcceptedStarts(s: Store, s': Store, id: string, r': Run, event: Event, other: string, n: nat)
    requires TablesOk(s) && Accepted(s, s', id, r', event)
    ensures StartedOk(s', other, n)
  {
    assert StartedOk(s, other, n) && LogOk(s, other);
  }

  lemma AcceptedOnce(s: Store, s': Store, id: string, r': Run, event: Event, other: string, n: nat, m: nat)
    requires TablesOk(s) && Accepted(s, s', id, r', event)
    ensures OnceOk(s', other, n, m)
  {
    assert OnceOk(s, other, n, m) && LogOk(s, other);
    assert StartedOk(s, other, n) && StartedOk(s, other, m);
  }

  lemma AcceptedKeeps(s: Store, s': Store, id: string, r': Run, event: Event)
    requires TablesOk(s) && Accepted(s, s', id, r', event)
    ensures TablesOk(s') && RunsEvolve(s.runs, s'.runs)
  {
    AcceptedRows(s, s', id, r', event);
    AcceptedAlone(s, s', id, r', event);
    forall other, n ensures StartedOk(s', other, n) { AcceptedStarts(s, s', id, r', event, other, n); }
    forall other, n, m ensures OnceOk(s', other, n, m) { AcceptedOnce(s, s', id, r', event, other, n, m); }
  }

  /** An update that does not activate a finished run cannot clash, and its event is new. */
  lemma NeverRefused(s: Store, id: string, r': Run)
    requires TablesOk(s) && id in s.runs && r'.scope == s.runs[id].scope && r'.version == s.runs[id].version + 1
    requires Active(r'.status) ==> Active(s.runs[id].status)
    ensures !Clashes(s.runs, id, r') && (id, r'.version) !in s.events
  {
    assert LogOk(s, id);
    forall other | other in s.runs && other != id && s.runs[other].scope == r'.scope && Active(r'.status)
      ensures !Active(s.runs[other].status)
    {
      assert AloneOk(s, id, other);
    }
  }

  lemma ChangeCases(s: Store, id: string, stale: Run, p: Plan)
    requires Remembers(s, id, stale)
    requires var r := Outcome(s.own, stale, p); stale == s.runs[id] ==> !Clashes(s.runs, id, r) && (id, r.version) !in s.events
    ensures var (s', r) := ChangeTx(s, id, stale, p.changes, p.event, p.session);
      && (r.Err? ==> s' == s && r.error != IntegrityError)
      && (r.Ok? ==>
            && stale == s.runs[id] && r.value == Outcome(s.own, stale, p)
            && s'.runs == s.runs[id := r.value] && s'.own == s.own && s'.events == s.events[(id, r.value.version) := p.event])
  {}

  /**
   The stale read is harmless: an operation planned on a row read at any earlier time either
   changes nothing, or was planned on exactly the current row. Neither the active-session index
   nor the key of the event table can then refuse the update.
   */
  lemma OpCases(s: Store, id: string, stale: Run, op: Op)
    requires TablesOk(s) && Remembers(s, id, stale)
    requires Planned(stale, op).Some? && s.runs[id] == stale ==> Applicable(stale, op)
    ensures var (s', r) := OpTx(s, id, stale, op);
      && (!(r.Some? && r.value.Ok?) ==> s' == s)
      && r != Some(Err(IntegrityError))
      && (r.Some? && r.value.Ok? ==>
            && stale == s.runs[id] && Applicable(stale, op)
            && r.value.value == Outcome(s.own, stale, Planned(stale, op).value)
            && s'.runs == s.runs[id := r.value.value] && s'.own == s.own
            && s'.events == s.events[(id, r.value.value.version) := Planned(stale, op).value.event])
  {
    if Planned(stale, op).Some? {
      var p := Planned(stale, op).value;
      if s.runs[id] == stale {
        assert RowAt(s, id);
        OpKeeps(s.own, stale, op);
        NeverRefused(s, id, Outcome(s.own, stale, p));
      }
      ChangeCases(s, id, stale, p);
    }
  }

  /** An operation on a remembered row keeps the tables. */
  lemma OpKeepsTables(s: Store, id: string, stale: Run, op: Op)
    requires TablesOk(s) && Remembers(s, id, stale)
    requires Planned(stale, op).Some? && s.runs[id] == stale ==> Applicable(stale, op)
    requires op.Begin? && op.call.kind == WriteCall && s.runs[id] == stale ==> op.call !in stale.payload.calls
    ensures TablesOk(OpTx(s, id, stale, op).0)
    ensures RunsEvolve(s.runs, OpTx(s, id, stale, op).0.runs)
  {
    OpCases(s, id, stale, op);
    var (s', r) := OpTx(s, id, stale, op);
    if r.Some? && r.value.Ok? {
      assert RowAt(s, id);
      OpKeeps(s.own, stale, op);
      AcceptedKeeps(s, s', id, r.value.value, Planned(stale, op).value.event);
    }
  }

  lemma SubmitKeepsTables(s: Store, id: string, r: Run)
    requires TablesOk(s) && r.version == 1 && r.attempt == r.fence == 0 && r.status == Queued && r.payload.calls == map[]
    requires r.payload.runtime.collaboration ==>
      && r.payload.runtime.pinned.Some? && r.scope in s.own && r.payload.runtime.pinned.value <= s.own[r.scope].version
    ensures TablesOk(SubmitTx(s, id, r)) && RunsEvolve(s.runs, SubmitTx(s, id, r).runs)
  {
    var s' := SubmitTx(s, id, r);
    if Insertable(s, id, r) {
      assert LogOk(s, id);
      forall other ensures RowAt(s', other) && LogOk(s', other) && PinnedOk(s', other) {
        assert RowAt(s, other) && LogOk(s, other) && PinnedOk(s, other);
      }
      forall a, b ensures AloneOk(s', a, b) { assert AloneOk(s, a, b); }
      forall other, n ensures StartedOk(s', other, n) { assert StartedOk(s, other, n) && LogOk(s, other); }
      forall other, n, m ensures OnceOk(s', other, n, m) { assert OnceOk(s, other, n, m) && LogOk(s, other); }
    }
  }

  lemma OwnersKeepTables(s: Store, own: Owners, sessions: map<Scope, string>)
    requires TablesOk(s) && OwnersEvolve(s.own, own)
    ensures TablesOk(s.(own := own, sessions := sessions))
  {
    var s' := s.(own := own, sessions := sessions);
    forall id ensures RowAt(s', id) && LogOk(s', id) && PinnedOk(s', id) {
      assert RowAt(s, id) && LogOk(s, id) && PinnedOk(s, id);
    }
    forall a, b ensures AloneOk(s', a, b) { assert AloneOk(s, a, b); }
    forall id, n ensures StartedOk(s', id, n) { assert StartedOk(s, id, n); }
    forall id, n, m ensures OnceOk(s', id, n, m) { assert OnceOk(s, id, n, m); }
  }

  // ----- what is remembered -----

  ghost predicate SnapOk(q: System, t: nat)
  {
    t in q.snaps ==> Remembers(q.store, q.snaps[t].0, q.snaps[t].1)
  }

  ghost predicate PinOk(q: System, t: nat)
  {
    t in q.pins ==> q.pins[t].0 in q.store.own && q.pins[t].1 <= q.store.own[q.pins[t].0].version
  }

  /** As long as nobody has claimed the run again, what its worker concluded still holds. */
  ghost predicate ContextFits(c: Context, fence: nat, r: Run)
  {
    && fence <= r.fence && c.armed <= c.used && c.begun <= c.used
    && (r.fence == fence ==> forall k :: k in c.armed && k.kind == WriteCall ==> k !in r.payload.calls)
    && (r.fence == fence && r.status == Running && c.cancelSeen ==> CancelPending(r))
  }

  ghost predicate ContextOk(q: System, id: string, fence: nat)
  {
    (id, fence) in q.contexts ==> id in q.store.runs && ContextFits(q.contexts[(id, fence)], fence, q.store.runs[id])
  }

  ghost predicate MemoryOk(q: System)
  {
    && (forall t {:trigger SnapOk(q, t)} :: SnapOk(q, t))
    && (forall t {:trigger PinOk(q, t)} :: PinOk(q, t))
    && (forall id, f {:trigger ContextOk(q, id, f)} :: ContextOk(q, id, f))
  }

  ghost predicate Inv(q: System)
  {
    TablesOk(q.store) && MemoryOk(q)
  }

  /** What every step keeps for good: rows evolve and ownership versions do not decrease. */
  ghost predicate Progress(q: System, q': System)
  {
    RunsEvolve(q.store.runs, q'.store.runs) && OwnersEvolve(q.store.own, q'.store.own)
  }

  lemma SnapsStable(q: System, q': System)
    requires MemoryOk(q) && Progress(q, q') && q'.snaps == q.snaps && q'.pins == q.pins
    ensures forall t :: SnapOk(q', t) && PinOk(q', t)
  {
    forall t ensures SnapOk(q', t) && PinOk(q', t) {
      assert SnapOk(q, t) && PinOk(q, t);
      if t in q.snaps {
        var (id, r) := q.snaps[t];
        EvolvesTransitive(r, q.store.runs[id], q'.store.runs[id]);
      }
    }
  }

  lemma KeepStore(q: System, q': System)
    requires MemoryOk(q) && TablesOk(q'.store) && Progress(q, q') && q'.snaps == q.snaps && q'.pins == q.pins
    requires forall id, f :: ContextOk(q', id, f)
    ensures Inv(q') && Progress(q, q')
  {
    SnapsStable(q, q');
  }

  // ----- one lemma per kind of step -----

  lemma KeepOwn(q: System, own: Owners, sessions: map<Scope, string>)
    requires Inv(q) && OwnersEvolve(q.store.own, own)
    ensures var q' := q.(store := q.store.(own := own, sessions := sessions)); Inv(q') && Progress(q, q')
  {
    var q' := q.(store := q.store.(own := own, sessions := sessions));
    OwnersKeepTables(q.store, own, sessions);
    SnapsStable(q, q');
    forall id, f ensures ContextOk(q', id, f) { assert ContextOk(q, id, f); }
  }

  lemma KeepEnsure(q: System, t: nat, scope: Scope)
    requires Inv(q)
    ensures Inv(Do(q, Ensure(t, scope))) && Progress(q, Do(q, Ensure(t, scope)))
  {
    var own := EnsureTx(q.store.own, scope);
    var q1 := q.(store := q.store.(own := own, sessions := q.store.sessions));
    KeepOwn(q, own, q.store.sessions);
    var q' := Do(q, Ensure(t, scope));
    forall u ensures SnapOk(q', u) && PinOk(q', u) { assert SnapOk(q1, u) && PinOk(q1, u); }
    forall id, f ensures ContextOk(q', id, f) { assert ContextOk(q1, id, f); }
  }

  lemma KeepSubmit(q: System, step: Step)
    requires Inv(q) && step.Submit?
    ensures Inv(Do(q, step)) && Progress(q, Do(q, step))
  {
    var q' := Do(q, step);
    var runtime := RuntimeFor(q, step.thread, step.scope, step.collaboration);
    if runtime.Some? {
      assert PinOk(q, step.thread);
      SubmitKeepsTables(q.store, step.id,
        NewRun(step.scope, step.key, step.hash, step.build, step.max, step.at, runtime.value));
      SnapsStable(q, q');
      forall id, f ensures ContextOk(q', id, f) { assert ContextOk(q, id, f); }
    }
  }

  lemma KeepRead(q: System, t: nat, id: string)
    requires Inv(q)
    ensures Inv(Do(q, Read(t, id))) && Progress(q, Do(q, Read(t, id)))
  {
    var q' := Do(q, Read(t, id));
    forall u ensures SnapOk(q', u) && PinOk(q', u) { assert SnapOk(q, u) && PinOk(q, u); }
    forall other, f ensures ContextOk(q', other, f) { assert ContextOk(q, other, f); }
  }

  lemma KeepContext(q: System, id: string, fence: nat, c: Context)
    requires Inv(q) && id in q.store.runs && ContextFits(c, fence, q.store.runs[id])
    ensures var q' := q.(contexts := q.contexts[(id, fence) := c]); Inv(q') && Progress(q, q')
  {
    var q' := q.(contexts := q.contexts[(id, fence) := c]);
    forall u ensures SnapOk(q', u) && PinOk(q', u) { assert SnapOk(q, u) && PinOk(q, u); }
    forall other, f ensures ContextOk(q', other, f) { assert ContextOk(q, other, f); }
  }

  lemma KeepCheck(q: System, step: Step)
    requires Inv(q) && (step.Check? || step.SeeCancel?)
    ensures Inv(Do(q, step)) && Progress(q, Do(q, step))
  {
    assert ContextOk(q, step.id, step.fence);
    if Do(q, step) != q {
      KeepContext(q, step.id, step.fence, Do(q, step).contexts[(step.id, step.fence)]);
    }
  }

  lemma KeepCrash(q: System, id: string, fence: nat)
    requires Inv(q)
    ensures Inv(Do(q, Crash(id, fence))) && Progress(q, Do(q, Crash(id, fence)))
  {
    var q' := Do(q, Crash(id, fence));
    forall u ensures SnapOk(q', u) && PinOk(q', u) { assert SnapOk(q, u) && PinOk(q, u); }
    forall other, f ensures ContextOk(q', other, f) { assert ContextOk(q, other, f); }
  }

  lemma QueueOpKeepsView(own: Owners, r: Run, op: Op)
    requires !HoldersOp(op) && Planned(r, op).Some?
    ensures var r' := Outcome(own, r, Planned(r, op).value);
      && r'.payload == r.payload && r'.fence >= r.fence
      && (r'.fence == r.fence && r'.status == Running ==> r.status == Running && r'.cancel == Requested)
  {}

  /** A claim, cancellation or replay leaves the journal alone, so every worker's view still fits. */
  lemma TryFits(q: System, t: nat, op: Op, id: string, f: nat)
    requires Inv(q)
    ensures ContextOk(Do(q, Try(t, op)), id, f)
  {
    assert SnapOk(q, t) && ContextOk(q, id, f);
    if t in q.snaps && !HoldersOp(op) {
      var (target, stale) := q.snaps[t];
      OpCases(q.store, target, stale, op);
      if Planned(stale, op).Some? { QueueOpKeepsView(q.store.own, stale, op); }
    }
  }

  lemma TryTables(q: System, t: nat, op: Op)
    requires Inv(q)
    ensures TablesOk(Do(q, Try(t, op)).store) && Progress(q, Do(q, Try(t, op)))
  {
    assert SnapOk(q, t);
    if t in q.snaps && !HoldersOp(op) {
      OpKeepsTables(q.store, q.snaps[t].0, q.snaps[t].1, op);
      OpCases(q.store, q.snaps[t].0, q.snaps[t].1, op);
    }
  }

  lemma KeepTry(q: System, t: nat, op: Op)
    requires Inv(q)
    ensures Inv(Do(q, Try(t, op))) && Progress(q, Do(q, Try(t, op)))
  {
    var q' := Do(q, Try(t, op));
    TryTables(q, t, op);
    forall id, f ensures ContextOk(q', id, f) { TryFits(q, t, op, id, f); }
    KeepStore(q, q');
  }

  /** What the holder's guards establish about the row it read, if that is still the row. */
  lemma HolderMay(q: System, t: nat, fence: nat, owner: string, at: real, op: Op)
    requires Inv(q) && t in q.snaps && HoldersOp(op)
    requires var (id, stale) := q.snaps[t];
      && id in q.store.runs && (id, fence) in q.contexts && Owned(stale, owner, fence, at) && Allows(q.contexts[(id, fence)], op)
      && Planned(stale, op).Some? && q.store.runs[id] == stale
    ensures var stale := q.snaps[t].1;
      && Applicable(stale, op)
      && (op.Begin? && op.call.kind == WriteCall ==> op.call !in stale.payload.calls)
  {
    assert ContextOk(q, q.snaps[t].0, fence);
  }

  lemma HolderOpKeepsView(own: Owners, r: Run, op: Op)
    requires HoldersOp(op) && Planned(r, op).Some? && r.status == Running
    ensures var r' := Outcome(own, r, Planned(r, op).value);
      && r'.fence == r.fence
      && (CancelPending(r) && r'.status == Running ==> CancelPending(r'))
      && (!op.Begin? && !op.Complete? ==> r'.payload.calls == r.payload.calls)
      && (op.Begin? ==> r'.payload.calls.Keys == r.payload.calls.Keys + {op.call})
      && (op.Complete? ==> r'.payload.calls.Keys == r.payload.calls.Keys)
  {}

  lemma MutateFits(q: System, t: nat, fence: nat, owner: string, at: real, op: Op, id: string, f: nat)
    requires Inv(q)
    ensures ContextOk(Do(q, Mutate(t, fence, owner, at, op)), id, f)
  {
    assert SnapOk(q, t) && ContextOk(q, id, f);
    if Do(q, Mutate(t, fence, owner, at, op)) != q {
      var (target, stale) := q.snaps[t];
      assert ContextOk(q, target, fence);
      OpCases(q.store, target, stale, op);
      HolderOpKeepsView(q.store.own, stale, op);
    }
  }

  lemma MutateTables(q: System, t: nat, fence: nat, owner: string, at: real, op: Op)
    requires Inv(q)
    ensures TablesOk(Do(q, Mutate(t, fence, owner, at, op)).store)
    ensures Progress(q, Do(q, Mutate(t, fence, owner, at, op)))
  {
    assert SnapOk(q, t);
    if Do(q, Mutate(t, fence, owner, at, op)) != q {
      var (id, stale) := q.snaps[t];
      if Planned(stale, op).Some? && q.store.runs[id] == stale { HolderMay(q, t, fence, owner, at, op); }
      OpKeepsTables(q.store, id, stale, op);
      OpCases(q.store, id, stale, op);
    }
  }

  lemma KeepMutate(q: System, t: nat, fence: nat, owner: string, at: real, op: Op)
    requires Inv(q)
    ensures Inv(Do(q, Mutate(t, fence, owner, at, op))) && Progress(q, Do(q, Mutate(t, fence, owner, at, op)))
  {
    var q' := Do(q, Mutate(t, fence, owner, at, op));
    MutateTables(q, t, fence, owner, at, op);
    forall id, f ensures ContextOk(q', id, f) { MutateFits(q, t, fence, owner, at, op, id, f); }
    KeepStore(q, q');
  }

  lemma StepKeeps(q: System, step: Step)
    requires Inv(q)
    ensures Inv(Do(q, step)) && Progress(q, Do(q, step))
  {
    match step
    case Ensure(t, scope) => KeepEnsure(q, t, scope);
    case Submit(_, _, _, _, _, _, _, _, _) => KeepSubmit(q, step);
    case Transition(scope, actor, expected, take, inFlight) =>
      var own := EnsureTx(q.store.own, scope);
      TransitionMoves(own, scope, actor, expected, take, inFlight);
      KeepOwn(q, TransitionTx(own, scope, actor, expected, take, inFlight).0, q.store.sessions);
    case Read(t, id) => KeepRead(q, t, id);
    case Try(t, op) => KeepTry(q, t, op);
    case Check(_, _, _, _, _) => KeepCheck(q, step);
    case SeeCancel(_, _, _, _) => KeepCheck(q, step);
    case Mutate(t, fence, owner, at, op) => KeepMutate(q, t, fence, owner, at, op);
    case Crash(id, fence) => KeepCrash(q, id, fence);
    case SaveSession(scope, value) => KeepOwn(q, q.store.own, q.store.sessions[scope := value]);
  }

  lemma ProgressTransitive(a: System, b: System, c: System)
    requires Progress(a, b) && Progress(b, c)
    ensures Progress(a, c)
  {
    forall id | id in a.store.runs ensures id in c.store.runs && Evolves(a.store.runs[id], c.store.runs[id]) {
      EvolvesTransitive(a.store.runs[id], b.store.runs[id], c.store.runs[id]);
    }
  }

  /** The invariant holds throughout every run, and every row and owner only moves forward. */
  lemma {:induction false} RunKeeps(q: System, steps: seq<Step>)
    requires Inv(q)
    ensures Inv(After(q, steps)) && Progress(q, After(q, steps))
    decreases |steps|
  {
    if steps != [] {
      StepKeeps(q, steps[0]);
      RunKeeps(Do(q, steps[0]), steps[1..]);
      ProgressTransitive(q, Do(q, steps[0]), After(q, steps));
    }
  }
}
