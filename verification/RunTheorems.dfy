/**
 What the run queue promises, for every run of the system from empty tables.
 */
module RunTheorems {
  import opened Wrappers
  import opened Handoffs
  import opened RunQueue
  import opened RunProtocol
  import opened RunSafety
  import opened RunEffects

  lemma EmptyInv()
    ensures Inv(EMPTY)
  {}

  /** The event stream a client polls has no gap and no duplicate: it is numbered 1..version. */
  lemma EventLogIsExact(steps: seq<Step>, id: string, n: nat)
    ensures var s := After(EMPTY, steps).store;
      (id, n) in s.events <==> id in s.runs && 1 <= n <= s.runs[id].version
  {
    RunKeeps(EMPTY, steps);
    assert LogOk(After(EMPTY, steps).store, id);
  }

  lemma StepAppends(q: System, step: Step, id: string, n: nat)
    requires Inv(q) && (id, n) in q.store.events
    ensures (id, n) in Do(q, step).store.events && Do(q, step).store.events[(id, n)] == q.store.events[(id, n)]
  {
    assert LogOk(q.store, id);
    match step
    case Try(t, op) =>
      assert SnapOk(q, t);
      if t in q.snaps && !HoldersOp(op) { OpAppends(q.store, q.snaps[t].0, q.snaps[t].1, op, id, n); }
    case Mutate(t, fence, owner, at, op) =>
      assert SnapOk(q, t);
      if t in q.snaps { OpAppends(q.store, q.snaps[t].0, q.snaps[t].1, op, id, n); }
    case _ =>
  }

  lemma OpAppends(s: Store, target: string, stale: Run, op: Op, id: string, n: nat)
    requires (id, n) in s.events
    ensures var s' := OpTx(s, target, stale, op).0; (id, n) in s'.events && s'.events[(id, n)] == s.events[(id, n)]
  {}

  /** A published event is never withdrawn or rewritten. */
  lemma {:induction false} EventsAreFinal(q: System, steps: seq<Step>, id: string, n: nat)
    requires Inv(q) && (id, n) in q.store.events
    ensures (id, n) in After(q, steps).store.events && After(q, steps).store.events[(id, n)] == q.store.events[(id, n)]
    decreases |steps|
  {
    if steps != [] {
      StepAppends(q, steps[0], id, n);
      StepKeeps(q, steps[0]);
      EventsAreFinal(Do(q, steps[0]), steps[1..], id, n);
    }
  }

  /** A session never has two unfinished runs, although only insertion is checked against others. */
  lemma OneActiveRunPerSession(steps: seq<Step>, a: string, b: string)
    requires var runs := After(EMPTY, steps).store.runs;
      && a in runs && b in runs && runs[a].scope == runs[b].scope
      && Active(runs[a].status) && Active(runs[b].status)
    ensures a == b
  {
    RunKeeps(EMPTY, steps);
    assert AloneOk(After(EMPTY, steps).store, a, b);
  }

  /** Attempts stay within the limit through every replay, and a waiting retry has one left. */
  lemma AttemptsWithinLimit(steps: seq<Step>, id: string)
    requires id in After(EMPTY, steps).store.runs
    ensures var r := After(EMPTY, steps).store.runs[id];
      r.attempt == r.fence && r.attempt <= r.maxAttempts && (r.status == RetryWait ==> r.attempt < r.maxAttempts)
  {
    RunKeeps(EMPTY, steps);
    assert RowAt(After(EMPTY, steps).store, id);
  }

  /** Completed and cancelled are final: status, result and journal never change again. */
  lemma FinishedForever(q: System, steps: seq<Step>, id: string)
    requires Inv(q) && id in q.store.runs && !Active(q.store.runs[id].status)
    ensures id in After(q, steps).store.runs
    ensures var r := After(q, steps).store.runs[id];
      r.status == q.store.runs[id].status && r.payload == q.store.runs[id].payload && r.fence == q.store.runs[id].fence
  {
    RunKeeps(q, steps);
  }

  /**
   Durable execution: whatever crashes, is retried, replayed or runs concurrently, the dispatch of
   a write call is registered at most once in the life of a run.
   */
  lemma WriteStartedOnce(steps: seq<Step>, id: string, n: nat, m: nat, call: CallKey)
    requires call.kind == WriteCall
    requires var events := After(EMPTY, steps).store.events;
      (id, n) in events && (id, m) in events && events[(id, n)] == events[(id, m)] == CallStarted(call)
    ensures n == m
  {
    RunKeeps(EMPTY, steps);
    assert OnceOk(After(EMPTY, steps).store, id, n, m);
  }

  /** A run reported as cancelled has never started a write call. */
  lemma CancelledWroteNothing(steps: seq<Step>, id: string, n: nat)
    requires var s := After(EMPTY, steps).store;
      id in s.runs && s.runs[id].status == Cancelled && (id, n) in s.events
    ensures var e := After(EMPTY, steps).store.events[(id, n)]; !(e.CallStarted? && e.call.kind == WriteCall)
  {
    RunKeeps(EMPTY, steps);
    var s := After(EMPTY, steps).store;
    assert RowAt(s, id) && StartedOk(s, id, n);
  }

  /** A run reported as completed has every write it ever started completed. */
  lemma CompletedIsSettled(steps: seq<Step>, id: string, n: nat)
    requires var s := After(EMPTY, steps).store;
      && id in s.runs && s.runs[id].status == Completed && (id, n) in s.events
      && s.events[(id, n)].CallStarted? && s.events[(id, n)].call.kind == WriteCall
    ensures var s := After(EMPTY, steps).store; var k := s.events[(id, n)].call;
      k in s.runs[id].payload.calls && s.runs[id].payload.calls[k].state == Done
  {
    RunKeeps(EMPTY, steps);
    var s := After(EMPTY, steps).store;
    assert RowAt(s, id) && StartedOk(s, id, n);
  }

  lemma OpGrants(q: System, thread: nat, op: Op, id: string)
    requires Inv(q) && thread in q.snaps && id in q.store.runs
    requires !HoldersOp(op)
    requires var s' := OpTx(q.store, q.snaps[thread].0, q.snaps[thread].1, op).0;
      id in s'.runs && s'.runs[id].fence != q.store.runs[id].fence
    ensures op.Claim? && id == q.snaps[thread].0 && Eligible(q.store.runs[id], op.now)
    ensures var r := q.store.runs[id]; var r' := OpTx(q.store, id, q.snaps[thread].1, op).0.runs[id];
      && r'.fence == r.fence + 1 && r'.attempt == r.attempt + 1 && r.attempt < r.maxAttempts
      && r'.status == Running && r'.owner == op.owner && !Unsafe(r.payload) && !CancelPending(r)
  {
    var (target, stale) := q.snaps[thread];
    assert SnapOk(q, thread);
    OpCases(q.store, target, stale, op);
  }

  lemma MutateKeepsFences(q: System, step: Step, id: string)
    requires Inv(q) && id in q.store.runs && step.Mutate?
    ensures Do(q, step).store.runs[id].fence == q.store.runs[id].fence
  {
    if Do(q, step) != q {
      assert SnapOk(q, step.thread);
      var (target, stale) := q.snaps[step.thread];
      if Planned(stale, step.op).Some? && q.store.runs[target] == stale {
        HolderMay(q, step.thread, step.fence, step.owner, step.at, step.op);
        HolderOpKeepsView(q.store.own, stale, step.op);
      }
      OpCases(q.store, target, stale, step.op);
    }
  }

  /**
   A run is handed to a worker only by a claim that found it due, with an attempt left, no
   cancellation to honour and every write call of its journal completed; the fence goes up by one.
   */
  lemma GrantIsSafe(q: System, step: Step, id: string)
    requires Inv(q) && id in q.store.runs && Do(q, step).store.runs[id].fence != q.store.runs[id].fence
    ensures step.Try? && step.op.Claim? && Eligible(q.store.runs[id], step.op.now)
    ensures var r := q.store.runs[id]; var r' := Do(q, step).store.runs[id];
      && r'.fence == r.fence + 1 && r'.attempt == r.attempt + 1 && r.attempt < r.maxAttempts
      && r'.status == Running && r'.owner == step.op.owner && !Unsafe(r.payload) && !CancelPending(r)
  {
    match step
    case Try(t, op) => OpGrants(q, t, op, id);
    case Mutate(_, _, _, _, _) => MutateKeepsFences(q, step, id);
    case _ =>
  }

  lemma OldFenceStops(q: System, t: nat, fence: nat, owner: string, at: real, op: Op)
    requires Inv(q) && t in q.snaps
    requires q.snaps[t].0 in q.store.runs && fence < q.store.runs[q.snaps[t].0].fence
    ensures Do(q, Mutate(t, fence, owner, at, op)).store == q.store
  {
    assert SnapOk(q, t);
  }

  /** Once a later claim exists, nothing an earlier claim's worker does changes the tables. */
  lemma FencedForever(q: System, steps: seq<Step>, t: nat, fence: nat, owner: string, at: real, op: Op)
    requires Inv(q) && t in After(q, steps).snaps
    requires var id := After(q, steps).snaps[t].0; id in q.store.runs && fence < q.store.runs[id].fence
    ensures Do(After(q, steps), Mutate(t, fence, owner, at, op)).store == After(q, steps).store
  {
    RunKeeps(q, steps);
    OldFenceStops(After(q, steps), t, fence, owner, at, op);
  }

  // ----- human takeover -----

  /** The session has been taken over at least once since the run was submitted. */
  ghost predicate Taken(s: Store, id: string)
  {
    && id in s.runs && s.runs[id].payload.runtime.collaboration && s.runs[id].payload.runtime.pinned.Some?
    && s.runs[id].scope in s.own && s.own[s.runs[id].scope].version > s.runs[id].payload.runtime.pinned.value
  }

  lemma TakenStable(q: System, q': System, id: string)
    requires Progress(q, q') && Taken(q.store, id)
    ensures Taken(q'.store, id)
  {}

  /** A successful take marks every collaborative run of that session, forever, even once released. */
  lemma TakeIsForever(q: System, step: Step, steps: seq<Step>, id: string)
    requires Inv(q) && step.Transition? && Do(q, step).store.own != EnsureTx(q.store.own, step.scope)
    requires id in q.store.runs && q.store.runs[id].scope == step.scope && q.store.runs[id].payload.runtime.collaboration
    ensures Taken(After(Do(q, step), steps).store, id)
  {
    assert PinnedOk(q.store, id);
    StepKeeps(q, step);
    RunKeeps(Do(q, step), steps);
    TransitionMoves(EnsureTx(q.store.own, step.scope), step.scope, step.actor, step.expected, step.take, step.inFlight);
    assert Taken(Do(q, step).store, id);
    TakenStable(Do(q, step), After(Do(q, step), steps), id);
  }

  lemma OpStartsNothing(s: Store, target: string, stale: Run, op: Op, id: string, n: nat)
    requires TablesOk(s) && Remembers(s, target, stale) && Taken(s, id)
    requires var s' := OpTx(s, target, stale, op).0; (id, n) in s'.events && s'.events[(id, n)].CallStarted?
    ensures (id, n) in s.events
  {
    if id == target { assert stale.payload.runtime == s.runs[id].payload.runtime && stale.scope == s.runs[id].scope; }
  }

  lemma StepStartsNothing(q: System, step: Step, id: string, n: nat)
    requires Inv(q) && Taken(q.store, id)
    requires (id, n) in Do(q, step).store.events && Do(q, step).store.events[(id, n)].CallStarted?
    ensures (id, n) in q.store.events
  {
    match step
    case Try(t, op) =>
      assert SnapOk(q, t);
      if t in q.snaps && !HoldersOp(op) { OpStartsNothing(q.store, q.snaps[t].0, q.snaps[t].1, op, id, n); }
    case Mutate(t, fence, owner, at, op) =>
      assert SnapOk(q, t);
      if Do(q, step) != q { OpStartsNothing(q.store, q.snaps[t].0, q.snaps[t].1, op, id, n); }
    case _ =>
  }

  /** After a takeover no call of an earlier run is ever started again, not even after release. */
  lemma {:induction false} TakeoverStopsCalls(q: System, steps: seq<Step>, id: string, n: nat)
    requires Inv(q) && Taken(q.store, id)
    requires (id, n) in After(q, steps).store.events && After(q, steps).store.events[(id, n)].CallStarted?
    ensures (id, n) in q.store.events
    decreases |steps|
  {
    if steps != [] {
      var next := Do(q, steps[0]);
      StepKeeps(q, steps[0]);
      TakenStable(q, next, id);
      TakeoverStopsCalls(next, steps[1..], id, n);
      EventsAreFinal(next, steps[1..], id, n);
      StepStartsNothing(q, steps[0], id, n);
    }
  }

  const SILENT := Reply("", true, None, [])

  lemma OpSilences(s: Store, target: string, stale: Run, op: Op, id: string)
    requires TablesOk(s) && Remembers(s, target, stale) && Taken(s, id)
    requires Planned(stale, op).Some? && s.runs[target] == stale ==> Applicable(stale, op)
    requires var s' := OpTx(s, target, stale, op).0;
      id in s'.runs && s'.runs[id].status == Completed && s.runs[id].status != Completed
    ensures var s' := OpTx(s, target, stale, op).0;
      && s'.runs[id].payload.result == Some(SILENT)
      && (!s.runs[id].payload.handoff ==> s'.sessions == s.sessions)
  {
    OpCases(s, target, stale, op);
    assert id == target;
    assert Displaced(s.own, stale);
    if !op.Finish? {
      if HoldersOp(op) && !op.Begin? && !op.Complete? { OtherOpKeeps(s.own, stale, op); }
    }
  }

  lemma MutateSilences(q: System, step: Step, id: string)
    requires Inv(q) && Taken(q.store, id) && step.Mutate?
    requires q.store.runs[id].status != Completed && Do(q, step).store.runs[id].status == Completed
    ensures Do(q, step).store.runs[id].payload.result == Some(SILENT)
    ensures !q.store.runs[id].payload.handoff ==> Do(q, step).store.sessions == q.store.sessions
  {
    assert SnapOk(q, step.thread);
    var (target, stale) := q.snaps[step.thread];
    if Planned(stale, step.op).Some? && q.store.runs[target] == stale {
      HolderMay(q, step.thread, step.fence, step.owner, step.at, step.op);
    }
    OpSilences(q.store, target, stale, step.op, id);
  }

  /** The completing step itself: an empty public reply, and no history unless handed off. */
  lemma StepSilences(q: System, step: Step, id: string)
    requires Inv(q) && Taken(q.store, id)
    requires q.store.runs[id].status != Completed && Do(q, step).store.runs[id].status == Completed
    ensures Do(q, step).store.runs[id].payload.result == Some(SILENT)
    ensures !q.store.runs[id].payload.handoff ==> Do(q, step).store.sessions == q.store.sessions
  {
    match step
    case Try(t, op) =>
      assert SnapOk(q, t);
      OpSilences(q.store, q.snaps[t].0, q.snaps[t].1, op, id);
    case Mutate(_, _, _, _, _) => MutateSilences(q, step, id);
    case _ =>
  }

  /** A run taken over before it completed can only complete with an empty public reply. */
  lemma {:induction false} TakeoverSilences(q: System, steps: seq<Step>, id: string)
    requires Inv(q) && Taken(q.store, id) && q.store.runs[id].status != Completed
    requires id in After(q, steps).store.runs && After(q, steps).store.runs[id].status == Completed
    ensures After(q, steps).store.runs[id].payload.result == Some(SILENT)
    decreases |steps|
  {
    var next := Do(q, steps[0]);
    StepKeeps(q, steps[0]);
    TakenStable(q, next, id);
    if next.store.runs[id].status == Completed {
      StepSilences(q, steps[0], id);
      FinishedForever(next, steps[1..], id);
    } else {
      TakeoverSilences(next, steps[1..], id);
    }
  }

  /** Only finishing completes. */
  lemma CompletingOp(own: Owners, r: Run, op: Op)
    requires RowOk(r) && Applicable(r, op) && r.status != Completed && Outcome(own, r, Planned(r, op).value).status == Completed
    ensures op.Finish?
  {
    if op.Begin? || op.Complete? { CallOpKeeps(own, r, op); }
  }

  lemma MutateCompletes(q: System, step: Step, id: string)
    requires Inv(q) && id in q.store.runs && step.Mutate?
    requires q.store.runs[id].status != Completed && Do(q, step).store.runs[id].status == Completed
    ensures step.thread in q.snaps && q.snaps[step.thread] == (id, q.store.runs[id])
    ensures step.op.Finish? && Applicable(q.store.runs[id], step.op)
    ensures Do(q, step).store == OpTx(q.store, id, q.store.runs[id], step.op).0
    ensures OpTx(q.store, id, q.store.runs[id], step.op).1.value.Ok?
  {
    assert SnapOk(q, step.thread);
    var (target, stale) := q.snaps[step.thread];
    if Planned(stale, step.op).Some? && q.store.runs[target] == stale {
      HolderMay(q, step.thread, step.fence, step.owner, step.at, step.op);
    }
    OpCases(q.store, target, stale, step.op);
    assert RowAt(q.store, target);
    CompletingOp(q.store.own, stale, step.op);
  }

  lemma QueueOpCompletesNothing(own: Owners, r: Run, op: Op)
    requires !HoldersOp(op) && Planned(r, op).Some?
    ensures Outcome(own, r, Planned(r, op).value).status == Completed ==> r.status == Completed
  {}

  lemma TryCompletesNothing(q: System, t: nat, op: Op, id: string)
    requires Inv(q) && id in q.store.runs && q.store.runs[id].status != Completed
    ensures Do(q, Try(t, op)).store.runs[id].status != Completed
  {
    if t in q.snaps && !HoldersOp(op) {
      assert SnapOk(q, t);
      var (target, stale) := q.snaps[t];
      OpCases(q.store, target, stale, op);
      if Planned(stale, op).Some? { QueueOpCompletesNothing(q.store.own, stale, op); }
    }
  }

  lemma OthersCompleteNothing(q: System, step: Step, id: string)
    requires id in q.store.runs && !step.Mutate? && !step.Try?
    ensures Do(q, step).store.runs[id] == q.store.runs[id]
  {}

  lemma CompletingStep(q: System, step: Step, id: string)
    requires Inv(q) && id in q.store.runs
    requires q.store.runs[id].status != Completed && Do(q, step).store.runs[id].status == Completed
    ensures step.Mutate?
  {
    if step.Try? { TryCompletesNothing(q, step.thread, step.op, id); }
    else if !step.Mutate? { OthersCompleteNothing(q, step, id); }
  }

  /** What the tables say after run `id` was completed with this reply and this history. */
  predicate Said(s: Store, s': Store, id: string, op: Op)
    requires op.Finish? && id in s.runs && id in s'.runs
  {
    var r, p := s.runs[id], s'.runs[id].payload;
    if Undisturbed(s.own, r) then
      && p.result == Some(op.result) && p.draft == r.payload.draft
      && s'.sessions == if op.session.Some? then s.sessions[r.scope := op.session.value] else s.sessions
    else
      && p.result == Some(SILENT)
      && p.draft == (if r.payload.draft.None? then Some(Some(op.result)) else r.payload.draft)
      && (!r.payload.handoff ==> s'.sessions == s.sessions)
  }

  /** The tables after a finish that took effect. */
  lemma FinishedStore(s: Store, id: string, r: Run, op: Op)
    requires TablesOk(s) && id in s.runs && s.runs[id] == r && op.Finish? && Applicable(r, op) && OpTx(s, id, r, op).1.value.Ok?
    ensures Said(s, OpTx(s, id, r, op).0, id, op)
  {
    OpTakesEffectIff(s, id, r, op);
    FinishDelivers(s.own, r, op.result, op.session);
  }

  /**
   What a completed run says: the step that completes it is its holder's finish. As long as the agent
   still answers for the session, the stored reply is exactly the one given, the draft is untouched and
   the history given is stored; otherwise, and only then, the reply is empty.
   */
  lemma CompletionDelivers(before: seq<Step>, step: Step, id: string)
    requires var q := After(EMPTY, before);
      id in q.store.runs && q.store.runs[id].status != Completed && Do(q, step).store.runs[id].status == Completed
    ensures step.Mutate? && step.op.Finish?
    ensures Said(After(EMPTY, before).store, Do(After(EMPTY, before), step).store, id, step.op)
  {
    RunKeeps(EMPTY, before);
    var q := After(EMPTY, before);
    CompletingStep(q, step, id);
    MutateCompletes(q, step, id);
    FinishedStore(q.store, id, q.store.runs[id], step.op);
  }
}
