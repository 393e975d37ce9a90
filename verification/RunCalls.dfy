/**
 Calls of a run across crashes, retries and overlapping workers: once the journal has a call as completed
 nobody starts it again, and its record stays.
 */
module RunCalls {
  import opened Wrappers
  import opened Handoffs
  import opened RunQueue
  import opened RunProtocol
  import opened RunSafety
  import opened RunTheorems

  predicate Ended(r: Run, k: CallKey)
  {
    k in r.payload.calls && r.payload.calls[k].state == Done
  }

  /** As long as nobody has claimed the run again, what its worker may start or end has not ended. */
  ghost predicate ViewFits(c: Context, r: Run)
  {
    c.armed !! c.begun && forall k :: k in c.armed || k in c.begun ==> !Ended(r, k)
  }

  ghost predicate ViewOk(q: System, id: string, f: nat)
  {
    (id, f) in q.contexts && id in q.store.runs && q.store.runs[id].fence == f ==> ViewFits(q.contexts[(id, f)], q.store.runs[id])
  }

  ghost predicate CallsInv(q: System)
  {
    forall id, f {:trigger ViewOk(q, id, f)} :: ViewOk(q, id, f)
  }

  /** What has ended stays as it is. */
  ghost predicate EndedStays(r: Run, r': Run)
  {
    forall k :: Ended(r, k) ==> k in r'.payload.calls && r'.payload.calls[k] == r.payload.calls[k]
  }

  ghost predicate RunStays(q: System, q': System, id: string)
  {
    id in q.store.runs ==> id in q'.store.runs && EndedStays(q.store.runs[id], q'.store.runs[id])
  }

  // ----- one operation -----

  lemma QueueOpKeepsCalls(own: Owners, r: Run, op: Op)
    requires !HoldersOp(op) && Planned(r, op).Some?
    ensures var r' := Outcome(own, r, Planned(r, op).value); r'.payload == r.payload && r'.fence in {r.fence, r.fence + 1}
  {}

  /** An operation its worker is allowed touches no call that has ended, and what it remembers still fits. */
  lemma HolderOpFits(own: Owners, r: Run, c: Context, op: Op)
    requires HoldersOp(op) && Planned(r, op).Some? && Allows(c, op) && ViewFits(c, r)
    ensures var r' := Outcome(own, r, Planned(r, op).value);
      r'.fence == r.fence && EndedStays(r, r') && ViewFits(AfterMutate(c, op), r')
  {
    var r' := Outcome(own, r, Planned(r, op).value);
    assert !op.Begin? && !op.Complete? ==> r'.payload.calls == r.payload.calls;
    forall k | k in AfterMutate(c, op).armed || k in AfterMutate(c, op).begun ensures !Ended(r', k) {
      if op.Begin? && k == op.call {
        assert r'.payload.calls[k].state == InFlight;
      } else {
        assert !Ended(r, k);
      }
    }
  }

  // ----- steps -----

  lemma TryView(q: System, t: nat, op: Op, id: string, f: nat)
    requires Inv(q) && CallsInv(q)
    ensures ViewOk(Do(q, Try(t, op)), id, f) && RunStays(q, Do(q, Try(t, op)), id)
  {
    assert SnapOk(q, t) && ViewOk(q, id, f) && ContextOk(q, id, f);
    if t in q.snaps && !HoldersOp(op) {
      var (target, stale) := q.snaps[t];
      OpCases(q.store, target, stale, op);
      if Planned(stale, op).Some? { QueueOpKeepsCalls(q.store.own, stale, op); }
    }
  }

  lemma MutateView(q: System, t: nat, fence: nat, owner: string, at: real, op: Op, id: string, f: nat)
    requires Inv(q) && CallsInv(q)
    ensures var q' := Do(q, Mutate(t, fence, owner, at, op)); ViewOk(q', id, f) && RunStays(q, q', id)
  {
    assert SnapOk(q, t) && ViewOk(q, id, f);
    if Do(q, Mutate(t, fence, owner, at, op)) != q {
      var (target, stale) := q.snaps[t];
      assert ViewOk(q, target, fence);
      if Planned(stale, op).Some? && q.store.runs[target] == stale { HolderMay(q, t, fence, owner, at, op); }
      OpCases(q.store, target, stale, op);
      if Planned(stale, op).Some? && q.store.runs[target] == stale { HolderOpFits(q.store.own, stale, q.contexts[(target, fence)], op); }
    }
  }

  lemma CheckView(q: System, step: Step, id: string, f: nat)
    requires Inv(q) && CallsInv(q) && (step.Check? || step.SeeCancel?)
    ensures ViewOk(Do(q, step), id, f) && RunStays(q, Do(q, step), id)
  {
    assert ViewOk(q, id, f) && ContextOk(q, id, f);
  }

  lemma OtherView(q: System, step: Step, id: string, f: nat)
    requires Inv(q) && CallsInv(q)
    requires !step.Try? && !step.Mutate? && !step.Check? && !step.SeeCancel?
    ensures ViewOk(Do(q, step), id, f) && RunStays(q, Do(q, step), id)
  {
    assert ViewOk(q, id, f) && ContextOk(q, id, f);
  }

  lemma StepView(q: System, step: Step, id: string, f: nat)
    requires Inv(q) && CallsInv(q)
    ensures ViewOk(Do(q, step), id, f) && RunStays(q, Do(q, step), id)
  {
    match step
    case Try(t, op) => TryView(q, t, op, id, f);
    case Mutate(t, fence, owner, at, op) => MutateView(q, t, fence, owner, at, op, id, f);
    case Check(_, _, _, _, _) => CheckView(q, step, id, f);
    case SeeCancel(_, _, _, _) => CheckView(q, step, id, f);
    case _ => OtherView(q, step, id, f);
  }

  lemma StepKeepsCalls(q: System, step: Step)
    requires Inv(q) && CallsInv(q)
    ensures CallsInv(Do(q, step)) && forall id :: RunStays(q, Do(q, step), id)
  {
    forall id, f ensures ViewOk(Do(q, step), id, f) { StepView(q, step, id, f); }
    forall id ensures RunStays(q, Do(q, step), id) { StepView(q, step, id, 0); }
  }

  lemma StaysTransitive(a: System, b: System, c: System, id: string)
    requires RunStays(a, b, id) && RunStays(b, c, id)
    ensures RunStays(a, c, id)
  {
    if id in a.store.runs {
      forall k | Ended(a.store.runs[id], k) ensures k in c.store.runs[id].payload.calls && c.store.runs[id].payload.calls[k] == a.store.runs[id].payload.calls[k] {
        assert Ended(b.store.runs[id], k);
      }
    }
  }

  lemma {:induction false} RunKeepsCalls(q: System, steps: seq<Step>, id: string)
    requires Inv(q) && CallsInv(q)
    ensures CallsInv(After(q, steps)) && RunStays(q, After(q, steps), id)
    decreases |steps|
  {
    if steps != [] {
      StepKeeps(q, steps[0]);
      StepKeepsCalls(q, steps[0]);
      RunKeepsCalls(Do(q, steps[0]), steps[1..], id);
      StaysTransitive(q, Do(q, steps[0]), After(q, steps), id);
    }
  }

  /**
   In every run of the system: a call that is recorded as completed keeps its record, so it is not
   dispatched again by any later attempt, however many workers take the run over.
   */
  lemma CompletedCallsStay(before: seq<Step>, after: seq<Step>, id: string, k: CallKey)
    requires var s := After(EMPTY, before).store; id in s.runs && k in s.runs[id].payload.calls && s.runs[id].payload.calls[k].state == Done
    ensures var q := After(EMPTY, before); var s, s' := q.store, After(q, after).store;
      id in s'.runs && k in s'.runs[id].payload.calls && s'.runs[id].payload.calls[k] == s.runs[id].payload.calls[k]
  {
    RunKeeps(EMPTY, before);
    assert CallsInv(EMPTY);
    var q := After(EMPTY, before);
    RunKeepsCalls(EMPTY, before, id);
    RunKeepsCalls(q, after, id);
    assert Ended(q.store.runs[id], k);
  }
}
