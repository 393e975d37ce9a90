/**
 What intakes promise while commands race each other and every other user of the consent store.
 */
module IntakeTheorems {
  import opened Wrappers
  import opened Handoffs
  import opened Consent
  import C = ConsentTheorems
  import opened Intake

  // ----- every step keeps the invariant -----

  /** Nothing but the consent store moves, and it moves forward. */
  lemma ConsentMoves(s: System, consent: C.System)
    requires Inv(s) && C.Inv(consent) && C.StoreEvolves(s.consent.store, consent.store)
    ensures Inv(s.(consent := consent))
  {
    var s' := s.(consent := consent);
    forall id ensures LogOk(s', id) && RowOk(s', id) { assert LogOk(s, id) && RowOk(s, id); }
    forall id, n, m ensures KeyOk(s', id, n, m) { assert KeyOk(s, id, n, m); }
    forall a ensures OriginOk(s', a) { assert OriginOk(s, a); }
    forall t ensures DraftOk(s', t) { assert DraftOk(s, t); }
  }

  lemma CreateKeeps(s: System, id: string, scope: Scope)
    requires Inv(s)
    ensures Inv(Do(s, Create(id, scope)))
  {
    var s' := Do(s, Create(id, scope));
    forall x ensures LogOk(s', x) && RowOk(s', x) { assert LogOk(s, x) && RowOk(s, x); }
    forall x, n, m ensures KeyOk(s', x, n, m) { assert KeyOk(s, x, n, m); }
    forall a ensures OriginOk(s', a) { assert OriginOk(s, a); }
    forall t ensures DraftOk(s', t) { assert DraftOk(s, t); }
  }

  lemma BeginKeeps(s: System, t: nat, id: string, key: string, request: Request, accepted: bool)
    requires Inv(s)
    ensures Inv(BeginStep(s, t, id, key, request, accepted))
  {
    var s' := BeginStep(s, t, id, key, request, accepted);
    forall x ensures LogOk(s', x) && RowOk(s', x) { assert LogOk(s, x) && RowOk(s, x); }
    forall x, n, m ensures KeyOk(s', x, n, m) { assert KeyOk(s, x, n, m); }
    forall a ensures OriginOk(s', a) { assert OriginOk(s, a); }
    forall u ensures DraftOk(s', u) {
      assert DraftOk(s, u) && RowOk(s, id);
      if id in s.intakes { assert OriginOk(s, s.intakes[id].payload.execution); }
    }
  }

  /** The facts about a commit that the rest of the proof uses. */
  ghost predicate Committed(s: System, s': System, d: Draft, plan: Prepared, action: string)
  {
    && d.id in s.intakes && s.intakes[d.id] == d.row && d.row.revision == d.request.expected
    && Prepare(d.row, d.request.command, d.accepted, d.priorClosed) == Some(plan)
    && !HasKey(s, d.id, d.key)
    && (plan.propose.Some? ==> action != "" && action !in s.consent.store.proposals && action !in s.origin)
    && (d.priorClosed && d.row.payload.execution != "" ==>
          && d.row.payload.execution in s.consent.store.proposals
          && Closed(s.consent.store.proposals[d.row.payload.execution].status))
    && var payload := if plan.propose.Some? then WithAction(plan.payload, d.request.command, action) else plan.payload;
      && s'.intakes == s.intakes[d.id := IntakeRow(d.row.scope, d.row.revision + 1, payload)]
      && s'.events == s.events[(d.id, d.row.revision + 1) := Event(d.key, d.request, payload)]
      && s'.origin == (if plan.propose.Some? then s.origin[action := Origin(d.id, d.row.revision + 1)] else s.origin)
      && s'.drafts == s.drafts
      && C.Inv(s'.consent) && C.StoreEvolves(s.consent.store, s'.consent.store)
  }

  /** What happens to the proposals of the intake. */
  ghost predicate ProposalsAfter(s: System, s': System, d: Draft, plan: Prepared, action: string)
  {
    && (d.row.payload.action != "" && (d.request.command.Update? || d.request.command.Withdraw?) ==>
          d.row.payload.action in s'.consent.store.proposals && Closed(s'.consent.store.proposals[d.row.payload.action].status))
    && (plan.propose.Some? ==>
          && action in s'.consent.store.proposals
          && s'.consent.store.proposals[action].tool == plan.propose.value.0
          && s'.consent.store.proposals[action].arguments == plan.propose.value.1
          && s'.consent.store.proposals[action].scope == d.row.scope)
  }

  lemma RevokedMoves(c: C.System, row: IntakeRow, command: Command)
    requires C.Inv(c)
    ensures C.Inv(Revoked(c, row, command)) && C.StoreEvolves(c.store, Revoked(c, row, command).store)
    ensures row.payload.action != "" && (command.Update? || command.Withdraw?)
            && IntakeTx(c.store, row.payload.action, command.Withdraw?).1.Ok? ==>
      && row.payload.action in Revoked(c, row, command).store.proposals
      && Closed(Revoked(c, row, command).store.proposals[row.payload.action].status)
    ensures command.ProposeCase? || command.ProposeExecution? ==> Revoked(c, row, command) == c
  {
    if row.payload.action != "" && (command.Update? || command.Withdraw?) {
      C.StepKeeps(c, C.IntakeChange(row.payload.action, command.Withdraw?));
    }
  }

  lemma ProposedMoves(c: C.System, action: string, scope: Scope, tool: string, arguments: Arguments, version: string, now: real, ttl: real)
    requires C.Inv(c) && action !in c.store.proposals && scope.1 != ""
    ensures var c' := C.Do(c, C.Propose(action, scope, tool, arguments, version, now, ttl, false));
      && C.Inv(c') && C.StoreEvolves(c.store, c'.store)
      && action in c'.store.proposals && c'.store.proposals[action].tool == tool
      && c'.store.proposals[action].arguments == arguments && c'.store.proposals[action].scope == scope
  {
    C.StepKeeps(c, C.Propose(action, scope, tool, arguments, version, now, ttl, false));
  }

  lemma CommitFacts(s: System, t: nat, action: string, version: string, guarded: bool, now: real, ttl: real)
    requires Inv(s) && CommitStep(s, t, action, version, guarded, now, ttl) != s
    ensures t in s.drafts
    ensures var d := s.drafts[t];
      && Prepare(d.row, d.request.command, d.accepted, d.priorClosed).Some?
      && var plan := Prepare(d.row, d.request.command, d.accepted, d.priorClosed).value;
        && Committed(s, CommitStep(s, t, action, version, guarded, now, ttl), d, plan, action)
        && ProposalsAfter(s, CommitStep(s, t, action, version, guarded, now, ttl), d, plan, action)
  {
    var d := s.drafts[t];
    assert DraftOk(s, t);
    var plan := Prepare(d.row, d.request.command, d.accepted, d.priorClosed).value;
    RevokedMoves(s.consent, d.row, d.request.command);
    if plan.propose.Some? {
      ProposedMoves(s.consent, action, d.row.scope, plan.propose.value.0, plan.propose.value.1, version, now, ttl);
    }
  }

  lemma CommitLog(s: System, s': System, d: Draft, plan: Prepared, action: string)
    requires Inv(s) && Committed(s, s', d, plan, action)
    ensures forall id :: LogOk(s', id)
    ensures forall id, n, m :: KeyOk(s', id, n, m)
  {
    forall id ensures LogOk(s', id) { assert LogOk(s, id); }
    forall id, n, m ensures KeyOk(s', id, n, m) { assert KeyOk(s, id, n, m); }
  }

  lemma CommitRows(s: System, s': System, d: Draft, plan: Prepared, action: string)
    requires Inv(s) && Committed(s, s', d, plan, action)
    ensures forall id :: RowOk(s', id)
    ensures forall t :: DraftOk(s', t)
  {
    forall id ensures RowOk(s', id) { assert RowOk(s, id); }
    forall t ensures DraftOk(s', t) { assert DraftOk(s, t); }
  }

  lemma CommitOldOrigin(s: System, s': System, d: Draft, plan: Prepared, action: string, a: string)
    requires Inv(s) && Committed(s, s', d, plan, action) && ProposalsAfter(s, s', d, plan, action)
    requires a in s.origin && s.origin[a].intake == d.id
    ensures OriginOk(s', a)
  {
    assert OriginOk(s, a) && LogOk(s, d.id);
  }

  lemma CommitOrigins(s: System, s': System, d: Draft, plan: Prepared, action: string, a: string)
    requires Inv(s) && Committed(s, s', d, plan, action) && ProposalsAfter(s, s', d, plan, action)
    ensures OriginOk(s', a)
  {
    if a in s.origin && s.origin[a].intake == d.id {
      CommitOldOrigin(s, s', d, plan, action, a);
    } else {
      assert OriginOk(s, a) && RowOk(s, d.id) && LogOk(s, d.id);
    }
  }

  lemma StepKeeps(s: System, step: Step)
    requires Inv(s)
    ensures Inv(Do(s, step)) && C.StoreEvolves(s.consent.store, Do(s, step).consent.store)
  {
    match step
    case Create(id, scope) => CreateKeeps(s, id, scope);
    case Begin(t, id, key, request, accepted) => BeginKeeps(s, t, id, key, request, accepted);
    case Commit(t, action, version, guarded, now, ttl) =>
      var s' := Do(s, step);
      if s' != s {
        CommitFacts(s, t, action, version, guarded, now, ttl);
        var d := s.drafts[t];
        var plan := Prepare(d.row, d.request.command, d.accepted, d.priorClosed).value;
        CommitLog(s, s', d, plan, action);
        CommitRows(s, s', d, plan, action);
        forall a ensures OriginOk(s', a) { CommitOrigins(s, s', d, plan, action, a); }
      }
    case Elsewhere(step') =>
      C.StepKeeps(s.consent, step');
      ConsentMoves(s, C.Do(s.consent, step'));
  }

  lemma {:induction false} RunKeeps(s: System, steps: seq<Step>)
    requires Inv(s)
    ensures Inv(Run(s, steps)) && C.StoreEvolves(s.consent.store, Run(s, steps).consent.store)
    decreases |steps|
  {
    if steps != [] {
      StepKeeps(s, steps[0]);
      RunKeeps(Do(s, steps[0]), steps[1..]);
      C.StoreEvolvesTransitive(s.consent.store, Do(s, steps[0]).consent.store, Run(s, steps).consent.store);
    }
  }

  lemma EmptyInv()
    ensures Inv(EMPTY)
  {
    C.EmptyInv();
  }

  // ----- the promises -----

  /** The history has revisions 1..revision, each once, and ends with the stored payload. */
  lemma HistoryIsTheState(steps: seq<Step>, id: string)
    requires id in Run(EMPTY, steps).intakes
    ensures var s := Run(EMPTY, steps);
      && (forall n: nat :: (id, n) in s.events <==> 1 <= n <= s.intakes[id].revision)
      && (s.intakes[id].revision > 0 ==> s.events[(id, s.intakes[id].revision)].response == s.intakes[id].payload)
  {
    EmptyInv();
    RunKeeps(EMPTY, steps);
    assert LogOk(Run(EMPTY, steps), id);
  }

  lemma StepAppends(s: System, step: Step, id: string, n: nat)
    requires Inv(s) && (id, n) in s.events
    ensures (id, n) in Do(s, step).events && Do(s, step).events[(id, n)] == s.events[(id, n)]
  {
    if step.Commit? && Do(s, step) != s {
      assert LogOk(s, id) && DraftOk(s, step.thread);
    }
  }

  /** Receipts are permanent: a committed command can be replayed with the same answer forever. */
  lemma {:induction false} ReceiptsArePermanent(s: System, steps: seq<Step>, id: string, n: nat)
    requires Inv(s) && (id, n) in s.events
    ensures (id, n) in Run(s, steps).events && Run(s, steps).events[(id, n)] == s.events[(id, n)]
    decreases |steps|
  {
    if steps != [] {
      StepAppends(s, steps[0], id, n);
      StepKeeps(s, steps[0]);
      ReceiptsArePermanent(Do(s, steps[0]), steps[1..], id, n);
    }
  }

  /** Idempotency: a request key takes effect at most once per intake, under any race. */
  lemma KeyTakesEffectOnce(steps: seq<Step>, id: string, n: nat, m: nat)
    requires var s := Run(EMPTY, steps);
      (id, n) in s.events && (id, m) in s.events && s.events[(id, n)].key == s.events[(id, m)].key
    ensures n == m
  {
    EmptyInv();
    RunKeeps(EMPTY, steps);
    assert KeyOk(Run(EMPTY, steps), id, n, m);
  }

  /** An intake never has two create proposals that could still be, or have been, carried out. */
  lemma OneLiveProposal(steps: seq<Step>, a: string, b: string)
    requires var s := Run(EMPTY, steps);
      && a in s.origin && b in s.origin && s.origin[a].intake == s.origin[b].intake
      && a in s.consent.store.proposals && b in s.consent.store.proposals
      && s.consent.store.proposals[a].tool == s.consent.store.proposals[b].tool
      && !Closed(s.consent.store.proposals[a].status) && !Closed(s.consent.store.proposals[b].status)
    ensures a == b
  {
    EmptyInv();
    RunKeeps(EMPTY, steps);
    assert OriginOk(Run(EMPTY, steps), a) && OriginOk(Run(EMPTY, steps), b);
  }

  lemma OriginStays(s: System, step: Step, a: string)
    requires a in s.origin && Inv(s)
    ensures a in Do(s, step).origin && Do(s, step).origin[a] == s.origin[a]
  {}

  lemma {:induction false} OriginStaysForever(s: System, steps: seq<Step>, a: string)
    requires a in s.origin && Inv(s)
    ensures a in Run(s, steps).origin && Run(s, steps).origin[a] == s.origin[a]
    decreases |steps|
  {
    if steps != [] {
      OriginStays(s, steps[0], a);
      StepKeeps(s, steps[0]);
      OriginStaysForever(Do(s, steps[0]), steps[1..], a);
    }
  }

  /**
   Frozen content: once the proposal of an intake has started, in every later state the intake still
   shows that proposal and the same fields, which are those of the event that proposed it and the
   arguments the user consented to.
   */
  lemma StartedContentIsFrozen(s: System, steps: seq<Step>, a: string)
    requires Inv(s) && a in s.origin && a in s.consent.store.proposals
    requires s.consent.store.proposals[a].tool == CREATE && Started(s.consent.store.proposals[a].status)
    ensures var end := Run(s, steps); var o := s.origin[a];
      && o.intake in s.intakes && o.intake in end.intakes && (o.intake, o.revision) in s.events
      && end.intakes[o.intake].payload.action == a == s.events[(o.intake, o.revision)].response.action
      && s.events[(o.intake, o.revision)].request.command == ProposeCase
      && end.intakes[o.intake].payload.fields == s.intakes[o.intake].payload.fields
      && end.intakes[o.intake].payload.fields == s.events[(o.intake, o.revision)].response.fields
      && s.consent.store.proposals[a].arguments == CaseFor(end.intakes[o.intake].payload.fields)
  {
    RunKeeps(s, steps);
    OriginStaysForever(s, steps, a);
    assert OriginOk(s, a) && OriginOk(Run(s, steps), a);
    ReceiptsArePermanent(s, steps, s.origin[a].intake, s.origin[a].revision);
  }
}
