/**
 Confirmations, rejections, expiries, revisions, takeovers, claims and results in any order, by any
 number of threads that act on rows they read earlier.
 */
module ConsentTheorems {
  import opened Wrappers
  import opened Handoffs
  import opened Consent

  /**
   `rows` are proposals read by threads. `uses` lists, in order, the proposals whose confirmation was
   used: by a claim that returned true, or by handing the command to the inventory queue. `versions`
   records the business version presented with each confirmation.
   */
  datatype System = System(
    store: Store,
    rows: map<nat, (string, Proposal)>,
    uses: seq<string>,
    versions: map<string, string>)

  datatype Step =
    | Propose(id: string, scope: Scope, tool: string, arguments: Arguments, version: string, now: real, ttl: real, deduplicate: bool)
    | Read(thread: nat, id: string)
    | Validate(thread: nat, hash: Digest, version: string, now: real)
    | Confirm(thread: nat, hash: Digest, version: string, now: real, at: real, channel: string)
    | Reject(thread: nat)
    | RevokeScope(scope: Scope, ids: Option<set<string>>)
    | Claim(thread: nat, guarded: bool, now: real)
    | Finish(id: string, result: string, unknown: bool)
    | Accept(id: string, guarded: bool, result: string)
    | TakeOrRelease(scope: Scope, actor: string, expected: nat, take: bool)
    | Revise(id: string, actor: string, supported: bool)
    | IntakeChange(id: string, withdraw: bool)

  function Do(q: System, step: Step): System
  {
    match step
    case Propose(id, scope, tool, arguments, version, now, ttl, deduplicate) =>
      q.(store := ProposeTx(q.store, id, scope, tool, arguments, version, now, ttl, deduplicate))
    case Read(t, id) => if id !in q.store.proposals then q else q.(rows := q.rows[t := (id, q.store.proposals[id])])
    case Validate(t, hash, version, now) =>
      if t !in q.rows then q else q.(store := ValidateTx(q.store, q.rows[t].0, q.rows[t].1, hash, version, now).0)
    case Confirm(t, hash, version, now, at, channel) =>
      if t !in q.rows then q
      else
        var (id, row) := q.rows[t];
        var store := ConfirmTx(q.store, id, row, hash, version, now, at, channel);
        var confirmed := id in store.confirmations && id !in q.store.confirmations;
        q.(store := store, versions := if confirmed then q.versions[id := version] else q.versions)
    case Reject(t) => if t !in q.rows then q else q.(store := RejectTx(q.store, q.rows[t].0, q.rows[t].1))
    case RevokeScope(scope, ids) => q.(store := RevokeScopeTx(q.store, scope, ids))
    case Claim(t, guarded, now) =>
      if t !in q.rows then q
      else
        var (store, r) := ClaimTx(q.store, q.rows[t].0, q.rows[t].1.scope, guarded, now);
        q.(store := store, uses := if r == Ok(true) then q.uses + [q.rows[t].0] else q.uses)
    case Finish(id, result, unknown) => q.(store := FinishTx(q.store, id, result, unknown))
    case Accept(id, guarded, result) =>
      var (store, r) := AcceptTx(q.store, id, guarded, result);
      q.(store := store, uses := if r.Ok? then q.uses + [id] else q.uses)
    case TakeOrRelease(scope, actor, expected, take) => q.(store := TakeOrReleaseTx(q.store, scope, actor, expected, take).0)
    case Revise(id, actor, supported) => q.(store := ReviseTx(q.store, id, actor, supported).0)
    case IntakeChange(id, withdraw) => q.(store := IntakeTx(q.store, id, withdraw).0)
  }

  function Run(q: System, steps: seq<Step>): System
    decreases |steps|
  {
    if steps == [] then q else Run(Do(q, steps[0]), steps[1..])
  }

  const EMPTY := System(Store(map[], map[], map[]), map[], [], map[])

  // ----- the invariant -----

  predicate SameContent(a: Proposal, b: Proposal)
  {
    && a.scope == b.scope && a.tool == b.tool && a.arguments == b.arguments && a.hash == b.hash
    && a.businessVersion == b.businessVersion && a.createdAt == b.createdAt && a.expiresAt == b.expiresAt
  }

  /** What was asked never changes; refused and finished proposals never come back. */
  predicate Evolves(a: Proposal, b: Proposal)
  {
    && SameContent(a, b)
    && (Closed(a.status) ==> Closed(b.status))
    && (Started(a.status) ==> Started(b.status))
    && (a.status == Confirmed ==> b.status != Pending)
    && (a.status in {Completed, Unknown} ==> b == a)
  }

  predicate Consented(p: Proposal, c: Confirmation)
  {
    c.actor == p.scope.0 && c.hash == p.hash == Sha256(p.arguments) && c.at < p.expiresAt
  }

  predicate ProposalOk(s: Store, id: string)
  {
    && (id in s.confirmations ==> id in s.proposals && Consented(s.proposals[id], s.confirmations[id]))
    && (id in s.proposals ==>
          && s.proposals[id].hash == Sha256(s.proposals[id].arguments)
          && (s.proposals[id].status == Pending ==> id !in s.confirmations)
          && (s.proposals[id].status == Confirmed || Started(s.proposals[id].status) ==> id in s.confirmations))
  }

  ghost predicate StoreOk(s: Store)
  {
    forall id {:trigger ProposalOk(s, id)} :: ProposalOk(s, id)
  }

  ghost predicate StoreEvolves(a: Store, b: Store)
  {
    && (forall id :: id in a.proposals ==> id in b.proposals && Evolves(a.proposals[id], b.proposals[id]))
    && (forall id :: id in a.confirmations ==> id in b.confirmations && b.confirmations[id] == a.confirmations[id])
  }

  ghost predicate RowOk(q: System, t: nat)
  {
    t in q.rows ==> q.rows[t].0 in q.store.proposals && Evolves(q.rows[t].1, q.store.proposals[q.rows[t].0])
  }

  /** A proposal has started exactly when its confirmation was used, and no id occurs twice. */
  ghost predicate UsesOk(q: System)
  {
    && (forall id :: id in q.uses <==> id in q.store.proposals && Started(q.store.proposals[id].status))
    && (forall i, j :: 0 <= i < j < |q.uses| ==> q.uses[i] != q.uses[j])
  }

  /** Whoever confirmed a proposal presented the business version it was made for. */
  ghost predicate VersionOk(q: System, id: string)
  {
    id in q.store.confirmations ==>
      id in q.store.proposals && id in q.versions && q.versions[id] == q.store.proposals[id].businessVersion
  }

  ghost predicate Inv(q: System)
  {
    && StoreOk(q.store) && UsesOk(q)
    && (forall t {:trigger RowOk(q, t)} :: RowOk(q, t))
    && (forall id {:trigger VersionOk(q, id)} :: VersionOk(q, id))
  }

  lemma EvolvesTransitive(a: Proposal, b: Proposal, c: Proposal)
    requires Evolves(a, b) && Evolves(b, c)
    ensures Evolves(a, c)
  {}

  /** Rewriting the status of one proposal in one of the allowed ways. */
  lemma StatusKeeps(s: Store, id: string, p: Proposal)
    requires StoreOk(s) && id in s.proposals && Evolves(s.proposals[id], p)
    requires p.status == Confirmed || Started(p.status) ==> id in s.confirmations
    requires p.status == Pending ==> s.proposals[id].status == Pending
    ensures var s' := s.(proposals := s.proposals[id := p]); StoreOk(s') && StoreEvolves(s, s')
  {
    var s' := s.(proposals := s.proposals[id := p]);
    forall other ensures ProposalOk(s', other) { assert ProposalOk(s, other); }
  }

  lemma InvalidateKeeps(s: Store, id: string, status: ActionStatus)
    requires StoreOk(s) && Closed(status)
    ensures StoreOk(InvalidateTx(s, id, status)) && StoreEvolves(s, InvalidateTx(s, id, status))
  {
    if id in s.proposals && Open(s.proposals[id].status) { StatusKeeps(s, id, s.proposals[id].(status := status)); }
  }

  lemma ValidateKeeps(s: Store, id: string, row: Proposal, hash: Digest, version: string, now: real)
    requires StoreOk(s)
    ensures var s' := ValidateTx(s, id, row, hash, version, now).0; StoreOk(s') && StoreEvolves(s, s')
  {
    match Verdict(row, hash, version, now)
    case Some((_, Some(status))) => InvalidateKeeps(s, id, status);
    case _ =>
  }

  /** The confirmation row and the status change together, and the key can never refuse the row. */
  lemma ConfirmUpdateKeeps(s: Store, id: string, row: Proposal, channel: string, hash: Digest, at: real)
    requires StoreOk(s) && id in s.proposals && Evolves(row, s.proposals[id]) && row.hash == hash
    ensures var s' := ConfirmUpdate(s, id, row.scope.0, channel, hash, at); StoreOk(s') && StoreEvolves(s, s')
    ensures s.proposals[id].status == Pending && s.proposals[id].expiresAt > at ==>
      ConfirmUpdate(s, id, row.scope.0, channel, hash, at).proposals[id].status == Confirmed
  {
    var s' := ConfirmUpdate(s, id, row.scope.0, channel, hash, at);
    forall other ensures ProposalOk(s', other) { assert ProposalOk(s, other) && ProposalOk(s, id); }
  }

  lemma ConfirmKeeps(s: Store, id: string, row: Proposal, hash: Digest, version: string, now: real, at: real, channel: string)
    requires StoreOk(s) && id in s.proposals && Evolves(row, s.proposals[id])
    ensures var s' := ConfirmTx(s, id, row, hash, version, now, at, channel); StoreOk(s') && StoreEvolves(s, s')
  {
    ValidateKeeps(s, id, row, hash, version, now);
    if ValidateTx(s, id, row, hash, version, now).1.Ok? {
      ConfirmUpdateKeeps(s, id, row, channel, hash, at);
    }
  }

  lemma CloseKeeps(s: Store, scope: Scope, ids: Option<set<string>>, status: ActionStatus, own: Owners)
    requires StoreOk(s) && Closed(status)
    ensures var s' := CloseOpenTx(s, scope, ids, status).(own := own); StoreOk(s') && StoreEvolves(s, s')
  {
    var s' := CloseOpenTx(s, scope, ids, status).(own := own);
    forall id ensures ProposalOk(s', id) { assert ProposalOk(s, id); }
  }

  lemma OwnKeeps(s: Store, own: Owners)
    requires StoreOk(s)
    ensures StoreOk(s.(own := own)) && StoreEvolves(s, s.(own := own))
  {
    forall id ensures ProposalOk(s.(own := own), id) { assert ProposalOk(s, id); }
  }

  lemma TakeKeeps(s: Store, scope: Scope, actor: string, expected: nat, take: bool)
    requires StoreOk(s)
    ensures var s' := TakeOrReleaseTx(s, scope, actor, expected, take).0; StoreOk(s') && StoreEvolves(s, s')
  {
    var s' := TakeOrReleaseTx(s, scope, actor, expected, take).0;
    OwnKeeps(s, s'.own);
    CloseKeeps(s, scope, None, Invalidated, s'.own);
  }

  lemma ProposeKeeps(s: Store, step: Step)
    requires StoreOk(s) && step.Propose?
    ensures var s' := ProposeTx(s, step.id, step.scope, step.tool, step.arguments, step.version, step.now, step.ttl, step.deduplicate);
      StoreOk(s') && StoreEvolves(s, s')
  {
    var s' := ProposeTx(s, step.id, step.scope, step.tool, step.arguments, step.version, step.now, step.ttl, step.deduplicate);
    forall id ensures ProposalOk(s', id) { assert ProposalOk(s, id); }
  }

  lemma RowWriteKeeps(s: Store, step: Step)
    requires StoreOk(s) && (step.Finish? || step.Accept? || step.Revise? || step.IntakeChange?)
    ensures var s' := Do(System(s, map[], [], map[]), step).store; StoreOk(s') && StoreEvolves(s, s')
  {
    var s' := Do(System(s, map[], [], map[]), step).store;
    assert ProposalOk(s, step.id);
    if s' != s { StatusKeeps(s, step.id, s'.proposals[step.id]); }
  }

  lemma ClaimKeeps(s: Store, id: string, scope: Scope, guarded: bool, now: real)
    requires StoreOk(s)
    ensures var (s', r) := ClaimTx(s, id, scope, guarded, now);
      && StoreOk(s') && StoreEvolves(s, s')
      && (r == Ok(true) ==> id in s.proposals && s.proposals[id].status == Confirmed && s'.proposals[id].status == Executing)
  {
    assert ProposalOk(s, id);
    if id in s.proposals && s.proposals[id].status == Confirmed {
      StatusKeeps(s, id, s.proposals[id].(status := Executing));
    }
  }

  lemma StepStore(q: System, step: Step)
    requires Inv(q)
    ensures StoreOk(Do(q, step).store) && StoreEvolves(q.store, Do(q, step).store)
  {
    match step
    case Propose(_, _, _, _, _, _, _, _) => ProposeKeeps(q.store, step);
    case Read(_, _) =>
    case Validate(t, hash, version, now) =>
      if t in q.rows { ValidateKeeps(q.store, q.rows[t].0, q.rows[t].1, hash, version, now); }
    case Confirm(t, hash, version, now, at, channel) =>
      assert RowOk(q, t);
      if t in q.rows { ConfirmKeeps(q.store, q.rows[t].0, q.rows[t].1, hash, version, now, at, channel); }
    case Reject(t) => if t in q.rows { InvalidateKeeps(q.store, q.rows[t].0, Rejected); }
    case RevokeScope(scope, ids) => CloseKeeps(q.store, scope, ids, Rejected, q.store.own);
    case Claim(t, guarded, now) => if t in q.rows { ClaimKeeps(q.store, q.rows[t].0, q.rows[t].1.scope, guarded, now); }
    case TakeOrRelease(scope, actor, expected, take) => TakeKeeps(q.store, scope, actor, expected, take);
    case _ => RowWriteKeeps(q.store, step);
  }

  /** The same proposals have started. */
  ghost predicate SameStarts(s: Store, s': Store)
  {
    forall id :: id in s.proposals && Started(s.proposals[id].status) <==> id in s'.proposals && Started(s'.proposals[id].status)
  }

  lemma RowStarts(q: System, step: Step)
    requires step.Propose? || step.Finish? || step.Revise? || step.IntakeChange?
    ensures SameStarts(q.store, Do(q, step).store)
  {}

  lemma ClosingStarts(q: System, step: Step)
    requires step.Validate? || step.Reject? || step.RevokeScope? || step.TakeOrRelease?
    ensures SameStarts(q.store, Do(q, step).store)
  {}

  lemma ConfirmStarts(q: System, step: Step)
    requires step.Confirm?
    ensures SameStarts(q.store, Do(q, step).store)
  {}

  /** Using a confirmation starts that proposal and no other. */
  lemma UseStarts(q: System, q': System, id: string, p: Proposal)
    requires UsesOk(q) && id in q.store.proposals && !Started(q.store.proposals[id].status) && Started(p.status)
    requires q'.store.proposals == q.store.proposals[id := p] && q'.uses == q.uses + [id]
    ensures UsesOk(q')
  {
    assert id !in q.uses;
  }

  lemma StepUses(q: System, step: Step)
    requires UsesOk(q)
    ensures UsesOk(Do(q, step))
  {
    var q' := Do(q, step);
    match step
    case Read(_, _) =>
    case Claim(t, guarded, now) =>
      if q'.uses != q.uses { UseStarts(q, q', q.rows[t].0, q'.store.proposals[q.rows[t].0]); }
    case Accept(id, _, _) => if q'.uses != q.uses { UseStarts(q, q', id, q'.store.proposals[id]); }
    case Confirm(_, _, _, _, _, _) => ConfirmStarts(q, step);
    case Validate(_, _, _, _) => ClosingStarts(q, step);
    case Reject(_) => ClosingStarts(q, step);
    case RevokeScope(_, _) => ClosingStarts(q, step);
    case TakeOrRelease(_, _, _, _) => ClosingStarts(q, step);
    case _ => RowStarts(q, step);
  }

  /** Only confirming adds a confirmation. */
  lemma OthersConfirmNothing(q: System, step: Step)
    requires !step.Confirm?
    ensures Do(q, step).store.confirmations == q.store.confirmations && Do(q, step).versions == q.versions
  {}

  /** A new confirmation comes from a row that was pending, at its own business version. */
  lemma ConfirmsAtVersion(s: Store, id: string, row: Proposal, hash: Digest, version: string, now: real, at: real, channel: string)
    requires id in s.proposals && Evolves(row, s.proposals[id])
    ensures var s' := ConfirmTx(s, id, row, hash, version, now, at, channel);
      && (forall other :: other in s'.confirmations && other != id ==> other in s.confirmations)
      && (id in s'.confirmations && id !in s.confirmations ==> version == row.businessVersion)
  {}

  lemma StepVersions(q: System, step: Step, id: string)
    requires Inv(q) && StoreEvolves(q.store, Do(q, step).store)
    ensures VersionOk(Do(q, step), id)
  {
    assert VersionOk(q, id);
    if !step.Confirm? {
      OthersConfirmNothing(q, step);
    } else if step.thread in q.rows {
      assert RowOk(q, step.thread);
      ConfirmsAtVersion(q.store, q.rows[step.thread].0, q.rows[step.thread].1, step.hash, step.version, step.now, step.at, step.channel);
    }
  }

  lemma StepKeeps(q: System, step: Step)
    requires Inv(q)
    ensures Inv(Do(q, step)) && StoreEvolves(q.store, Do(q, step).store)
  {
    var q' := Do(q, step);
    StepStore(q, step);
    forall t ensures RowOk(q', t) {
      assert RowOk(q, t);
      if t in q.rows && t in q'.rows && q'.rows[t] == q.rows[t] {
        EvolvesTransitive(q.rows[t].1, q.store.proposals[q.rows[t].0], q'.store.proposals[q.rows[t].0]);
      }
    }
    StepUses(q, step);
    forall id ensures VersionOk(q', id) { StepVersions(q, step, id); }
  }

  lemma StoreEvolvesTransitive(a: Store, b: Store, c: Store)
    requires StoreEvolves(a, b) && StoreEvolves(b, c)
    ensures StoreEvolves(a, c)
  {
    forall id | id in a.proposals ensures id in c.proposals && Evolves(a.proposals[id], c.proposals[id]) {
      EvolvesTransitive(a.proposals[id], b.proposals[id], c.proposals[id]);
    }
  }

  lemma {:induction false} RunKeeps(q: System, steps: seq<Step>)
    requires Inv(q)
    ensures Inv(Run(q, steps)) && StoreEvolves(q.store, Run(q, steps).store)
    decreases |steps|
  {
    if steps != [] {
      StepKeeps(q, steps[0]);
      RunKeeps(Do(q, steps[0]), steps[1..]);
      StoreEvolvesTransitive(q.store, Do(q, steps[0]).store, Run(q, steps).store);
    }
  }

  lemma EmptyInv()
    ensures Inv(EMPTY)
  {
    forall id ensures ProposalOk(EMPTY.store, id) && VersionOk(EMPTY, id) {}
  }

  // ----- the promises -----

  /** Single use: over every run a confirmation is used at most once, by a claim or by the inventory queue. */
  lemma UsedAtMostOnce(steps: seq<Step>, i: nat, j: nat)
    requires i < j < |Run(EMPTY, steps).uses|
    ensures Run(EMPTY, steps).uses[i] != Run(EMPTY, steps).uses[j]
  {
    EmptyInv();
    RunKeeps(EMPTY, steps);
  }

  /**
   Whatever is executed was consented to: a proposal has started if and only if its confirmation was
   used, and then it has that one confirmation, by its own user, before it expired, for exactly the
   arguments and the business version it was created with.
   */
  lemma ExecutionIsConsented(q: System, before: seq<Step>, after: seq<Step>, id: string)
    requires q == Run(EMPTY, before) && id in q.store.proposals
    ensures var end := Run(q, after); var s := end.store;
      && id in s.proposals && SameContent(q.store.proposals[id], s.proposals[id])
      && (Started(s.proposals[id].status) <==> id in end.uses)
      && (id in end.uses ==>
            && id in s.confirmations && s.confirmations[id].actor == q.store.proposals[id].scope.0
            && s.confirmations[id].hash == Sha256(q.store.proposals[id].arguments)
            && s.confirmations[id].at < q.store.proposals[id].expiresAt
            && id in end.versions && end.versions[id] == q.store.proposals[id].businessVersion)
  {
    EmptyInv();
    RunKeeps(EMPTY, before);
    RunKeeps(q, after);
    assert ProposalOk(Run(q, after).store, id) && VersionOk(Run(q, after), id);
  }

  /** A proposal neither pending nor confirmed is never used again. */
  lemma SettledIsNotUsed(q: System, steps: seq<Step>, id: string)
    requires Inv(q) && id in q.store.proposals && !Open(q.store.proposals[id].status)
    ensures id in Run(q, steps).uses ==> id in q.uses
  {
    RunKeeps(q, steps);
  }

  /** Refused stays refused, and a finished proposal is frozen. */
  lemma ClosedAndFinishedStay(q: System, steps: seq<Step>, id: string)
    requires Inv(q) && id in q.store.proposals
    ensures id in Run(q, steps).store.proposals
    ensures var p, p' := q.store.proposals[id], Run(q, steps).store.proposals[id];
      && (Closed(p.status) ==> Closed(p'.status))
      && (p.status in {Completed, Unknown} ==> p' == p)
  {
    RunKeeps(q, steps);
  }

  /**
   Takeover revokes consent: after a successful take no proposal the session had is open or
   executing, and none of those not already used is ever used, even once it is released.
   */
  lemma TakeRevokesConsent(q: System, scope: Scope, actor: string, expected: nat, steps: seq<Step>, id: string)
    requires Inv(q) && TakeOrReleaseTx(q.store, scope, actor, expected, true).1.Ok?
    requires id in q.store.proposals && q.store.proposals[id].scope == scope
    ensures var q' := Do(q, TakeOrRelease(scope, actor, expected, true));
      && !Open(q'.store.proposals[id].status) && q'.store.proposals[id].status != Executing
      && (id in Run(q', steps).uses ==> id in q.uses)
  {
    var q' := Do(q, TakeOrRelease(scope, actor, expected, true));
    StepKeeps(q, TakeOrRelease(scope, actor, expected, true));
    assert !InFlight(q.store, scope);
    SettledIsNotUsed(q', steps, id);
  }
}
