/**
 When the operations on proposals and on the ownership of a conversation succeed, with which error
 they are refused, and what they write: stated on the stored rows before and after.
 */
module ConsentEffects {
  import opened Wrappers
  import opened Handoffs
  import opened Consent

  /** One proposal gets another status; nothing else changes. */
  predicate Becomes(s: Store, s': Store, id: string, status: ActionStatus)
  {
    id in s.proposals && s' == s.(proposals := s.proposals[id := s.proposals[id].(status := status)])
  }

  predicate Waiting(p: Proposal) { p.status == Pending || p.status == Confirmed }

  predicate Begun(p: Proposal) { p.status == Executing || p.status == Completed || p.status == Unknown }

  // ----- ownership -----

  /** The agent may write exactly where somebody has looked and no human holds the conversation. */
  lemma AgentMayIff(own: Owners, scope: Scope)
    ensures GuardAgent(own, scope).Ok? <==> scope in own && own[scope].state.Agent? && own[scope].version > 0
    ensures GuardAgent(own, scope) == Err(SessionHumanOwned) <==> scope in own && own[scope].state.Human?
    ensures EnsureTx(own, scope) == if scope in own then own else own[scope := Ownership(Agent, "", 1)]
  {}

  /**
   A person takes a conversation from the agent, or gives back one they hold, at the version they saw;
   taking waits for an executing action. Nothing else changes hands.
   */
  lemma TransitionDecides(own: Owners, scope: Scope, actor: string, expected: nat, take: bool, inFlight: bool)
    ensures var (own', r) := TransitionTx(own, scope, actor, expected, take, inFlight);
      var seen := if scope in own then own[scope].version else 0;
      var may := if take then scope !in own || own[scope].state.Agent? else scope in own && own[scope].state.Human? && own[scope].owner == actor;
      && (r == Err(NotAllowed) <==> seen == expected && !may)
      && (r == Err(OwnershipConflict) <==> seen != expected || (may && scope !in own))
      && (r == Err(ActionInFlight) <==> seen == expected && may && scope in own && take && inFlight)
      && (r.Ok? <==> seen == expected && may && scope in own && !(take && inFlight))
      && (r.Err? ==> own' == own)
      && (r.Ok? ==> own' == own[scope := Ownership(if take then Human else Agent, if take then actor else "", expected + 1)])
  {}

  // ----- proposing -----

  /** A fresh proposal is stored unless the caller names no session or an unexpired identical one is offered again. */
  lemma ProposeStoresIff(s: Store, id: string, scope: Scope, tool: string, arguments: Arguments, version: string, now: real, ttl: real, dedup: bool)
    requires id !in s.proposals
    requires forall other :: other in s.proposals ==> s.proposals[other].hash == Sha256(s.proposals[other].arguments)
    ensures var s' := ProposeTx(s, id, scope, tool, arguments, version, now, ttl, dedup);
      var again := exists other :: other in s.proposals && Identical(s.proposals[other], scope, tool, arguments, version) && now < s.proposals[other].expiresAt;
      if |scope.1| > 0 && !(dedup && again)
      then
        && s' == s.(proposals := s.proposals[id := s'.proposals[id]])
        && var p := s'.proposals[id];
        && Identical(p, scope, tool, arguments, version) && p.status == Pending && p.hash == Sha256(arguments)
        && p.createdAt == now && p.expiresAt - now == ttl && p.result == ""
      else s' == s
  {
    if Known(s, scope, tool, arguments, version, now) {
      var other :| other in s.proposals && Repeats(s.proposals[other], scope, tool, arguments, version, now);
      assert Identical(s.proposals[other], scope, tool, arguments, version);
    } else {
      forall other | other in s.proposals && Identical(s.proposals[other], scope, tool, arguments, version)
        ensures s.proposals[other].expiresAt <= now
      {
        assert !Repeats(s.proposals[other], scope, tool, arguments, version, now);
      }
    }
  }

  predicate Identical(p: Proposal, scope: Scope, tool: string, arguments: Arguments, version: string)
  {
    p.scope == scope && p.tool == tool && p.arguments == arguments && p.businessVersion == version
  }

  // ----- validation and confirmation -----

  /**
   Validating the stored row: other arguments are refused as they are, a begun proposal passes, an
   expired or outdated one is refused and, if it was still open, closed for that reason.
   */
  lemma ValidateDecides(s: Store, id: string, hash: Digest, version: string, now: real)
    requires id in s.proposals
    ensures var row := s.proposals[id]; var (s', r) := ValidateTx(s, id, row, hash, version, now);
      var late := now >= row.expiresAt;
      && (r == Err(ArgumentsChanged) <==> row.hash != hash)
      && (r == Err(ActionExpired) <==> row.hash == hash && !Begun(row) && late)
      && (r == Err(Stale) <==> row.hash == hash && !Begun(row) && !late && version != row.businessVersion)
      && (r.Ok? <==> row.hash == hash && (Begun(row) || (!late && version == row.businessVersion)))
      && (if r == Err(ActionExpired) && Waiting(row) then Becomes(s, s', id, Expired)
          else if r == Err(Stale) && Waiting(row) then Becomes(s, s', id, Invalidated)
          else s' == s)
  {}

  /**
   Confirming the stored row: exactly a pending, unexpired proposal with the presented arguments and
   business version becomes confirmed, with one confirmation by its user.
   */
  lemma ConfirmDecides(s: Store, id: string, hash: Digest, version: string, now: real, at: real, channel: string)
    requires id in s.proposals && id !in s.confirmations
    ensures var row := s.proposals[id]; var s' := ConfirmTx(s, id, row, hash, version, now, at, channel);
      var valid := row.hash == hash && version == row.businessVersion && now < row.expiresAt;
      if row.status == Pending && valid && at < row.expiresAt then
        Becomes(s, s'.(confirmations := s.confirmations), id, Confirmed)
        && s'.confirmations == s.confirmations[id := Confirmation(row.scope.0, channel, hash, at)]
      else
        s' == ValidateTx(s, id, row, hash, version, now).0
  {
    var row := s.proposals[id];
    var valid := ValidateTx(s, id, row, hash, version, now);
    if valid.1.Ok? { assert valid.0 == s; }
  }

  /** A row read earlier confirms only what is still pending and unexpired now. */
  lemma OldReadConfirmsPendingOnly(s: Store, id: string, row: Proposal, hash: Digest, version: string, now: real, at: real, channel: string)
    ensures var s' := ConfirmTx(s, id, row, hash, version, now, at, channel);
      s'.confirmations != s.confirmations ==>
        && row.status == Pending && row.hash == hash && row.businessVersion == version && now < row.expiresAt
        && id in s.proposals && s.proposals[id].status == Pending && at < s.proposals[id].expiresAt
        && id in s'.proposals && s'.proposals[id].status == Confirmed
  {}

  // ----- closing -----

  lemma RejectDecides(s: Store, id: string)
    requires id in s.proposals
    ensures var p := s.proposals[id]; var s' := RejectTx(s, id, p);
      if Waiting(p) then Becomes(s, s', id, Rejected) else s' == s
  {}

  /** A row read as open does not undo what has happened to the proposal since. */
  lemma OldReadRejectsOpenOnly(s: Store, id: string, row: Proposal)
    ensures var s' := RejectTx(s, id, row);
      s' != s ==> id in s.proposals && Waiting(s.proposals[id]) && !Begun(row) && Becomes(s, s', id, Rejected)
  {}

  /** Closing a session's proposals: every waiting one of that session, among the ids if given, and no other. */
  lemma RevokeClosesExactly(s: Store, scope: Scope, ids: Option<set<string>>, other: string)
    requires other in s.proposals
    ensures var s' := RevokeScopeTx(s, scope, ids); var p := s.proposals[other];
      && s'.proposals.Keys == s.proposals.Keys && s'.confirmations == s.confirmations && s'.own == s.own
      && s'.proposals[other] ==
           if Waiting(p) && p.scope == scope && (ids.None? || other in ids.value) then p.(status := Rejected) else p
  {}

  // ----- using a confirmation -----

  predicate AgentMay(s: Store, scope: Scope)
  {
    scope in s.own && s.own[scope].state.Agent? && s.own[scope].version > 0
  }

  /** A claim starts exactly a confirmed, unexpired proposal, where the agent may write. */
  lemma ClaimDecides(s: Store, id: string, scope: Scope, guarded: bool, now: real)
    ensures var (s', r) := ClaimTx(s, id, scope, guarded, now); var may := !guarded || AgentMay(s, scope);
      && (r.Err? <==> !may)
      && (r == Ok(true) <==> may && id in s.proposals && s.proposals[id].status == Confirmed && now < s.proposals[id].expiresAt)
      && (if r == Ok(true) then Becomes(s, s', id, Executing) else s' == s)
  {}

  /** A result reaches exactly an executing proposal. */
  lemma FinishDecides(s: Store, id: string, result: string, unknown: bool)
    ensures var s' := FinishTx(s, id, result, unknown);
      if id in s.proposals && s.proposals[id].status == Executing
      then Becomes(s, s'.(proposals := s'.proposals[id := s'.proposals[id].(result := s.proposals[id].result)]), id, if unknown then Unknown else Completed)
           && s'.proposals[id].result == result && s'.proposals == s.proposals[id := s'.proposals[id]]
      else s' == s
  {
    if id in s.proposals && s.proposals[id].status == Executing {
      var s' := FinishTx(s, id, result, unknown);
      assert s'.proposals[id].(result := s.proposals[id].result) == s.proposals[id].(status := if unknown then Unknown else Completed);
    }
  }

  /** The inventory queue takes exactly a confirmed proposal, where the agent may write, and completes it. */
  lemma AcceptDecides(s: Store, id: string, guarded: bool, result: string)
    ensures var (s', r) := AcceptTx(s, id, guarded, result);
      && (r == Err(ActionNotFound) <==> id !in s.proposals)
      && (r == Err(AlreadyStarted) <==> id in s.proposals && (!guarded || AgentMay(s, s.proposals[id].scope)) && s.proposals[id].status != Confirmed)
      && (r.Ok? <==> id in s.proposals && (!guarded || AgentMay(s, s.proposals[id].scope)) && s.proposals[id].status == Confirmed)
      && (r.Err? ==> s' == s)
      && (r.Ok? ==> s' == s.(proposals := s.proposals[id := s.proposals[id].(status := Completed, result := result)]))
  {}

  // ----- people -----

  /** A take closes the session's waiting proposals together with the change of hands; a release closes none. */
  lemma TakeCloses(s: Store, scope: Scope, actor: string, expected: nat, take: bool, other: string)
    requires other in s.proposals
    ensures var (s', r) := TakeOrReleaseTx(s, scope, actor, expected, take); var p := s.proposals[other];
      && s'.confirmations == s.confirmations && s'.proposals.Keys == s.proposals.Keys
      && s'.proposals[other] == (if r.Ok? && take && p.scope == scope && Waiting(p) then p.(status := Invalidated) else p)
      && (r.Ok? && take ==> forall id :: id in s.proposals && s.proposals[id].scope == scope ==> s.proposals[id].status != Executing)
      && (r == Err(ActionInFlight) ==> take && exists id :: id in s.proposals && s.proposals[id].scope == scope && s.proposals[id].status == Executing)
      && (r.Ok? ==> scope in s'.own && s'.own[scope] == Ownership(if take then Human else Agent, if take then actor else "", expected + 1))
      && (r.Err? ==> s'.own == if scope in s.own then s.own else s.own[scope := Ownership(Agent, "", 1)])
  {}

  /** Editing closes the old approval: by the person who holds the conversation, before it has begun, for a supported tool. */
  lemma ReviseDecides(s: Store, id: string, actor: string, supported: bool)
    ensures var (s', r) := ReviseTx(s, id, actor, supported);
      && (r == Err(ActionNotFound) <==> id !in s.proposals)
      && (id in s.proposals ==>
            && var p := s.proposals[id];
            && var holds := p.scope in s.own && s.own[p.scope].state.Human? && s.own[p.scope].owner == actor;
            && (r == Err(Forbidden(NotAllowed)) <==> !holds)
            && (r == Err(AlreadyStarted) <==> holds && Begun(p))
            && (r == Err(RevisionUnsupported) <==> holds && !Begun(p) && !supported)
            && (r.Ok? <==> holds && !Begun(p) && supported)
            && (if r.Ok? then Becomes(s, s', id, Invalidated) else s' == s))
  {}

  /** Changing or withdrawing an intake closes its proposal unless that has begun. */
  lemma IntakeDecides(s: Store, id: string, withdraw: bool)
    ensures var (s', r) := IntakeTx(s, id, withdraw);
      && (r == Err(ActionNotFound) <==> id !in s.proposals)
      && (r == Err(AlreadyStarted) <==> id in s.proposals && Begun(s.proposals[id]))
      && (if r.Ok? then Becomes(s, s', id, if withdraw then Rejected else Invalidated) else s' == s)
  {}
}
