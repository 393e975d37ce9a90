/**
 Action proposals and their single-use confirmation, app/services/actions.py, together with the
 other writers of a proposal's status: takeover and revision (conversation_handoff.py), intake
 updates (after_sale_intake.py) and the hand-over to the inventory queue (connector_delivery.py).
 */
module Consent {
  import opened Wrappers
  import opened Handoffs

  datatype ActionStatus = Pending | Confirmed | Executing | Completed | Unknown | Rejected | Expired | Invalidated

  /**
   The arguments of a write tool after validation. A case's evidence ids are sorted and made unique
   there, so they are a set; the two legacy flags are always cleared and therefore left out.
   */
  datatype Arguments =
    | CaseArguments(orderId: string, reason: string, caseType: string, evidence: set<string>)
    | ExecutionArguments(caseId: string)
    | OtherArguments(json: string)

  /** Hashes are collision free: a digest stands for the arguments it was taken of. */
  datatype Digest = Sha256(of: Arguments)

  datatype Proposal = Proposal(
    scope: Scope,
    tool: string,
    arguments: Arguments,
    hash: Digest,
    businessVersion: string,
    status: ActionStatus,
    createdAt: real,
    expiresAt: real,
    result: string)

  datatype Confirmation = Confirmation(actor: string, channel: string, hash: Digest, at: real)

  datatype Store = Store(proposals: map<string, Proposal>, confirmations: map<string, Confirmation>, own: Owners)

  datatype ActionError =
    | ScopeRequired | ActionNotFound | ArgumentsChanged | ActionExpired | Stale | NotPending | AlreadyStarted
    | RevisionUnsupported | Forbidden(reason: HandoffError) | Integrity

  predicate Open(s: ActionStatus) { s in {Pending, Confirmed} }

  predicate Started(s: ActionStatus) { s in {Executing, Completed, Unknown} }

  predicate Closed(s: ActionStatus) { s in {Rejected, Expired, Invalidated} }

  function WithStatus(s: Store, id: string, status: ActionStatus): Store
    requires id in s.proposals
  {
    s.(proposals := s.proposals[id := s.proposals[id].(status := status)])
  }

  /** An unexpired proposal for the same thing, whatever its status, is offered again. */
  predicate Repeats(p: Proposal, scope: Scope, tool: string, arguments: Arguments, version: string, now: real)
  {
    p.scope == scope && p.tool == tool && p.hash == Sha256(arguments) && p.businessVersion == version && p.expiresAt > now
  }

  predicate Known(s: Store, scope: Scope, tool: string, arguments: Arguments, version: string, now: real)
  {
    exists id :: id in s.proposals && Repeats(s.proposals[id], scope, tool, arguments, version, now)
  }

  function NewProposal(scope: Scope, tool: string, arguments: Arguments, version: string, now: real, ttl: real): Proposal
  {
    Proposal(scope, tool, arguments, Sha256(arguments), version, Pending, now, now + ttl, "")
  }

  /** `id` is the fresh identifier drawn for a new proposal. */
  function ProposeTx(s: Store, id: string, scope: Scope, tool: string, arguments: Arguments, version: string, now: real, ttl: real,
      deduplicate: bool): Store
  {
    if scope.1 == "" || id in s.proposals || (deduplicate && Known(s, scope, tool, arguments, version, now)) then s
    else s.(proposals := s.proposals[id := NewProposal(scope, tool, arguments, version, now, ttl)])
  }

  function InvalidateTx(s: Store, id: string, status: ActionStatus): Store
  {
    if id in s.proposals && Open(s.proposals[id].status) then WithStatus(s, id, status) else s
  }

  /** The checks on a row read earlier: what is wrong with it, and the status that is then written. */
  function Verdict(row: Proposal, hash: Digest, version: string, now: real): Option<(ActionError, Option<ActionStatus>)>
  {
    if row.hash != hash then Some((ArgumentsChanged, None))
    else if Started(row.status) then None
    else if row.expiresAt <= now then Some((ActionExpired, Some(Expired)))
    else if row.businessVersion != version then Some((Stale, Some(Invalidated)))
    else None
  }

  function ValidateTx(s: Store, id: string, row: Proposal, hash: Digest, version: string, now: real)
    : (Store, Result<(), ActionError>)
  {
    match Verdict(row, hash, version, now)
    case None => (s, Ok(()))
    case Some((e, status)) => (if status.Some? then InvalidateTx(s, id, status.value) else s, Err(e))
  }

  /** The conditional update and the confirmation row, one transaction. */
  function ConfirmUpdate(s: Store, id: string, actor: string, channel: string, hash: Digest, now: real): Store
  {
    if id !in s.proposals || s.proposals[id].status != Pending || s.proposals[id].expiresAt <= now then s
    else if id in s.confirmations then s
    else WithStatus(s, id, Confirmed).(confirmations := s.confirmations[id := Confirmation(actor, channel, hash, now)])
  }

  /** Confirming from a row read earlier; `now` and `at` are two clock readings. */
  function ConfirmTx(s: Store, id: string, row: Proposal, hash: Digest, version: string, now: real, at: real, channel: string): Store
  {
    var (s', r) := ValidateTx(s, id, row, hash, version, now);
    if r.Err? || row.status != Pending then s' else ConfirmUpdate(s', id, row.scope.0, channel, hash, at)
  }

  function RejectTx(s: Store, id: string, row: Proposal): Store
  {
    if row.status !in {Pending, Confirmed, Rejected} then s else InvalidateTx(s, id, Rejected)
  }

  /** The effect on one row of closing a session's open proposals. */
  function CloseRow(id: string, p: Proposal, scope: Scope, ids: Option<set<string>>, status: ActionStatus): Proposal
  {
    if p.scope == scope && Open(p.status) && (ids.None? || id in ids.value) then p.(status := status) else p
  }

  /** The one statement that rewrites every matching row. */
  function Closing(proposals: map<string, Proposal>, scope: Scope, ids: Option<set<string>>, status: ActionStatus): map<string, Proposal>
  {
    map id | id in proposals :: CloseRow(id, proposals[id], scope, ids, status)
  }

  function CloseOpenTx(s: Store, scope: Scope, ids: Option<set<string>>, status: ActionStatus): Store
  {
    s.(proposals := Closing(s.proposals, scope, ids, status))
  }

  function RevokeScopeTx(s: Store, scope: Scope, ids: Option<set<string>>): Store
  {
    CloseOpenTx(s, scope, ids, Rejected)
  }

  /** Taking an action for execution; the ownership guard is installed in collaborative deployments. */
  function ClaimTx(s: Store, id: string, scope: Scope, guarded: bool, now: real): (Store, Result<bool, ActionError>)
  {
    if guarded && GuardAgent(s.own, scope).Err? then (s, Err(Forbidden(GuardAgent(s.own, scope).error)))
    else if id in s.proposals && s.proposals[id].status == Confirmed && s.proposals[id].expiresAt > now
      then (WithStatus(s, id, Executing), Ok(true))
      else (s, Ok(false))
  }

  function FinishTx(s: Store, id: string, result: string, unknown: bool): Store
  {
    if id in s.proposals && s.proposals[id].status == Executing then
      s.(proposals := s.proposals[id := s.proposals[id].(status := if unknown then Unknown else Completed, result := result)])
    else s
  }

  /** An accepted inventory command leaves the proposal for the durable queue. */
  function AcceptTx(s: Store, id: string, guarded: bool, result: string): (Store, Result<(), ActionError>)
  {
    if id !in s.proposals then (s, Err(ActionNotFound))
    else if guarded && GuardAgent(s.own, s.proposals[id].scope).Err?
      then (s, Err(Forbidden(GuardAgent(s.own, s.proposals[id].scope).error)))
    else if s.proposals[id].status != Confirmed then (s, Err(AlreadyStarted))
    else (s.(proposals := s.proposals[id := s.proposals[id].(status := Completed, result := result)]), Ok(()))
  }

  predicate InFlight(s: Store, scope: Scope)
  {
    exists id :: id in s.proposals && s.proposals[id].scope == scope && s.proposals[id].status == Executing
  }

  /** Taking a conversation over revokes its open proposals and is refused while one executes. */
  function TakeOrReleaseTx(s: Store, scope: Scope, actor: string, expected: nat, take: bool): (Store, Result<(), HandoffError>)
  {
    var own := EnsureTx(s.own, scope);
    match TransitionTx(own, scope, actor, expected, take, InFlight(s, scope))
    case (_, Err(e)) => (s.(own := own), Err(e))
    case (own', Ok(())) =>
      ((if take then CloseOpenTx(s, scope, None, Invalidated) else s).(own := own'), Ok(()))
  }

  /** An operator's edit closes the old approval; `supported`: the tool and arguments validate. */
  function ReviseTx(s: Store, id: string, actor: string, supported: bool): (Store, Result<(), ActionError>)
  {
    if id !in s.proposals then (s, Err(ActionNotFound))
    else
      var row := s.proposals[id];
      var own := Holding(s.own, row.scope);
      if own.state != Human || own.owner != actor then (s, Err(Forbidden(NotAllowed)))
      else if Started(row.status) then (s, Err(AlreadyStarted))
      else if !supported then (s, Err(RevisionUnsupported))
      else (WithStatus(s, id, Invalidated), Ok(()))
  }

  /** What updating (or withdrawing) an intake does to its current proposal. */
  function IntakeTx(s: Store, id: string, withdraw: bool): (Store, Result<(), ActionError>)
  {
    if id !in s.proposals then (s, Err(ActionNotFound))
    else if Started(s.proposals[id].status) then (s, Err(AlreadyStarted))
    else (WithStatus(s, id, if withdraw then Rejected else Invalidated), Ok(()))
  }

  // ----- the object -----

  class ActionService {
    var proposals: map<string, Proposal>
    var confirmations: map<string, Confirmation>
    var own: Owners
    const guarded: bool
    const ttl: real

    function Contents(): Store
      reads this
    {
      Store(proposals, confirmations, own)
    }

    constructor (guarded: bool, ttl: real)
      ensures Contents() == Store(map[], map[], map[]) && this.guarded == guarded && this.ttl == ttl
    {
      proposals, confirmations, own := map[], map[], map[];
      this.guarded, this.ttl := guarded, ttl;
    }

    method Propose(id: string, scope: Scope, tool: string, arguments: Arguments, version: string, now: real, deduplicate: bool)
      returns (r: Result<string, ActionError>)
      requires id !in proposals
      modifies this
      ensures Contents() == ProposeTx(old(Contents()), id, scope, tool, arguments, version, now, ttl, deduplicate)
      ensures r == Err(ScopeRequired) <==> scope.1 == ""
      ensures r.Err? ==> scope.1 == ""
      ensures r.Ok? && r.value == id ==> proposals == old(proposals)[id := NewProposal(scope, tool, arguments, version, now, ttl)]
      ensures r.Ok? && r.value != id ==>
        proposals == old(proposals) && r.value in proposals && Repeats(proposals[r.value], scope, tool, arguments, version, now)
    {
      if scope.1 == "" {
        return Err(ScopeRequired);
      }
      if deduplicate && exists other :: other in proposals && Repeats(proposals[other], scope, tool, arguments, version, now) {
        var other :| other in proposals && Repeats(proposals[other], scope, tool, arguments, version, now);
        return Ok(other);
      }
      proposals := proposals[id := NewProposal(scope, tool, arguments, version, now, ttl)];
      return Ok(id);
    }

    method Invalidate(id: string, status: ActionStatus)
      modifies this
      ensures Contents() == InvalidateTx(old(Contents()), id, status)
    {
      if id in proposals && proposals[id].status in {Pending, Confirmed} {
        proposals := proposals[id := proposals[id].(status := status)];
      }
    }

    method Validate(id: string, row: Proposal, hash: Digest, version: string, now: real) returns (r: Result<(), ActionError>)
      modifies this
      ensures (Contents(), r) == ValidateTx(old(Contents()), id, row, hash, version, now)
    {
      if row.hash != hash {
        return Err(ArgumentsChanged);
      }
      if row.status in {Completed, Executing, Unknown} {
        return Ok(());
      }
      if row.expiresAt <= now {
        Invalidate(id, Expired);
        return Err(ActionExpired);
      }
      if row.businessVersion != version {
        Invalidate(id, Invalidated);
        return Err(Stale);
      }
      return Ok(());
    }

    /** `row` was read by the caller's scope; the row may have changed since. */
    method Confirm(id: string, row: Proposal, hash: Digest, version: string, now: real, at: real, channel: string)
      returns (r: Result<Proposal, ActionError>)
      modifies this
      ensures Contents() == ConfirmTx(old(Contents()), id, row, hash, version, now, at, channel)
      ensures r.Ok? ==> r.value == row || (id in proposals && r.value == proposals[id] && row.status == Pending)
      ensures r.Ok? ==> r.value.status == Confirmed || Started(r.value.status)
      ensures r.Ok? ==> row.hash == hash
      ensures var v := ValidateTx(old(Contents()), id, row, hash, version, now).1;
        (v.Err? ==> r == Err(v.error)) && (v.Ok? && Closed(row.status) ==> r == Err(NotPending))
    {
      var valid := Validate(id, row, hash, version, now);
      if valid.Err? {
        return Err(valid.error);
      }
      if row.status in {Confirmed, Executing, Completed, Unknown} {
        return Ok(row);
      }
      if row.status != Pending {
        return Err(NotPending);
      }
      if id in proposals && proposals[id].status == Pending && proposals[id].expiresAt > at {
        if id in confirmations {
          return Err(Integrity);
        }
        proposals := proposals[id := proposals[id].(status := Confirmed)];
        confirmations := confirmations[id := Confirmation(row.scope.0, channel, hash, at)];
      }
      if id !in proposals {
        return Err(ActionNotFound);
      }
      if proposals[id].status !in {Confirmed, Executing, Completed, Unknown} {
        return Err(NotPending);
      }
      return Ok(proposals[id]);
    }

    method Reject(id: string, row: Proposal) returns (r: Result<Proposal, ActionError>)
      modifies this
      ensures Contents() == RejectTx(old(Contents()), id, row)
      ensures r.Ok? ==> id in proposals && r.value == proposals[id] && r.value.status == Rejected
    {
      if row.status !in {Pending, Confirmed, Rejected} {
        return Err(AlreadyStarted);
      }
      Invalidate(id, Rejected);
      if id !in proposals {
        return Err(ActionNotFound);
      }
      if proposals[id].status != Rejected {
        return Err(AlreadyStarted);
      }
      return Ok(proposals[id]);
    }

    method Claim(id: string, scope: Scope, now: real) returns (r: Result<bool, ActionError>)
      modifies this
      ensures (Contents(), r) == ClaimTx(old(Contents()), id, scope, guarded, now)
    {
      if guarded {
        var allowed := GuardAgent(own, scope);
        if allowed.Err? {
          return Err(Forbidden(allowed.error));
        }
      }
      if id in proposals && proposals[id].status == Confirmed && proposals[id].expiresAt > now {
        proposals := proposals[id := proposals[id].(status := Executing)];
        return Ok(true);
      }
      return Ok(false);
    }

    method Finish(id: string, result: string, unknown: bool)
      modifies this
      ensures Contents() == FinishTx(old(Contents()), id, result, unknown)
    {
      if id in proposals && proposals[id].status == Executing {
        proposals := proposals[id := proposals[id].(status := if unknown then Unknown else Completed, result := result)];
      }
    }

    method Accept(id: string, result: string) returns (r: Result<(), ActionError>)
      modifies this
      ensures (Contents(), r) == AcceptTx(old(Contents()), id, guarded, result)
    {
      if id !in proposals {
        return Err(ActionNotFound);
      }
      if guarded {
        var allowed := GuardAgent(own, proposals[id].scope);
        if allowed.Err? {
          return Err(Forbidden(allowed.error));
        }
      }
      if proposals[id].status != Confirmed {
        return Err(AlreadyStarted);
      }
      proposals := proposals[id := proposals[id].(status := Completed, result := result)];
      return Ok(());
    }

    method RevokeScope(scope: Scope, ids: Option<set<string>>)
      modifies this
      ensures Contents() == RevokeScopeTx(old(Contents()), scope, ids)
    {
      proposals := Closing(proposals, scope, ids, Rejected);
    }

    method TakeOrRelease(scope: Scope, actor: string, expected: nat, take: bool) returns (r: Result<(), HandoffError>)
      modifies this
      ensures (Contents(), r) == TakeOrReleaseTx(old(Contents()), scope, actor, expected, take)
    {
      own := EnsureTx(own, scope);
      var row := own[scope];
      if row.version != expected {
        return Err(OwnershipConflict);
      }
      if (take && row.state != Agent) || (!take && (row.state != Human || row.owner != actor)) {
        return Err(NotAllowed);
      }
      if take {
        if exists id :: id in proposals && proposals[id].scope == scope && proposals[id].status == Executing {
          assert InFlight(old(Contents()), scope);
          return Err(ActionInFlight);
        }
        proposals := Closing(proposals, scope, None, Invalidated);
      }
      own := own[scope := Ownership(if take then Human else Agent, if take then actor else "", expected + 1)];
      return Ok(());
    }
  }
}
