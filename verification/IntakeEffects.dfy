/**
 What each intake command asks for, when its transaction takes effect and what it then writes: stated
 on fields, stages and rows.
 */
module IntakeEffects {
  import opened Wrappers
  import opened Handoffs
  import opened Consent
  import opened Intake
  import C = ConsentTheorems
  import opened IntakeTheorems
  import Chunking

  // ----- fields -----

  lemma {:induction false} LeftTrim(s: string) returns (i: nat)
    ensures i <= |s| && StripLeft(s) == s[i..]
    ensures forall k :: 0 <= k < i ==> Chunking.IsSpace(s[k])
    ensures i < |s| ==> !Chunking.IsSpace(s[i])
  {
    if s != "" && Chunking.IsSpace(s[0]) {
      var rest := LeftTrim(s[1..]);
      i := rest + 1;
      assert forall k :: 1 <= k < i ==> s[k] == s[1..][k - 1];
    } else {
      i := 0;
    }
  }

  lemma {:induction false} RightTrim(s: string) returns (j: nat)
    ensures j <= |s| && StripRight(s) == s[..j]
    ensures forall k :: j <= k < |s| ==> Chunking.IsSpace(s[k])
    ensures j > 0 ==> !Chunking.IsSpace(s[j - 1])
  {
    if s != "" && Chunking.IsSpace(s[|s| - 1]) {
      var front := s[..|s| - 1];
      j := RightTrim(front);
      assert front[..j] == s[..j];
      assert forall k :: j <= k < |front| ==> s[k] == front[k];
    } else {
      j := |s|;
    }
  }

  /** A field loses exactly its leading and trailing white space. */
  lemma StripTrims(s: string) returns (i: nat, j: nat)
    ensures i <= j <= |s| && Strip(s) == s[i..j]
    ensures forall k :: 0 <= k < i || j <= k < |s| ==> Chunking.IsSpace(s[k])
    ensures i < j ==> !Chunking.IsSpace(s[i]) && !Chunking.IsSpace(s[j - 1])
  {
    i := LeftTrim(s);
    var n := RightTrim(s[i..]);
    j := i + n;
    assert forall k :: i <= k < |s| ==> s[k] == s[i..][k - i];
    assert s[i..][..n] == s[i..j];
  }

  /** What is sent replaces what was there; evidence for one order does not carry over to another. */
  lemma MergedIs(f: Fields, p: Patch)
    ensures var g := Merged(f, p);
      && g.orderId == Strip(if p.orderId.Some? then p.orderId.value else f.orderId)
      && g.reason == Strip(if p.reason.Some? then p.reason.value else f.reason)
      && g.caseType == (if p.caseType.Some? then p.caseType.value else f.caseType)
      && (p.evidence.Some? ==> g.evidence == p.evidence.value)
      && (p.evidence.None? && g.orderId == f.orderId ==> g.evidence == f.evidence)
      && (p.evidence.None? && g.orderId != f.orderId ==> g.evidence == [])
  {}

  // ----- commands -----

  /**
   What each command makes of the row it read: nothing once withdrawn; an update only of accepted
   fields; a case only from complete fields and when none is proposed; an execution only when allowed
   and no earlier one is live; a withdrawal always.
   */
  lemma CommandsAsk(row: IntakeRow, command: Command, accepted: bool, priorClosed: bool)
    ensures var r := Prepare(row, command, accepted, priorClosed); var p := row.payload;
      if p.stage.Withdrawn? then r.None?
      else match command
        case Update(patch) =>
          if !accepted then r.None?
          else
            var f := Merged(p.fields, patch);
            r == Some(Prepared(Payload(if |f.orderId| > 0 && |f.reason| > 0 then Ready else Collecting, f, "", p.execution), None))
        case ProposeCase =>
          if |p.fields.orderId| == 0 || |p.fields.reason| == 0 || |p.action| > 0 then r.None?
          else
            && r.Some? && r.value.payload == Payload(AwaitingConfirmation, p.fields, p.action, p.execution) && r.value.propose.Some?
            && r.value.propose.value.0 == "create_after_sale_case"
            && r.value.propose.value.1 == CaseArguments(p.fields.orderId, p.fields.reason, p.fields.caseType, set e | e in p.fields.evidence)
        case ProposeExecution(caseId) =>
          if accepted && (|p.execution| == 0 || priorClosed)
          then r == Some(Prepared(Payload(AwaitingExecution, p.fields, p.action, p.execution), Some(("execute_after_sale_case", ExecutionArguments(caseId)))))
          else r.None?
        case Withdraw => r == Some(Prepared(Payload(Stage.Withdrawn, p.fields, "", p.execution), None))
  {}

  // ----- the transaction -----

  predicate ReplacesProposal(d: Draft)
  {
    |d.row.payload.action| > 0 && (d.request.command.Update? || d.request.command.Withdraw?)
  }

  predicate Begun(p: Proposal) { p.status in {Executing, Completed, Unknown} }

  /** The current proposal, if the command replaces it, can still be closed. */
  predicate MayReplace(s: Store, d: Draft)
  {
    ReplacesProposal(d) ==> d.row.payload.action in s.proposals && !Begun(s.proposals[d.row.payload.action])
  }

  /** A new proposal can be made: the agent answers for the session, and the identifier is new. */
  predicate MayPropose(s: System, d: Draft, action: string, guarded: bool)
  {
    var own := s.consent.store.own;
    && (guarded ==> d.row.scope in own && own[d.row.scope].state.Agent? && own[d.row.scope].version > 0)
    && |action| > 0 && |d.row.scope.1| > 0 && action !in s.consent.store.proposals && action !in s.origin
  }

  /** Nobody has changed the intake since it was read, and the request key is new. */
  predicate InTime(s: System, d: Draft)
  {
    && d.id in s.intakes && s.intakes[d.id].revision == d.request.expected
    && forall e :: e in s.events && e.0 == d.id ==> s.events[e].key != d.key
  }

  /** The intake's current proposal as the command leaves it. */
  function Replaced(s: Store, d: Draft): map<string, Proposal>
    requires MayReplace(s, d)
  {
    if !ReplacesProposal(d) then s.proposals
    else
      var a := d.row.payload.action;
      s.proposals[a := s.proposals[a].(status := if d.request.command.Withdraw? then Rejected else Invalidated)]
  }

  /** The new payload names the proposal that was made. */
  predicate Names(plan: Prepared, command: Command, action: string, payload: Payload)
  {
    && payload.stage == plan.payload.stage && payload.fields == plan.payload.fields
    && payload.action == (if plan.propose.Some? && !command.ProposeExecution? then action else plan.payload.action)
    && payload.execution == (if plan.propose.Some? && command.ProposeExecution? then action else plan.payload.execution)
  }

  predicate Committable(s: System, d: Draft, plan: Prepared, action: string, guarded: bool)
  {
    InTime(s, d) && MayReplace(s.consent.store, d) && (plan.propose.Some? ==> MayPropose(s, d, action, guarded))
  }

  lemma RollsBackIff(s: System, d: Draft, plan: Prepared, action: string, guarded: bool)
    requires Inv(s)
    ensures RollsBack(s, d, plan, action, guarded) <==> !Committable(s, d, plan, action, guarded)
  {
    assert LogOk(s, d.id);
    assert HasKey(s, d.id, d.key) <==> !(forall e :: e in s.events && e.0 == d.id ==> s.events[e].key != d.key);
  }

  /** Row, event and proposals as one command leaves them. */
  predicate Committed(s: System, s': System, d: Draft, plan: Prepared, action: string, version: string, now: real, ttl: real)
    requires d.id in s.intakes && MayReplace(s.consent.store, d)
  {
    var n := d.request.expected + 1; var before, after := s.consent.store, s'.consent.store;
    && d.id in s'.intakes && s'.intakes == s.intakes[d.id := s'.intakes[d.id]]
    && s'.intakes[d.id].revision == n && s'.intakes[d.id].scope == s.intakes[d.id].scope
    && Names(plan, d.request.command, action, s'.intakes[d.id].payload)
    && s'.events == s.events[(d.id, n) := Event(d.key, d.request, s'.intakes[d.id].payload)]
    && after.confirmations == before.confirmations && after.own == before.own && s'.drafts == s.drafts
    && (plan.propose.None? ==> after.proposals == Replaced(before, d) && s'.origin == s.origin)
    && (plan.propose.Some? ==>
          && action in after.proposals && after.proposals == Replaced(before, d)[action := after.proposals[action]]
          && s'.origin == s.origin[action := Origin(d.id, n)]
          && var p := after.proposals[action];
          && p.scope == d.row.scope && p.tool == plan.propose.value.0 && p.arguments == plan.propose.value.1
          && p.businessVersion == version && p.status == Pending && p.createdAt == now && p.expiresAt - now == ttl)
  }

  /**
   A prepared command takes effect exactly when the intake and the request key are still as it assumed,
   the proposal it replaces has not begun and the one it makes may be made. Then row, event and proposals
   change together; otherwise nothing does.
   */
  lemma CommitDecides(s: System, t: nat, action: string, version: string, guarded: bool, now: real, ttl: real)
    requires Inv(s) && t in s.drafts
    ensures var d := s.drafts[t]; var s' := CommitStep(s, t, action, version, guarded, now, ttl);
      match Prepare(d.row, d.request.command, d.accepted, d.priorClosed)
      case None => s' == s
      case Some(plan) =>
        if Committable(s, d, plan, action, guarded) then Committed(s, s', d, plan, action, version, now, ttl) else s' == s
  {
    var d := s.drafts[t];
    match Prepare(d.row, d.request.command, d.accepted, d.priorClosed)
    case None =>
    case Some(plan) =>
      RollsBackIff(s, d, plan, action, guarded);
      if Committable(s, d, plan, action, guarded) { StoreAfter(s, d, plan, action, version, now, ttl); }
  }

  lemma StoreAfter(s: System, d: Draft, plan: Prepared, action: string, version: string, now: real, ttl: real)
    requires MayReplace(s.consent.store, d)
    requires plan.propose.Some? ==> |d.row.scope.1| > 0 && action !in s.consent.store.proposals
    ensures var c := Proposed(s.consent, d, plan, action, version, now, ttl); var rows := Replaced(s.consent.store, d);
      && c.store.confirmations == s.consent.store.confirmations && c.store.own == s.consent.store.own
      && c.store.proposals ==
           if plan.propose.None? then rows
           else rows[action := NewProposal(d.row.scope, plan.propose.value.0, plan.propose.value.1, version, now, ttl)]
  {}

  /** A command starts from the stored row at the revision its caller saw, under a key not answered before. */
  lemma BeginReads(s: System, t: nat, id: string, key: string, request: Request, accepted: bool)
    ensures var s' := BeginStep(s, t, id, key, request, accepted);
      var may := id in s.intakes && s.intakes[id].revision == request.expected && forall e :: e in s.events && e.0 == id ==> s.events[e].key != key;
      && (!may ==> s' == s)
      && (may ==>
            && s' == s.(drafts := s.drafts[t := s'.drafts[t]])
            && var d := s'.drafts[t]; var a := s.intakes[id].payload.execution; var rows := s.consent.store.proposals;
            && (d.id, d.row, d.key, d.request, d.accepted) == (id, s.intakes[id], key, request, accepted)
            && (d.priorClosed <==> a !in rows || rows[a].status in {Rejected, Expired, Invalidated}))
  {
    assert HasKey(s, id, key) <==> !(forall e :: e in s.events && e.0 == id ==> s.events[e].key != key);
  }
}
