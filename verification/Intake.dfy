/**
 Multi-turn after-sale intakes, app/platform/after_sale_intake.py: every command reads the intake
 outside a transaction, computes the new payload, and commits it with a revision check, the change
 of the current proposal and one event, or not at all. Proposals live in the consent store, where
 confirmations, claims, takeovers and the rest go on at the same time.
 */
module Intake {
  import opened Wrappers
  import opened Handoffs
  import opened Consent
  import C = ConsentTheorems
  import Chunking

  datatype Fields = Fields(orderId: string, reason: string, caseType: string, evidence: seq<string>)

  /** The fields a caller sends; the others keep their value. */
  datatype Patch = Patch(orderId: Option<string>, reason: Option<string>, caseType: Option<string>, evidence: Option<seq<string>>)

  datatype Stage = Collecting | Ready | AwaitingConfirmation | AwaitingExecution | Withdrawn

  datatype Payload = Payload(stage: Stage, fields: Fields, action: string, execution: string)

  datatype IntakeRow = IntakeRow(scope: Scope, revision: nat, payload: Payload)

  datatype Command = Update(patch: Patch) | ProposeCase | ProposeExecution(caseId: string) | Withdraw

  datatype Request = Request(command: Command, expected: nat)

  datatype Event = Event(key: string, request: Request, response: Payload)

  datatype IntakeError = IdempotencyConflict | VersionConflict | Refused

  // ----- computing the new payload from the row read -----

  function StripLeft(s: string): string
  {
    if s != "" && Chunking.IsSpace(s[0]) then StripLeft(s[1..]) else s
  }

  function StripRight(s: string): string
  {
    if s != "" && Chunking.IsSpace(s[|s| - 1]) then StripRight(s[..|s| - 1]) else s
  }

  function Strip(s: string): string { StripRight(StripLeft(s)) }

  function Or<T>(o: Option<T>, default: T): T
  {
    match o
    case Some(v) => v
    case None => default
  }

  /** Evidence given for one order does not carry over to another. */
  function Merged(f: Fields, p: Patch): Fields
  {
    var order := Strip(Or(p.orderId, f.orderId));
    Fields(order, Strip(Or(p.reason, f.reason)), Or(p.caseType, f.caseType),
           if order != f.orderId && p.evidence.None? then [] else Or(p.evidence, f.evidence))
  }

  predicate Complete(f: Fields) { f.orderId != "" && f.reason != "" }

  /** The arguments under which an intake's fields are proposed. */
  function CaseFor(f: Fields): Arguments
  {
    CaseArguments(f.orderId, f.reason, f.caseType, set e | e in f.evidence)
  }

  const CREATE := "create_after_sale_case"
  const EXECUTE := "execute_after_sale_case"

  datatype Prepared = Prepared(payload: Payload, propose: Option<(string, Arguments)>)

  /**
   `accepted` stands for the checks against other services: field validation and the order for an
   update, the approved case for an execution. `priorClosed`: the earlier execution proposal, if
   any, was read as refused or lapsed.
   */
  function Prepare(old_: IntakeRow, command: Command, accepted: bool, priorClosed: bool): Option<Prepared>
  {
    var p := old_.payload;
    if p.stage == Withdrawn then None
    else
      match command
      case Update(patch) =>
        if !accepted then None
        else
          var f := Merged(p.fields, patch);
          Some(Prepared(p.(fields := f, action := "", stage := if Complete(f) then Ready else Collecting), None))
      case ProposeCase =>
        if !Complete(p.fields) || p.action != "" then None
        else Some(Prepared(p.(stage := AwaitingConfirmation), Some((CREATE, CaseFor(p.fields)))))
      case ProposeExecution(caseId) =>
        if !accepted || (p.execution != "" && !priorClosed) then None
        else Some(Prepared(p.(stage := AwaitingExecution), Some((EXECUTE, ExecutionArguments(caseId)))))
      case Withdraw => Some(Prepared(p.(stage := Withdrawn, action := ""), None))
  }

  // ----- the system -----

  /** A command between its reads and its transaction. */
  datatype Draft = Draft(id: string, row: IntakeRow, key: string, request: Request, accepted: bool, priorClosed: bool)

  /** The intake for which a proposal was made, and the revision at which it was. */
  datatype Origin = Origin(intake: string, revision: nat)

  /** `origin` records where the proposals of intakes come from. */
  datatype System = System(
    intakes: map<string, IntakeRow>,
    events: map<(string, nat), Event>,
    consent: C.System,
    drafts: map<nat, Draft>,
    origin: map<string, Origin>)

  datatype Step =
    | Create(id: string, scope: Scope)
    | Begin(thread: nat, id: string, key: string, request: Request, accepted: bool)
    | Commit(thread: nat, action: string, version: string, guarded: bool, now: real, ttl: real)
    | Elsewhere(step: C.Step)

  predicate HasKey(s: System, id: string, key: string)
  {
    exists e :: e in s.events && e.0 == id && s.events[e].key == key
  }

  function StatusOf(s: System, action: string): ActionStatus
  {
    if action in s.consent.store.proposals then s.consent.store.proposals[action].status else Rejected
  }

  function BeginStep(s: System, t: nat, id: string, key: string, request: Request, accepted: bool): System
  {
    if id !in s.intakes || HasKey(s, id, key) || s.intakes[id].revision != request.expected then s
    else
      var row := s.intakes[id];
      s.(drafts := s.drafts[t := Draft(id, row, key, request, accepted, Closed(StatusOf(s, row.payload.execution)))])
  }

  /** Closing the current proposal is part of an update or withdrawal. */
  function Revoked(c: C.System, old_: IntakeRow, command: Command): C.System
  {
    if old_.payload.action != "" && (command.Update? || command.Withdraw?)
    then C.Do(c, C.IntakeChange(old_.payload.action, command.Withdraw?)) else c
  }

  function WithAction(p: Payload, command: Command, action: string): Payload
  {
    if command.ProposeExecution? then p.(execution := action) else p.(action := action)
  }

  /** The current proposal cannot be closed, the agent may not propose, or no new proposal can be made. */
  predicate Blocked(store: Store, origin: map<string, Origin>, d: Draft, plan: Prepared, action: string, guarded: bool)
  {
    || (d.row.payload.action != "" && (d.request.command.Update? || d.request.command.Withdraw?)
        && IntakeTx(store, d.row.payload.action, d.request.command.Withdraw?).1.Err?)
    || (plan.propose.Some? && guarded && GuardAgent(store.own, d.row.scope).Err?)
    || (plan.propose.Some? && (action == "" || action in store.proposals || action in origin || d.row.scope.1 == ""))
  }

  /** The reasons for which the transaction is rolled back as a whole. */
  predicate RollsBack(s: System, d: Draft, plan: Prepared, action: string, guarded: bool)
  {
    || d.id !in s.intakes || s.intakes[d.id].revision != d.request.expected
    || Blocked(s.consent.store, s.origin, d, plan, action, guarded)
    || HasKey(s, d.id, d.key) || (d.id, d.request.expected + 1) in s.events
  }

  function Proposed(c: C.System, d: Draft, plan: Prepared, action: string, version: string, now: real, ttl: real): C.System
  {
    var consent := Revoked(c, d.row, d.request.command);
    if plan.propose.None? then consent
    else C.Do(consent, C.Propose(action, d.row.scope, plan.propose.value.0, plan.propose.value.1, version, now, ttl, false))
  }

  function Committing(d: Draft, plan: Prepared, action: string): Payload
  {
    if plan.propose.Some? then WithAction(plan.payload, d.request.command, action) else plan.payload
  }

  function CommitStep(s: System, t: nat, action: string, version: string, guarded: bool, now: real, ttl: real): System
  {
    if t !in s.drafts then s
    else
      var d := s.drafts[t];
      match Prepare(d.row, d.request.command, d.accepted, d.priorClosed)
      case None => s
      case Some(plan) =>
        if RollsBack(s, d, plan, action, guarded) then s
        else
          s.(intakes := s.intakes[d.id := s.intakes[d.id].(revision := d.request.expected + 1, payload := Committing(d, plan, action))],
             events := s.events[(d.id, d.request.expected + 1) := Event(d.key, d.request, Committing(d, plan, action))],
             consent := Proposed(s.consent, d, plan, action, version, now, ttl),
             origin := if plan.propose.Some? then s.origin[action := Origin(d.id, d.request.expected + 1)] else s.origin)
  }

  function Do(s: System, step: Step): System
  {
    match step
    case Create(id, scope) =>
      if id in s.intakes then s
      else s.(intakes := s.intakes[id := IntakeRow(scope, 0, Payload(Collecting, Fields("", "", "return_refund", []), "", ""))])
    case Begin(t, id, key, request, accepted) => BeginStep(s, t, id, key, request, accepted)
    case Commit(t, action, version, guarded, now, ttl) => CommitStep(s, t, action, version, guarded, now, ttl)
    case Elsewhere(step') => s.(consent := C.Do(s.consent, step'))
  }

  function Run(s: System, steps: seq<Step>): System
    decreases |steps|
  {
    if steps == [] then s else Run(Do(s, steps[0]), steps[1..])
  }

  const EMPTY := System(map[], map[], C.EMPTY, map[], map[])

  // ----- the object -----

  class AfterSaleIntake {
    var intakes: map<string, IntakeRow>
    var events: map<(string, nat), Event>
    var proposals: map<string, Proposal>
    var confirmations: map<string, Confirmation>
    var own: Owners
    var origin: map<string, Origin>

    /** The system with this object's tables. */
    ghost function In(s: System): System
      reads this
    {
      s.(intakes := intakes, events := events, origin := origin,
         consent := s.consent.(store := Consent.Store(proposals, confirmations, own)))
    }

    constructor ()
      ensures In(EMPTY) == EMPTY
    {
      intakes, events, origin := map[], map[], map[];
      proposals, confirmations, own := map[], map[], map[];
    }

    predicate Answered(id: string, key: string, request: Request, response: Payload)
      reads this
    {
      exists e :: e in events && e.0 == id && events[e] == Event(key, request, response)
    }

    /** The recorded answer to a request key, when it was given to the same request. */
    method Receipt(id: string, key: string, request: Request) returns (r: Result<Payload, IntakeError>)
      ensures r.Ok? ==> Answered(id, key, request, r.value)
      ensures r == Err(VersionConflict) ==> forall e :: e in events && e.0 == id ==> events[e].key != key
    {
      if e :| e in events && e.0 == id && events[e].key == key {
        if events[e].request != request {
          return Err(IdempotencyConflict);
        }
        return Ok(events[e].response);
      }
      return Err(VersionConflict);
    }

    /** Closes the current proposal for an update or a withdrawal, unless it has started. */
    method Replace(d: Draft, ghost c: C.System) returns (r: Option<map<string, Proposal>>)
      requires c.store == Consent.Store(proposals, confirmations, own)
      ensures r.None? <==>
        && d.row.payload.action != "" && (d.request.command.Update? || d.request.command.Withdraw?)
        && IntakeTx(c.store, d.row.payload.action, d.request.command.Withdraw?).1.Err?
      ensures r.Some? ==> Revoked(c, d.row, d.request.command) == c.(store := c.store.(proposals := r.value))
      ensures r.Some? ==> r.value.Keys == proposals.Keys
    {
      var previous := d.row.payload.action;
      if previous == "" || (!d.request.command.Update? && !d.request.command.Withdraw?) {
        return Some(proposals);
      }
      if previous !in proposals || Started(proposals[previous].status) {
        return None;
      }
      return Some(proposals[previous := proposals[previous].(status := if d.request.command.Withdraw? then Rejected else Invalidated)]);
    }

    /** The proposals as the transaction leaves them, or the reason to roll back. */
    method Stage(d: Draft, plan: Prepared, action: string, version: string, guarded: bool, now: real, ttl: real, ghost c: C.System)
      returns (r: Option<map<string, Proposal>>)
      requires c.store == Consent.Store(proposals, confirmations, own)
      ensures r.None? <==> Blocked(c.store, origin, d, plan, action, guarded)
      ensures r.Some? ==>
        Proposed(c, d, plan, action, version, now, ttl) == c.(store := c.store.(proposals := r.value))
    {
      var replaced := Replace(d, c);
      if replaced.None? {
        return None;
      }
      var rows := replaced.value;
      if plan.propose.Some? {
        if (guarded && GuardAgent(own, d.row.scope).Err?) || action == "" || action in proposals || action in origin || d.row.scope.1 == "" {
          return None;
        }
        rows := rows[action := NewProposal(d.row.scope, plan.propose.value.0, plan.propose.value.1, version, now, ttl)];
      }
      return Some(rows);
    }

    /** Row, event and proposals are written together. */
    method Record(d: Draft, payload: Payload, rows: map<string, Proposal>, proposed: bool, action: string)
      requires d.id in intakes
      modifies this
      ensures intakes == old(intakes)[d.id := old(intakes)[d.id].(revision := d.request.expected + 1, payload := payload)]
      ensures events == old(events)[(d.id, d.request.expected + 1) := Event(d.key, d.request, payload)]
      ensures proposals == rows && origin == if proposed then old(origin)[action := Origin(d.id, d.request.expected + 1)] else old(origin)
      ensures confirmations == old(confirmations) && own == old(own)
      ensures Answered(d.id, d.key, d.request, payload)
    {
      intakes := intakes[d.id := intakes[d.id].(revision := d.request.expected + 1, payload := payload)];
      events := events[(d.id, d.request.expected + 1) := Event(d.key, d.request, payload)];
      proposals := rows;
      if proposed {
        origin := origin[action := Origin(d.id, d.request.expected + 1)];
      }
      assert events[(d.id, d.request.expected + 1)] == Event(d.key, d.request, payload);
    }

    /** The transaction of a command prepared from `d`; `s` is any system around these tables. */
    method Commit(d: Draft, action: string, version: string, guarded: bool, now: real, ttl: real, ghost s: System, ghost t: nat)
      returns (r: Result<Payload, IntakeError>)
      requires In(s) == s && t in s.drafts && s.drafts[t] == d
      modifies this
      ensures In(s) == CommitStep(s, t, action, version, guarded, now, ttl)
      ensures r.Ok? ==> Answered(d.id, d.key, d.request, r.value)
    {
      var plan := Prepare(d.row, d.request.command, d.accepted, d.priorClosed);
      if plan.None? {
        return Err(Refused);
      }
      if d.id !in intakes || intakes[d.id].revision != d.request.expected {
        r := Receipt(d.id, d.key, d.request);
        return;
      }
      assert RollsBack(s, d, plan.value, action, guarded) <==>
        (Blocked(s.consent.store, origin, d, plan.value, action, guarded) || HasKey(s, d.id, d.key)
         || (d.id, d.request.expected + 1) in events);
      var rows := Stage(d, plan.value, action, version, guarded, now, ttl, s.consent);
      if rows.None? {
        return Err(Refused);
      }
      if (exists e :: e in events && e.0 == d.id && events[e].key == d.key) || (d.id, d.request.expected + 1) in events {
        r := Receipt(d.id, d.key, d.request);
        return;
      }
      var payload := Committing(d, plan.value, action);
      Record(d, payload, rows.value, plan.value.propose.Some?, action);
      return Ok(payload);
    }
  }

  // ----- the invariant -----

  /** Revisions of the log are exactly 1..revision, and the last response is the stored payload. */
  ghost predicate LogOk(s: System, id: string)
  {
    && (forall n: nat {:trigger (id, n) in s.events} :: (id, n) in s.events <==> id in s.intakes && 1 <= n <= s.intakes[id].revision)
    && (id in s.intakes && s.intakes[id].revision > 0 ==> s.events[(id, s.intakes[id].revision)].response == s.intakes[id].payload)
  }

  predicate KeyOk(s: System, id: string, n: nat, m: nat)
  {
    (id, n) in s.events && (id, m) in s.events && s.events[(id, n)].key == s.events[(id, m)].key ==> n == m
  }

  /** The proposing event names the proposal and has the fields it was made from. */
  predicate BornOk(p: Proposal, a: string, e: Event)
  {
    if p.tool == CREATE then
      e.request.command.ProposeCase? && e.response.action == a && p.arguments == CaseFor(e.response.fields)
    else
      e.request.command.ProposeExecution? && e.response.execution == a
      && p.arguments == ExecutionArguments(e.request.command.caseId)
  }

  /** A proposal of an intake that is not closed is the one the intake shows, with the fields it was made from. */
  predicate OriginOk(s: System, a: string)
  {
    a in s.origin ==>
      var o := s.origin[a];
      && a != "" && a in s.consent.store.proposals && o.intake in s.intakes && (o.intake, o.revision) in s.events
      && var row := s.intakes[o.intake]; var p := s.consent.store.proposals[a]; var e := s.events[(o.intake, o.revision)];
        && p.tool in {CREATE, EXECUTE} && p.scope == row.scope && BornOk(p, a, e)
        && (p.tool == CREATE && !Closed(p.status) ==> row.payload.action == a)
        && (p.tool == EXECUTE && !Closed(p.status) ==> row.payload.execution == a)
        && (row.payload.action == a ==> p.tool == CREATE && row.payload.fields == e.response.fields)
  }

  predicate RowOk(s: System, id: string)
  {
    id in s.intakes ==>
      var p := s.intakes[id].payload;
      && (p.action != "" ==> p.action in s.origin && s.origin[p.action].intake == id)
      && (p.execution != "" ==> p.execution in s.origin && s.origin[p.execution].intake == id)
  }

  predicate DraftOk(s: System, t: nat)
  {
    t in s.drafts ==>
      var d := s.drafts[t];
      && d.id in s.intakes && d.row.revision == d.request.expected <= s.intakes[d.id].revision
      && d.row.scope == s.intakes[d.id].scope
      && (s.intakes[d.id].revision == d.request.expected ==> s.intakes[d.id] == d.row)
      && (d.priorClosed && d.row.payload.execution != "" ==>
            && d.row.payload.execution in s.consent.store.proposals
            && Closed(s.consent.store.proposals[d.row.payload.execution].status))
  }

  ghost predicate Inv(s: System)
  {
    && C.Inv(s.consent)
    && (forall id {:trigger LogOk(s, id)} :: LogOk(s, id))
    && (forall id, n, m {:trigger KeyOk(s, id, n, m)} :: KeyOk(s, id, n, m))
    && (forall a {:trigger OriginOk(s, a)} :: OriginOk(s, a))
    && (forall id {:trigger RowOk(s, id)} :: RowOk(s, id))
    && (forall t {:trigger DraftOk(s, t)} :: DraftOk(s, t))
  }
}
