/**
 Who answers a conversation, app/platform/conversation_handoff.py: one row per (user, session),
 taken and released by people under a version compare-and-swap. Guards and locks rewrite the
 version with itself and therefore leave the row as it is.
 */
module Handoffs {
  import opened Wrappers

  type Scope = (string, string)

  datatype Holder = Agent | Human

  datatype Ownership = Ownership(state: Holder, owner: string, version: nat)

  type Owners = map<Scope, Ownership>

  datatype HandoffError = SessionHumanOwned | NotInitialized | OwnershipConflict | NotAllowed | ActionInFlight

  function EnsureTx(own: Owners, scope: Scope): Owners
  {
    if scope in own then own else own[scope := Ownership(Agent, "", 1)]
  }

  /** A missing row reads as version 0, held by the agent. */
  function Holding(own: Owners, scope: Scope): Ownership
  {
    if scope in own then own[scope] else Ownership(Agent, "", 0)
  }

  /** The check before an agent's write; on success the transaction holds the row. */
  function GuardAgent(own: Owners, scope: Scope): Result<(), HandoffError>
  {
    if Holding(own, scope).state == Human then Err(SessionHumanOwned)
    else if Holding(own, scope).version == 0 then Err(NotInitialized)
    else Ok(())
  }

  /** `inFlight`: some action of the session is executing, which forbids taking it over. */
  function TransitionTx(own: Owners, scope: Scope, actor: string, expected: nat, take: bool, inFlight: bool)
    : (Owners, Result<(), HandoffError>)
  {
    var row := Holding(own, scope);
    if row.version != expected then (own, Err(OwnershipConflict))
    else if (take && row.state != Agent) || (!take && (row.state != Human || row.owner != actor)) then (own, Err(NotAllowed))
    else if scope !in own then (own, Err(OwnershipConflict))
    else if take && inFlight then (own, Err(ActionInFlight))
    else
      (own[scope := Ownership(if take then Human else Agent, if take then actor else "", expected + 1)], Ok(()))
  }

  /** Rows stay, versions never decrease, and a row that changed has a larger version. */
  ghost predicate OwnersEvolve(a: Owners, b: Owners)
  {
    forall s :: s in a ==> s in b && a[s].version <= b[s].version && (a[s].version == b[s].version ==> a[s] == b[s])
  }

  lemma TransitionMoves(own: Owners, scope: Scope, actor: string, expected: nat, take: bool, inFlight: bool)
    ensures var (own', r) := TransitionTx(own, scope, actor, expected, take, inFlight);
      && OwnersEvolve(own, own')
      && (r.Err? ==> own' == own)
      && (r.Ok? ==>
            && scope in own && own'[scope].version == own[scope].version + 1
            && own'[scope].state != own[scope].state && (own'[scope].state == Human ==> own'[scope].owner == actor)
            && (!take ==> own[scope].owner == actor))
  {}
}
