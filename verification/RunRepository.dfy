/**
 The repository object of app/repositories/runs.py: the queue's operations as they execute on the
 tables, each tied to the specification functions the protocol is proved about.
 */
module RunRepositories {
  import opened Wrappers
  import opened Handoffs
  import opened RunQueue

  /** The claim loop over candidates polled earlier; only version conflicts are skipped. */
  function ClaimFrom(s: Store, rows: seq<(string, Run)>, owner: string, now: real, lease: real, build: nat)
    : (Store, Result<Option<Run>, RunError>)
    decreases |rows|
  {
    if rows == [] then (s, Ok(None))
    else
      var p := ClaimPlan(rows[0].1, owner, now, lease, build);
      match ChangeTx(s, rows[0].0, rows[0].1, p.changes, p.event, p.session)
      case (s', Ok(r)) =>
        if p.event.RunClaimed? then (s', Ok(Some(r))) else ClaimFrom(s', rows[1..], owner, now, lease, build)
      case (s', Err(e)) =>
        if e == VersionConflict then ClaimFrom(s', rows[1..], owner, now, lease, build) else (s', Err(e))
  }

  class RunRepository {
    var runs: map<string, Run>
    var events: map<(string, nat), Event>
    var own: Owners
    var sessions: map<Scope, string>

    function Contents(): Store
      reads this
    {
      Store(runs, events, own, sessions)
    }

    constructor ()
      ensures Contents() == Store(map[], map[], map[], map[])
    {
      runs, events, own, sessions := map[], map[], map[], map[];
    }

    method Submit(id: string, scope: Scope, key: string, hash: string, build: nat, maxAttempts: nat, now: real, runtime: Runtime)
      returns (r: Result<Run, RunError>)
      modifies this
      ensures var invalid := key == "" || |key| > 128;
        && (invalid <==> r == Err(InvalidKey))
        && Contents() == if invalid then old(Contents())
                         else SubmitTx(old(Contents()), id, NewRun(scope, key, hash, build, maxAttempts, now, runtime))
      ensures r.Ok? ==> SameRequest(r.value, scope.0, key) && r.value.requestHash == hash && r.value in runs.Values
      ensures r == Err(IdempotencyConflict) ==>
        exists other :: other in runs && SameRequest(runs[other], scope.0, key) && runs[other].requestHash != hash
      ensures r == Err(SessionRunActive) ==>
        exists other :: other in runs && runs[other].scope == scope && Active(runs[other].status)
    {
      if key == "" || |key| > 128 {
        return Err(InvalidKey);
      }
      var row := NewRun(scope, key, hash, build, maxAttempts, now, runtime);
      if Insertable(Contents(), id, row) {
        runs := runs[id := row];
        events := events[(id, 1) := RunQueued];
        assert id in runs && runs[id] in runs.Values;
        return Ok(runs[id]);
      }
      if exists other :: other in runs && SameRequest(runs[other], scope.0, key) {
        var other :| other in runs && SameRequest(runs[other], scope.0, key);
        assert runs[other] in runs.Values;
        if runs[other].requestHash != hash {
          return Err(IdempotencyConflict);
        }
        return Ok(runs[other]);
      }
      if exists other :: other in runs && runs[other].scope == scope && Active(runs[other].status) {
        return Err(SessionRunActive);
      }
      return Err(IntegrityError);
    }

    /** Delivery is serialized with takeover: a displaced run completes without a public reply. */
    method Deliver(stale: Run, ch: Changes, session: Option<string>) returns (values: Changes, output: Option<string>)
      ensures (values, output) == Delivered(own, stale, ch, session)
    {
      values, output := ch, session;
      if ch.status == Some(Completed) && Displaced(own, stale) {
        var payload := if ch.payload.Some? then ch.payload.value else stale.payload;
        var draft := if payload.draft.Some? then payload.draft else Some(payload.result);
        payload := payload.(draft := draft, result := Some(Reply("", true, None, [])));
        values := values.(payload := Some(payload));
        if !payload.handoff {
          output := None;
        }
      }
    }

    method Change(id: string, stale: Run, ch: Changes, event: Event, session: Option<string>) returns (r: Result<Run, RunError>)
      modifies this
      ensures (Contents(), r) == ChangeTx(old(Contents()), id, stale, ch, event, session)
    {
      if event.CallStarted? && Displaced(own, stale) {
        return Err(HandoffInterrupt);
      }
      var values, output := Deliver(stale, ch, session);
      if id !in runs || runs[id].version != stale.version {
        return Err(VersionConflict);
      }
      var row := Written(runs[id], stale, values);
      if Clashes(runs, id, row) || (id, row.version) in events {
        return Err(IntegrityError);
      }
      if output.Some? {
        var current := if stale.scope in sessions then Some(sessions[stale.scope]) else None;
        if current != SnapshotOf(stale.payload) {
          return Err(SessionChanged);
        }
        sessions := sessions[stale.scope := output.value];
      }
      runs := runs[id := row];
      events := events[(id, row.version) := event];
      return Ok(row);
    }

    method Claim(rows: seq<(string, Run)>, owner: string, now: real, lease: real, build: nat)
      returns (r: Result<Option<Run>, RunError>)
      modifies this
      ensures (Contents(), r) == ClaimFrom(old(Contents()), rows, owner, now, lease, build)
    {
      var i := 0;
      while i < |rows|
        invariant 0 <= i <= |rows|
        invariant ClaimFrom(old(Contents()), rows, owner, now, lease, build)
               == ClaimFrom(Contents(), rows[i..], owner, now, lease, build)
      {
        var id, row := rows[i].0, rows[i].1;
        var p := ClaimPlan(row, owner, now, lease, build);
        var changed := Change(id, row, p.changes, p.event, p.session);
        assert rows[i..][1..] == rows[i + 1..];
        if changed.Err? && changed.error != VersionConflict {
          return Err(changed.error);
        }
        if changed.Ok? && p.event.RunClaimed? {
          return Ok(Some(changed.value));
        }
        i := i + 1;
      }
      return Ok(None);
    }

    /** Sixteen attempts; the first `lost` find that somebody else has changed the row. */
    method CancelRun(id: string, user: string, lost: nat) returns (r: Result<Run, RunError>)
      modifies this
      ensures id !in old(runs) || old(runs[id]).scope.0 != user ==> r == Err(NotFound) && Contents() == old(Contents())
      ensures id in old(runs) && old(runs[id]).scope.0 == user ==>
        if old(runs[id]).cancel == Acknowledged then r == Ok(old(runs[id])) && Contents() == old(Contents())
        else if lost >= 16 then r == Err(Busy) && Contents() == old(Contents())
        else (Contents(), Some(r)) == OpTx(old(Contents()), id, old(runs[id]), Cancel)
    {
      for attempt := 0 to 16
        invariant Contents() == old(Contents())
        invariant attempt <= lost
        invariant attempt > 0 ==> id in runs && runs[id].scope.0 == user && runs[id].cancel != Acknowledged
      {
        if id !in runs || runs[id].scope.0 != user {
          return Err(NotFound);
        }
        var row := runs[id];
        if row.cancel == Acknowledged {
          return Ok(row);
        }
        if attempt >= lost {
          var p := CancelPlan(row);
          r := Change(id, row, p.changes, p.event, p.session);
          return;
        }
      }
      return Err(Busy);
    }

    method ReplayRun(id: string, actor: string, now: real, build: nat) returns (r: Result<Run, RunError>)
      modifies this
      ensures id !in old(runs) ==> r == Err(NotFound) && Contents() == old(Contents())
      ensures id in old(runs) ==>
        var row := old(runs[id]);
        if Replayable(row, build)
        then (Contents(), Some(r)) == OpTx(old(Contents()), id, row, Replay(actor, now, build))
        else r == Err(ReplayUnsafe) && Contents() == old(Contents())
    {
      if id !in runs {
        return Err(NotFound);
      }
      var row := runs[id];
      if row.status != DeadLetter || Unsafe(row.payload) || row.build != build {
        return Err(ReplayUnsafe);
      }
      var p := ReplayPlan(row, actor, now);
      r := Change(id, row, p.changes, p.event, p.session);
    }

    /** Thirty-two attempts under the lease; `None` when the lease check or the operation stops it. */
    method MutateOwned(id: string, owner: string, fence: nat, now: real, op: Op, lost: nat) returns (r: Option<Result<Run, RunError>>)
      modifies this
      ensures id !in old(runs) || !Owned(old(runs[id]), owner, fence, now) ==> r == None && Contents() == old(Contents())
      ensures id in old(runs) && Owned(old(runs[id]), owner, fence, now) ==>
        if Planned(old(runs[id]), op).None? then r == None && Contents() == old(Contents())
        else if lost >= 32 then r == Some(Err(Busy)) && Contents() == old(Contents())
        else (Contents(), r) == OpTx(old(Contents()), id, old(runs[id]), op)
    {
      for attempt := 0 to 32
        invariant Contents() == old(Contents())
        invariant attempt <= lost
        invariant attempt > 0 ==> id in runs && Owned(runs[id], owner, fence, now) && Planned(runs[id], op).Some?
      {
        if id !in runs || !Owned(runs[id], owner, fence, now) {
          return None;
        }
        var row := runs[id];
        var plan := Planned(row, op);
        if plan.None? {
          return None;
        }
        if attempt >= lost {
          var changed := Change(id, row, plan.value.changes, plan.value.event, plan.value.session);
          return Some(changed);
        }
      }
      return Some(Err(Busy));
    }
  }

  /** A repeated submission finds the request in place and changes nothing. */
  lemma SubmitIsIdempotent(s: Store, id: string, again: string, r: Run, r': Run)
    requires r.scope.0 == r'.scope.0 && r.key == r'.key
    ensures var once := SubmitTx(s, id, r); Insertable(s, id, r) ==> SubmitTx(once, again, r') == once
  {
    if Insertable(s, id, r) {
      assert SameRequest(SubmitTx(s, id, r).runs[id], r'.scope.0, r'.key);
    }
  }
}
