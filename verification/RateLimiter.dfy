/**
 The in-process limiter of app/infrastructure/model_gateway.py: a deque of grant times, pruned at
 each attempt. One attempt is one pass of the waiting loop, made under the lock; the callers that
 share a limiter interleave attempts in any order. The monotonic clock is an input.
 */
module RateLimiter {
  function Prune(q: seq<real>, now: real): seq<real>
  {
    if q != [] && now - q[0] >= 60.0 then Prune(q[1..], now) else q
  }

  /** The deque after one attempt, and whether the attempt was granted. */
  function Attempt(limit: nat, q: seq<real>, now: real): (seq<real>, bool)
  {
    var kept := Prune(q, now);
    if |kept| < limit then (kept + [now], true) else (kept, false)
  }

  function WaitFor(kept: seq<real>, now: real): real
  {
    if kept == [] then 0.0
    else if 60.0 - (now - kept[0]) > 0.0 then 60.0 - (now - kept[0]) else 0.0
  }

  /** One caller's loop over successive clock readings: deque, granted, and the sleeps in between. */
  function Loop(limit: nat, q: seq<real>, clock: seq<real>): (seq<real>, bool, seq<real>)
    decreases |clock|
  {
    if clock == [] then (q, false, [])
    else
      var (q', granted) := Attempt(limit, q, clock[0]);
      if granted then (q', true, [])
      else
        var (end, done, sleeps) := Loop(limit, q', clock[1..]);
        (end, done, [WaitFor(q', clock[0])] + sleeps)
  }

  class SlidingWindowRateLimiter {
    const limit: nat
    var requests: seq<real>

    constructor (requestsPerMinute: int)
      ensures requests == [] && limit as int == if requestsPerMinute > 0 then requestsPerMinute else 0
    {
      limit := if requestsPerMinute > 0 then requestsPerMinute else 0;
      requests := [];
    }

    /**
     `clock` lists the readings this caller will see; when they run out the caller is still
     waiting. `sleeps` records the argument of every sleep.
     */
    method Acquire(clock: seq<real>) returns (granted: bool, sleeps: seq<real>)
      modifies this
      ensures limit == 0 ==> granted && sleeps == [] && requests == old(requests)
      ensures limit > 0 ==> (requests, granted, sleeps) == Loop(limit, old(requests), clock)
    {
      sleeps := [];
      if limit == 0 {
        return true, sleeps;
      }
      var tries := 0;
      assert clock[0..] == clock && sleeps + Loop(limit, requests, clock).2 == Loop(limit, requests, clock).2;
      while tries < |clock|
        invariant 0 <= tries <= |clock|
        invariant var rest := Loop(limit, requests, clock[tries..]);
          Loop(limit, old(requests), clock) == (rest.0, rest.1, sleeps + rest.2)
      {
        var now := clock[tries];
        ghost var before, slept := requests, sleeps;
        while requests != [] && now - requests[0] >= 60.0
          invariant Prune(before, now) == Prune(requests, now)
          decreases |requests|
        {
          requests := requests[1..];
        }
        assert clock[tries..][1..] == clock[tries + 1..];
        tries := tries + 1;
        if |requests| < limit {
          requests := requests + [now];
          assert sleeps + [] == sleeps;
          return true, sleeps;
        }
        var wait := 60.0 - (now - requests[0]);
        sleeps := sleeps + [if wait > 0.0 then wait else 0.0];
        assert forall rest :: slept + ([WaitFor(requests, now)] + rest) == sleeps + rest;
      }
      assert sleeps + [] == sleeps;
      granted := false;
    }
  }

  // ----- every history of attempts -----

  /** The deque and all grant times after the attempts at these readings, in order. */
  function History(limit: nat, clock: seq<real>): (seq<real>, seq<real>)
  {
    if clock == [] then ([], [])
    else
      var now := clock[|clock| - 1];
      var (q, grants) := History(limit, clock[..|clock| - 1]);
      var (q', granted) := Attempt(limit, q, now);
      (q', if granted then grants + [now] else grants)
  }

  predicate InOrder(s: seq<real>, i: int, j: int)
  {
    0 <= i < j < |s| ==> s[i] <= s[j]
  }

  ghost predicate Sorted(s: seq<real>)
  {
    forall i, j {:trigger InOrder(s, i, j)} :: InOrder(s, i, j)
  }

  /** A time at least a minute before `now`. */
  predicate Old(s: seq<real>, i: int, now: real)
  {
    0 <= i < |s| && now - s[i] >= 60.0
  }

  /** How many of the given times lie less than a minute before `now`. */
  function Recent(times: seq<real>, now: real): nat
  {
    if times == [] then 0
    else Recent(times[..|times| - 1], now) + if now - times[|times| - 1] < 60.0 then 1 else 0
  }

  lemma TailSorted(s: seq<real>, n: nat)
    requires Sorted(s) && n <= |s|
    ensures Sorted(s[n..])
  {
    forall i, j ensures InOrder(s[n..], i, j) { assert InOrder(s, n + i, n + j); }
  }

  /** Pruning a sorted deque keeps exactly the times less than a minute old. */
  lemma {:induction false} PruneDrops(q: seq<real>, now: real)
    requires Sorted(q)
    ensures var kept := Prune(q, now);
      && |kept| <= |q| && kept == q[|q| - |kept|..]
      && (forall i {:trigger Old(q, i, now)} :: Old(q, i, now) <==> 0 <= i < |q| - |kept|)
    decreases |q|
  {
    if q != [] && now - q[0] >= 60.0 {
      TailSorted(q, 1);
      PruneDrops(q[1..], now);
      forall i ensures Old(q, i, now) <==> 0 <= i < |q| - |Prune(q, now)| {
        assert i > 0 ==> Old(q[1..], i - 1, now) == Old(q, i, now);
      }
    } else {
      forall i ensures !Old(q, i, now) { assert InOrder(q, 0, i); }
    }
  }

  /** The i-th grant is a minute after the one `limit` earlier. */
  predicate Apart(grants: seq<real>, limit: nat, i: int)
  {
    limit <= i < |grants| ==> grants[i] - grants[i - limit] >= 60.0
  }

  predicate Past(grants: seq<real>, i: int, now: real)
  {
    0 <= i < |grants| ==> grants[i] <= now
  }

  /** The deque is the tail of the grants, and whatever left it is a minute old at `now`. */
  ghost predicate Tracks(limit: nat, q: seq<real>, grants: seq<real>, now: real)
  {
    && Sorted(grants) && |q| <= limit && |q| <= |grants| && q == grants[|grants| - |q|..]
    && (forall i {:trigger Past(grants, i, now)} :: Past(grants, i, now))
    && (forall i {:trigger Old(grants, i, now)} :: 0 <= i < |grants| - |q| ==> Old(grants, i, now))
    && (forall i {:trigger Apart(grants, limit, i)} :: Apart(grants, limit, i))
  }

  lemma TracksLater(limit: nat, q: seq<real>, grants: seq<real>, before: real, now: real)
    requires Tracks(limit, q, grants, before) && before <= now
    ensures Tracks(limit, q, grants, now)
  {
    forall i ensures Past(grants, i, now) { assert Past(grants, i, before); }
    forall i {:trigger Old(grants, i, now)} | 0 <= i < |grants| - |q| ensures Old(grants, i, now) { assert Old(grants, i, before); }
  }

  /** After pruning, exactly the part before the kept tail is a minute old. */
  lemma PrunedTail(limit: nat, q: seq<real>, grants: seq<real>, now: real)
    requires Tracks(limit, q, grants, now)
    ensures var kept := Prune(q, now); var split := |grants| - |kept|;
      && |kept| <= |q| && kept == grants[split..]
      && (forall i {:trigger Old(grants, i, now)} :: Old(grants, i, now) <==> 0 <= i < split)
  {
    var n := |grants| - |q|;
    TailSorted(grants, n);
    PruneDrops(q, now);
    var split := |grants| - |Prune(q, now)|;
    forall i ensures Old(grants, i, now) <==> 0 <= i < split {
      if i >= n { assert Old(grants, i, now) == Old(q, i - n, now); }
    }
  }

  lemma GrantApart(limit: nat, grants: seq<real>, split: nat, now: real)
    requires limit > 0 && split <= |grants| < split + limit
    requires forall i {:trigger Old(grants, i, now)} :: 0 <= i < split ==> Old(grants, i, now)
    requires forall i {:trigger Apart(grants, limit, i)} :: Apart(grants, limit, i)
    ensures forall i {:trigger Apart(grants + [now], limit, i)} :: Apart(grants + [now], limit, i)
  {
    forall i ensures Apart(grants + [now], limit, i) {
      assert Apart(grants, limit, i);
      if i == |grants| && limit <= i { assert Old(grants, i - limit, now); }
    }
  }

  lemma GrantInOrder(grants: seq<real>, now: real)
    requires Sorted(grants) && forall i {:trigger Past(grants, i, now)} :: Past(grants, i, now)
    ensures Sorted(grants + [now]) && forall i {:trigger Past(grants + [now], i, now)} :: Past(grants + [now], i, now)
  {
    forall i, j ensures InOrder(grants + [now], i, j) { assert InOrder(grants, i, j) && Past(grants, i, now); }
    forall i ensures Past(grants + [now], i, now) { assert Past(grants, i, now); }
  }

  lemma AttemptTracks(limit: nat, q: seq<real>, grants: seq<real>, now: real)
    requires limit > 0 && Tracks(limit, q, grants, now)
    ensures var (q', granted) := Attempt(limit, q, now);
      Tracks(limit, q', if granted then grants + [now] else grants, now)
  {
    PrunedTail(limit, q, grants, now);
    var kept := Prune(q, now);
    var split := |grants| - |kept|;
    if |kept| < limit {
      GrantApart(limit, grants, split, now);
      GrantInOrder(grants, now);
      assert kept + [now] == (grants + [now])[split..];
      forall i {:trigger Old(grants + [now], i, now)} | 0 <= i < split ensures Old(grants + [now], i, now) {
        assert Old(grants, i, now);
      }
    }
  }

  lemma {:induction false} HistoryTracks(limit: nat, clock: seq<real>, now: real)
    requires limit > 0 && Sorted(clock) && (clock != [] ==> clock[|clock| - 1] <= now)
    ensures Tracks(limit, History(limit, clock).0, History(limit, clock).1, now)
  {
    if clock != [] {
      var front, last := clock[..|clock| - 1], clock[|clock| - 1];
      forall i, j ensures InOrder(front, i, j) { assert InOrder(clock, i, j); }
      assert InOrder(clock, |clock| - 2, |clock| - 1);
      HistoryTracks(limit, front, last);
      var (q, grants) := History(limit, front);
      AttemptTracks(limit, q, grants, last);
      TracksLater(limit, History(limit, clock).0, History(limit, clock).1, last, now);
    }
  }

  /** On a non-decreasing clock the (i + limit)-th grant is at least a minute after the i-th. */
  lemma GrantsAMinuteApart(limit: nat, clock: seq<real>, i: nat)
    requires limit > 0 && Sorted(clock)
    requires i + limit < |History(limit, clock).1|
    ensures var grants := History(limit, clock).1; grants[i + limit] - grants[i] >= 60.0
  {
    HistoryTracks(limit, clock, if clock == [] then 0.0 else clock[|clock| - 1]);
    assert Apart(History(limit, clock).1, limit, i + limit);
  }

  lemma {:induction false} RecentIsTail(times: seq<real>, n: nat, now: real)
    requires n <= |times|
    requires forall i {:trigger Old(times, i, now)} :: Old(times, i, now) <==> 0 <= i < |times| - n
    ensures Recent(times, now) == n
  {
    if times != [] {
      var front := times[..|times| - 1];
      assert Old(times, |times| - 1, now) <==> n == 0;
      forall i ensures Old(front, i, now) <==> 0 <= i < |front| - if n == 0 then 0 else n - 1 {
        assert 0 <= i < |front| ==> Old(front, i, now) == Old(times, i, now);
      }
      RecentIsTail(front, if n == 0 then 0 else n - 1, now);
    }
  }

  lemma SortedFront(clock: seq<real>, now: real)
    requires Sorted(clock + [now])
    ensures Sorted(clock) && (clock != [] ==> clock[|clock| - 1] <= now)
  {
    forall i, j ensures InOrder(clock, i, j) { assert InOrder(clock + [now], i, j); }
    assert InOrder(clock + [now], |clock| - 1, |clock|);
  }

  /**
   Neither too strict nor too lax: on a non-decreasing clock an attempt is granted exactly when
   fewer than `limit` of all the grants ever made lie in the last minute.
   */
  lemma GrantedIffRoom(limit: nat, clock: seq<real>, now: real)
    requires limit > 0 && Sorted(clock + [now])
    ensures Attempt(limit, History(limit, clock).0, now).1 <==> Recent(History(limit, clock).1, now) < limit
  {
    SortedFront(clock, now);
    HistoryTracks(limit, clock, now);
    var (q, grants) := History(limit, clock);
    PrunedTail(limit, q, grants, now);
    RecentIsTail(grants, |Prune(q, now)|, now);
  }

  lemma LaterHasRoom(limit: nat, kept: seq<real>, now: real, later: real)
    requires 0 < limit == |kept| && Sorted(kept)
    requires later >= now + WaitFor(kept, now)
    ensures Attempt(limit, kept, later).1
  {
    PruneDrops(kept, later);
    assert Old(kept, 0, later);
  }

  /**
   One sleep is enough: a caller refused at `now` sleeps between 0 and 60 seconds, and if nobody
   else tries meanwhile, its next attempt at or after the end of that sleep is granted.
   */
  lemma OneSleepIsEnough(limit: nat, clock: seq<real>, now: real, later: real)
    requires limit > 0 && Sorted(clock + [now])
    requires var (q, granted) := Attempt(limit, History(limit, clock).0, now);
      !granted && later >= now + WaitFor(q, now)
    ensures var kept := Attempt(limit, History(limit, clock).0, now).0;
      && 0.0 < WaitFor(kept, now) <= 60.0
      && Attempt(limit, kept, later).1
  {
    SortedFront(clock, now);
    HistoryTracks(limit, clock, now);
    var (q, grants) := History(limit, clock);
    PrunedTail(limit, q, grants, now);
    var kept := Prune(q, now);
    assert kept[0] == grants[|grants| - limit];
    assert !Old(grants, |grants| - limit, now) && Past(grants, |grants| - limit, now);
    TailSorted(grants, |grants| - limit);
    LaterHasRoom(limit, kept, now, later);
  }

  /**
   The whole loop of a caller that is alone from now on, after any history: with room it is granted
   at its first reading without a sleep; otherwise it sleeps once, exactly until the limit-th newest
   grant is a minute old, and is granted at the reading after it.
   */
  lemma LoneCallerSleepsOnce(limit: nat, past: seq<real>, now: real, later: real, rest: seq<real>)
    requires limit > 0 && Sorted(past + [now])
    requires var slept := Loop(limit, History(limit, past).0, [now]).2;
      slept != [] ==> later >= now + slept[0]
    ensures var (q, grants) := History(limit, past);
      var (end, granted, sleeps) := Loop(limit, q, [now, later] + rest);
      && granted && |sleeps| <= 1
      && (sleeps == [] <==> Recent(grants, now) < limit)
      && (sleeps != [] ==> |grants| >= limit && sleeps[0] == 60.0 - (now - grants[|grants| - limit]) && 0.0 < sleeps[0] <= 60.0)
      && end != [] && end[|end| - 1] == if sleeps == [] then now else later
  {
    var (q, grants) := History(limit, past);
    var (kept, granted) := Attempt(limit, q, now);
    var clock := [now, later] + rest;
    assert clock[0] == now && clock[1..] == [later] + rest;
    GrantedIffRoom(limit, past, now);
    if !granted {
      assert [now][1..] == [];
      assert Loop(limit, q, [now]).2 == [WaitFor(kept, now)];
      OneSleepIsEnough(limit, past, now, later);
      RefusedWaits(limit, past, now);
      assert Loop(limit, kept, clock[1..]).2 == [];
    }
  }

  lemma RefusedWaits(limit: nat, past: seq<real>, now: real)
    requires limit > 0 && Sorted(past + [now])
    requires !Attempt(limit, History(limit, past).0, now).1
    ensures var (q, grants) := History(limit, past); var kept := Prune(q, now);
      |kept| == limit <= |grants| && kept[0] == grants[|grants| - limit]
  {
    SortedFront(past, now);
    HistoryTracks(limit, past, now);
    PrunedTail(limit, History(limit, past).0, History(limit, past).1, now);
  }
}
