/**
 The claim loop of the run queue over a poll of any age: which candidate it takes, and what it does to
 the ones it passes.
 */
module RunClaiming {
  import opened Wrappers
  import opened Handoffs
  import opened RunQueue
  import opened RunProtocol
  import opened RunSafety
  import opened RunEffects
  import opened RunRepositories

  type Poll = seq<(string, Run)>

  /** Rows that were due at the poll, read at any time before. */
  ghost predicate Polled(s: Store, rows: Poll, now: real)
  {
    && (forall i, j :: 0 <= i < j < |rows| ==> rows[i].0 != rows[j].0)
    && (forall i :: 0 <= i < |rows| ==> Remembers(s, rows[i].0, rows[i].1) && DueAt(rows[i].1, now))
  }

  /** The k-th candidate has not changed since the poll. */
  predicate Live(s: Store, rows: Poll, k: nat)
    requires k < |rows|
  {
    rows[k].0 in s.runs && s.runs[rows[k].0].version == rows[k].1.version
  }

  /** It may be handed out: no write in doubt, same build, no cancellation to honour, an attempt left. */
  ghost predicate Takable(s: Store, rows: Poll, k: nat, build: nat)
    requires k < |rows|
  {
    && Live(s, rows, k) && !InDoubt(rows[k].1) && rows[k].1.build == build && !ToBeCancelled(rows[k].1)
    && rows[k].1.attempt < rows[k].1.maxAttempts
  }

  /** None of the live candidates up to position `k` is this one. */
  ghost predicate NotReached(s: Store, rows: Poll, k: nat, id: string)
  {
    forall j :: 0 <= j < |rows| && j <= k && Live(s, rows, j) ==> rows[j].0 != id
  }

  ghost predicate StoppedAt(s: Store, s': Store, rows: Poll, k: nat, build: nat)
    requires k <= |rows|
  {
    && s'.runs.Keys == s.runs.Keys && s'.own == s.own
    && (forall j :: 0 <= j < k ==> !Takable(s, rows, j, build))
    && (forall j :: 0 <= j < k && Live(s, rows, j) ==>
          rows[j].0 in s'.runs && s'.runs[rows[j].0].status in {NeedsReconciliation, Cancelled, DeadLetter})
    && (forall id {:trigger NotReached(s, rows, k, id)} :: id in s.runs && NotReached(s, rows, k, id) ==> s'.runs[id] == s.runs[id])
  }

  lemma CandidateKeeps(s: Store, id: string, stale: Run, owner: string, now: real, lease: real, build: nat)
    requires TablesOk(s) && Remembers(s, id, stale) && DueAt(stale, now)
    ensures var p := ClaimPlan(stale, owner, now, lease, build); var s' := ChangeTx(s, id, stale, p.changes, p.event, p.session).0;
      && TablesOk(s') && RunsEvolve(s.runs, s'.runs) && s'.own == s.own && s'.runs.Keys == s.runs.Keys
      && (forall other :: other in s.runs && other != id ==> s'.runs[other] == s.runs[other])
      && (s.runs[id].version != stale.version ==> s' == s)
  {
    var op := Claim(owner, now, lease, build);
    OpKeepsTables(s, id, stale, op);
    OpCases(s, id, stale, op);
  }

  lemma CandidateIsDecided(s: Store, id: string, stale: Run, owner: string, now: real, lease: real, build: nat)
    requires TablesOk(s) && Remembers(s, id, stale) && DueAt(stale, now)
    ensures var p := ClaimPlan(stale, owner, now, lease, build); var (s', answer) := ChangeTx(s, id, stale, p.changes, p.event, p.session);
      if s.runs[id].version != stale.version then answer == Err(VersionConflict)
      else
        && s.runs[id] == stale && answer == Ok(Next(s.own, stale, Claim(owner, now, lease, build)))
        && s'.runs == s.runs[id := answer.value]
  {
    if s.runs[id].version == stale.version {
      assert s.runs[id] == stale;
      OpTakesEffectIff(s, id, stale, Claim(owner, now, lease, build));
    }
  }

  /** One candidate: a changed one is skipped, an unchanged one gets what the claim decides for it. */
  lemma OneCandidate(s: Store, rows: Poll, owner: string, now: real, lease: real, build: nat)
    requires TablesOk(s) && Polled(s, rows, now) && rows != []
    ensures var p := ClaimPlan(rows[0].1, owner, now, lease, build); var id := rows[0].0;
      var (s', answer) := ChangeTx(s, id, rows[0].1, p.changes, p.event, p.session);
      && TablesOk(s') && RunsEvolve(s.runs, s'.runs) && s'.own == s.own && s'.runs.Keys == s.runs.Keys
      && (forall other :: other in s.runs && other != id ==> s'.runs[other] == s.runs[other])
      && (if !Live(s, rows, 0) then answer == Err(VersionConflict) && s' == s
          else
            && answer.Ok? && answer.value == s'.runs[id] == Next(s.own, rows[0].1, Claim(owner, now, lease, build))
            && (p.event.RunClaimed? <==> Takable(s, rows, 0, build))
            && (!Takable(s, rows, 0, build) ==> s'.runs[id].status in {NeedsReconciliation, Cancelled, DeadLetter}))
  {
    var (id, stale) := rows[0];
    CandidateKeeps(s, id, stale, owner, now, lease, build);
    CandidateIsDecided(s, id, stale, owner, now, lease, build);
    ClaimDecides(s.own, stale, owner, now, lease, build);
  }

  lemma StillPolled(s: Store, s': Store, rows: Poll, now: real)
    requires Polled(s, rows, now) && RunsEvolve(s.runs, s'.runs) && rows != []
    ensures Polled(s', rows[1..], now)
  {
    forall i | 0 <= i < |rows[1..]| ensures Remembers(s', rows[1..][i].0, rows[1..][i].1) && DueAt(rows[1..][i].1, now) {
      var (id, r) := rows[i + 1];
      assert Remembers(s, id, r);
      EvolvesTransitive(r, s.runs[id], s'.runs[id]);
    }
  }

  lemma RestLive(s: Store, s1: Store, rows: Poll, build: nat)
    requires rows != [] && forall i, j :: 0 <= i < j < |rows| ==> rows[i].0 != rows[j].0
    requires s1.runs.Keys == s.runs.Keys
    requires forall id :: id in s.runs && id != rows[0].0 ==> s1.runs[id] == s.runs[id]
    ensures forall j :: 0 <= j < |rows| - 1 ==> Live(s1, rows[1..], j) == Live(s, rows, j + 1)
    ensures forall j :: 0 <= j < |rows| - 1 ==> Takable(s1, rows[1..], j, build) == Takable(s, rows, j + 1, build)
  {
    forall j | 0 <= j < |rows| - 1
      ensures Live(s1, rows[1..], j) == Live(s, rows, j + 1)
      ensures Takable(s1, rows[1..], j, build) == Takable(s, rows, j + 1, build)
    {
      assert rows[1..][j] == rows[j + 1] && rows[0].0 != rows[j + 1].0;
    }
  }

  lemma StepPast(s: Store, s1: Store, s': Store, rows: Poll, k: nat, build: nat)
    requires rows != [] && forall i, j :: 0 <= i < j < |rows| ==> rows[i].0 != rows[j].0
    requires !Takable(s, rows, 0, build) && k < |rows| && s1.runs.Keys == s.runs.Keys && s1.own == s.own
    requires forall id :: id in s.runs && (id != rows[0].0 || !Live(s, rows, 0)) ==> s1.runs[id] == s.runs[id]
    requires Live(s, rows, 0) ==> s1.runs[rows[0].0].status in {NeedsReconciliation, Cancelled, DeadLetter}
    requires StoppedAt(s1, s', rows[1..], k, build)
    ensures StoppedAt(s, s', rows, k + 1, build)
  {
    var rest := rows[1..];
    RestLive(s, s1, rows, build);
    if Live(s, rows, 0) {
      assert NotReached(s1, rest, k, rows[0].0);
    }
    forall j | 0 <= j < k + 1
      ensures !Takable(s, rows, j, build)
      ensures Live(s, rows, j) ==> rows[j].0 in s'.runs && s'.runs[rows[j].0].status in {NeedsReconciliation, Cancelled, DeadLetter}
    {
      if j > 0 { assert !Takable(s1, rest, j - 1, build) && Live(s1, rest, j - 1) == Live(s, rows, j); }
    }
    forall id | id in s.runs && NotReached(s, rows, k + 1, id) ensures s'.runs[id] == s.runs[id] {
      forall j | 0 <= j < |rest| && j <= k && Live(s1, rest, j) ensures rest[j].0 != id {
        assert Live(s, rows, j + 1);
      }
      assert NotReached(s1, rest, k, id);
    }
  }

  /** The loop ended at position `k`: past the end, or with the candidate there handed out. */
  ghost predicate Took(s: Store, s': Store, answer: Result<Option<Run>, RunError>, rows: Poll, k: nat,
      owner: string, now: real, lease: real, build: nat)
  {
    && k <= |rows| && StoppedAt(s, s', rows, k, build)
    && (k == |rows| ==> answer == Ok(None))
    && (k < |rows| ==>
          && Takable(s, rows, k, build) && DueAt(rows[k].1, now) && rows[k].0 in s'.runs && answer == Ok(Some(s'.runs[rows[k].0]))
          && s'.runs[rows[k].0] == Next(s.own, rows[k].1, Claim(owner, now, lease, build)))
  }

  lemma TookRest(s: Store, s1: Store, s': Store, answer: Result<Option<Run>, RunError>, rows: Poll, k: nat,
      owner: string, now: real, lease: real, build: nat)
    requires rows != [] && forall i, j :: 0 <= i < j < |rows| ==> rows[i].0 != rows[j].0
    requires !Takable(s, rows, 0, build) && s1.runs.Keys == s.runs.Keys && s1.own == s.own
    requires forall id :: id in s.runs && (id != rows[0].0 || !Live(s, rows, 0)) ==> s1.runs[id] == s.runs[id]
    requires Live(s, rows, 0) ==> s1.runs[rows[0].0].status in {NeedsReconciliation, Cancelled, DeadLetter}
    requires Took(s1, s', answer, rows[1..], k, owner, now, lease, build)
    ensures Took(s, s', answer, rows, k + 1, owner, now, lease, build)
  {
    RestLive(s, s1, rows, build);
    StepPast(s, s1, s', rows, k, build);
  }

  lemma TookFirst(s: Store, rows: Poll, owner: string, now: real, lease: real, build: nat)
    requires TablesOk(s) && Polled(s, rows, now) && rows != [] && Takable(s, rows, 0, build)
    ensures var (s', answer) := ClaimFrom(s, rows, owner, now, lease, build);
      Took(s, s', answer, rows, 0, owner, now, lease, build)
  {
    OneCandidate(s, rows, owner, now, lease, build);
    var s' := ClaimFrom(s, rows, owner, now, lease, build).0;
    forall id | id in s.runs && NotReached(s, rows, 0, id) ensures s'.runs[id] == s.runs[id] { assert rows[0].0 != id; }
  }

  /** What a candidate that is not takable leaves to the rest of the loop. */
  lemma PassesOn(s: Store, rows: Poll, owner: string, now: real, lease: real, build: nat) returns (s1: Store)
    requires TablesOk(s) && Polled(s, rows, now) && rows != [] && !Takable(s, rows, 0, build)
    ensures TablesOk(s1) && Polled(s1, rows[1..], now) && s1.runs.Keys == s.runs.Keys && s1.own == s.own
    ensures forall id :: id in s.runs && (id != rows[0].0 || !Live(s, rows, 0)) ==> s1.runs[id] == s.runs[id]
    ensures Live(s, rows, 0) ==> s1.runs[rows[0].0].status in {NeedsReconciliation, Cancelled, DeadLetter}
    ensures ClaimFrom(s, rows, owner, now, lease, build) == ClaimFrom(s1, rows[1..], owner, now, lease, build)
  {
    var p := ClaimPlan(rows[0].1, owner, now, lease, build);
    s1 := ChangeTx(s, rows[0].0, rows[0].1, p.changes, p.event, p.session).0;
    OneCandidate(s, rows, owner, now, lease, build);
    StillPolled(s, s1, rows, now);
  }

  /**
   The loop over a poll of any age never fails: it hands out the first candidate that is unchanged and
   takable, closes the unchanged ones it passes, and touches no other run.
   */
  lemma {:induction false} ClaimTakesFirst(s: Store, rows: Poll, owner: string, now: real, lease: real, build: nat) returns (k: nat)
    requires TablesOk(s) && Polled(s, rows, now)
    ensures var (s', answer) := ClaimFrom(s, rows, owner, now, lease, build);
      Took(s, s', answer, rows, k, owner, now, lease, build)
    decreases |rows|
  {
    if rows == [] {
      k := 0;
    } else if Takable(s, rows, 0, build) {
      k := 0;
      TookFirst(s, rows, owner, now, lease, build);
    } else {
      var s1 := PassesOn(s, rows, owner, now, lease, build);
      var rest := ClaimTakesFirst(s1, rows[1..], owner, now, lease, build);
      var (s', answer) := ClaimFrom(s1, rows[1..], owner, now, lease, build);
      TookRest(s, s1, s', answer, rows, rest, owner, now, lease, build);
      k := rest + 1;
    }
  }
}
