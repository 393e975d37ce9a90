/**
 Left alone, a message gets through: what one undisturbed worker does with it from insertion to delivery, or
 to the last attempt, and what a receipt, an operator and a crash do to the queue.
 */
module LeaseProgress {
  import opened Wrappers
  import opened LeaseQueues
  import opened LeaseTiming
  import opened LeaseProtocol

  lemma FirstOf<P>(q: Queue<P>, step: Step<P>, rest: seq<Step<P>>)
    ensures Run(q, [step] + rest) == Run(Do(q, step), rest)
  {
    assert ([step] + rest)[0] == step && ([step] + rest)[1..] == rest;
  }

  lemma ThreeSteps<P>(q: Queue<P>, a: Step<P>, b: Step<P>, c: Step<P>)
    ensures Run(q, [a] + ([b] + ([c] + []))) == Do(Do(Do(q, a), b), c)
  {
    FirstOf(q, a, [b] + ([c] + []));
    FirstOf(Do(q, a), b, [c] + []);
    FirstOf(Do(Do(q, a), b), c, []);
  }

  /** A new message is in the queue, due after its delay; a known one stays as it is. */
  lemma InsertStores<P>(q: Queue<P>, id: string, aggregate: string, payload: P, now: real, max: nat, wait: real)
    requires max >= 1
    ensures var q' := Do(q, Insert(id, aggregate, payload, now, max, wait));
      if id in q.table then q' == q
      else
        && id in q'.table && q' == q.(table := q.table[id := q'.table[id]])
        && q'.table[id].aggregate == aggregate && q'.table[id].payload == payload && q'.table[id].maxAttempts == max && q'.table[id].attempt == 0
        && DueFrom(q'.table[id], now + wait)
  {}

  /** What is left of a message after an attempt: delivered, dead without attempts left, or due again. */
  ghost predicate AfterAttempt<P>(row: Row<P>, row': Row<P>, error: string, delay: Option<real>, now: real)
  {
    && row'.aggregate == row.aggregate && row'.payload == row.payload && row'.error == error
    && row'.attempt == row.attempt + 1 && row'.maxAttempts == row.maxAttempts
    && (if error == "" && delay.None? then row'.status == Sent
        else if row.maxAttempts <= row.attempt + 1 then row'.status == Dead
        else row'.status == Pending && DueFrom(row', now + if delay.Some? then delay.value else Backoff(row.attempt + 1, None)))
  }

  lemma Claims<P>(q: Queue<P>, w: nat, id: string, owner: string, now: real, lease: real)
    requires id in q.table && Eligible(q.table[id], now) && q.table[id].attempt < q.table[id].maxAttempts
    ensures var row := q.table[id]; var q' := Do(Do(q, Poll(w, [(id, row)], now)), TryNext(w, owner, now, lease));
      && w in q'.held && q'.held[w].id == id && w in q'.polled && q'.polled[w] == []
      && (id, row.fence + 1) in q'.grants && q'.grants[(id, row.fence + 1)] == w
      && q'.table == q.table[id := q'.held[w].row]
      && q'.held[w].row == row.(status := Running, owner := owner, fence := row.fence + 1, attempt := row.attempt + 1,
           leaseUntil := now + lease, version := row.version + 1)
  {
    var row := q.table[id];
    var q1 := Do(q, Poll(w, [(id, row)], now));
    assert DueRows(q.table, [(id, row)], now);
    assert q1.polled[w][0] == (id, row);
  }

  /** One undisturbed attempt at a due message ends as the worker says. */
  lemma UndisturbedAttemptEnds<P>(q: Queue<P>, w: nat, id: string, owner: string, now: real, lease: real, error: string, delay: Option<real>, checked: real, later: real)
    requires id in q.table && Eligible(q.table[id], now) && q.table[id].attempt < q.table[id].maxAttempts
    requires checked < now + lease
    ensures var row := q.table[id];
      var end := Run(q, [Poll(w, [(id, row)], now)] + ([TryNext(w, owner, now, lease)] + ([Close(w, error, delay, checked, later)] + [])));
      id in end.table && end.table == q.table[id := end.table[id]] && AfterAttempt(row, end.table[id], error, delay, later)
  {
    var row := q.table[id];
    Claims(q, w, id, owner, now, lease);
    ThreeSteps(q, Poll(w, [(id, row)], now), TryNext(w, owner, now, lease), Close(w, error, delay, checked, later));
    var q2 := Do(Do(q, Poll(w, [(id, row)], now)), TryNext(w, owner, now, lease));
    OwnedIff(q2.table, q2.held[w], checked);
    FinishReschedules(q2.table, q2.held[w], error, delay, checked, later);
  }

  /** A due message without attempts left, for instance because its last worker crashed, is closed by the next poll. */
  lemma UndisturbedPollBuries<P>(q: Queue<P>, w: nat, id: string, owner: string, now: real, lease: real)
    requires id in q.table && Eligible(q.table[id], now) && q.table[id].maxAttempts <= q.table[id].attempt
    ensures var q' := Do(Do(q, Poll(w, [(id, q.table[id])], now)), TryNext(w, owner, now, lease));
      && id in q'.table && q'.table == q.table[id := q'.table[id]] && q'.held == q.held && q'.grants == q.grants
      && q'.table[id].status == Dead && q'.table[id].error == "ATTEMPTS_EXHAUSTED" && w in q'.polled && q'.polled[w] == []
  {
    assert DueRows(q.table, [(id, q.table[id])], now);
    assert [(id, q.table[id])][1..] == [];
  }

  /** A candidate that has changed since the poll is passed over. */
  lemma ChangedIsPassedOver<P>(q: Queue<P>, w: nat, owner: string, now: real, lease: real)
    requires w in q.polled && q.polled[w] != []
    requires var (id, stale) := q.polled[w][0]; id !in q.table || q.table[id].version != stale.version
    ensures Do(q, TryNext(w, owner, now, lease)) == q.(polled := q.polled[w := q.polled[w][1..]])
  {}

  /** A terminal receipt takes every message of its operation out; an operator puts a finished one back, due at once. */
  lemma RetireAndReopen<P>(q: Queue<P>, aggregate: string, id: string, now: real)
    requires id in q.table
    ensures var q' := Do(q, Retire(aggregate));
      && id in q'.table && q'.held == q.held && q'.polled == q.polled && q'.grants == q.grants
      && (if q.table[id].aggregate == aggregate then q'.table[id].status == Sent && q'.table[id].attempt == q.table[id].attempt
          else q'.table[id] == q.table[id])
    ensures var q' := Do(q, Reopen(id, now));
      if q.table[id].status == Dead || q.table[id].status == Sent
      then
        && id in q'.table && q' == q.(table := q.table[id := q'.table[id]])
        && DueFrom(q'.table[id], now) && q'.table[id].maxAttempts - q.table[id].attempt == 12 && q'.table[id].attempt == q.table[id].attempt
      else q' == q
  {}

  /** A worker that crashes forgets its claim and its poll; the table keeps the claim until the lease ends. */
  lemma CrashForgets<P>(q: Queue<P>, w: nat, owner: string, now: real, lease: real, error: string, delay: Option<real>, checked: real)
    ensures var q' := Do(q, Crash(w));
      && q'.table == q.table && q'.grants == q.grants
      && Do(q', Close(w, error, delay, checked, now)) == q' && Do(q', TryNext(w, owner, now, lease)) == q'
      && (forall v :: v != w ==> (v in q'.held <==> v in q.held) && (v in q.held ==> q'.held[v] == q.held[v]))
  {}
}
