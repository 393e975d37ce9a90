/**
 Convergence of an operation under receipts that arrive in any order and any number of times,
 through any channel, mixed with attempts and unknown outcomes.
 */
module RefundConvergence {
  import opened Wrappers
  import opened LeaseQueues
  import opened RefundTables

  // ----- when the order of receipts cannot matter -----

  function Take(o: Operation, r: Receipt): Operation
  {
    if Absorbs(o, r) then Absorbed(o, r) else o
  }

  function Fold(o: Operation, rs: seq<Receipt>): Operation
  {
    if rs == [] then o else Take(Fold(o, rs[..|rs| - 1]), rs[|rs| - 1])
  }

  /** The business columns; the row version only counts writes. */
  datatype View = View(status: OpStatus, version: nat, reference: string, result: Option<Receipt>, error: string)

  function ViewOf(o: Operation): View
  {
    View(o.status, o.providerVersion, o.providerReference, o.result, o.error)
  }

  function Verdict(r: Receipt): View
  {
    View(StatusOf(r), r.version, r.refundId, Some(r), if r.status == Failed then "PROVIDER_REJECTED" else "")
  }

  ghost function Elements(rs: seq<Receipt>): set<Receipt>
  {
    set r | r in rs
  }

  ghost predicate Unanswered(o: Operation)
  {
    o.providerVersion == 0 && !Final(o.status)
  }

  /** One receipt per version, versions starting at one. */
  ghost predicate OnePerVersion(h: set<Receipt>)
  {
    && (forall r :: r in h ==> r.version >= 1)
    && (forall r, q :: r in h && q in h && r.version == q.version ==> r == q)
  }

  ghost predicate IsLatest(h: set<Receipt>, r: Receipt)
  {
    r in h && forall q :: q in h ==> q.version <= r.version
  }

  ghost predicate SuccessIsLatest(h: set<Receipt>)
  {
    forall r :: r in h && r.status == Succeeded ==> IsLatest(h, r)
  }

  /** All orders and repetitions of exactly the receipts of `h` end alike. */
  ghost predicate OrderFree(o: Operation, h: set<Receipt>)
  {
    forall a, b :: Elements(a) == h && Elements(b) == h ==> ViewOf(Fold(o, a)) == ViewOf(Fold(o, b))
  }

  lemma {:induction false} FoldConcat(o: Operation, a: seq<Receipt>, b: seq<Receipt>)
    ensures Fold(o, a + b) == Fold(Fold(o, a), b)
  {
    if b == [] {
      assert a + b == a;
    } else {
      assert (a + b)[..|a + b| - 1] == a + b[..|b| - 1];
      FoldConcat(o, a, b[..|b| - 1]);
    }
  }

  /** Provider versions never go back, and a recorded success is never overwritten. */
  lemma {:induction false} FoldMonotone(o: Operation, rs: seq<Receipt>)
    ensures Fold(o, rs).providerVersion >= o.providerVersion
    ensures o.status == OpSucceeded ==> Fold(o, rs) == o
  {
    if rs != [] {
      FoldMonotone(o, rs[..|rs| - 1]);
    }
  }

  /** When no success precedes a newer receipt, any schedule ends with the newest one it delivered. */
  lemma {:induction false} FoldIsLatest(o: Operation, rs: seq<Receipt>, h: set<Receipt>) returns (latest: Receipt)
    requires Unanswered(o) && OnePerVersion(h) && SuccessIsLatest(h)
    requires rs != [] && Elements(rs) <= h
    ensures IsLatest(Elements(rs), latest)
    ensures ViewOf(Fold(o, rs)) == Verdict(latest)
  {
    var last := rs[|rs| - 1];
    var front := rs[..|rs| - 1];
    assert rs == front + [last];
    assert last in Elements(rs);
    assert Elements(rs) == Elements(front) + {last};
    if front == [] {
      latest := last;
    } else {
      latest := FoldIsLatest(o, front, h);
      assert latest in Elements(rs);
      if last.version > latest.version {
        assert latest.status == Succeeded ==> IsLatest(h, latest);
        latest := last;
      }
    }
  }

  ghost function Listed(h: set<Receipt>): (rs: seq<Receipt>)
    ensures Elements(rs) == h
  {
    if h == {} then [] else
      var r :| r in h;
      var rest := Listed(h - {r});
      assert Elements([r] + rest) == {r} + Elements(rest);
      [r] + rest
  }

  lemma ElementsPrepend(r: Receipt, rs: seq<Receipt>)
    requires r in Elements(rs)
    ensures Elements([r] + rs) == Elements(rs)
  {}

  lemma NonemptyElements(rs: seq<Receipt>)
    ensures Elements(rs) == {} ==> rs == []
  {
    if rs != [] {
      assert rs[0] in rs;
      assert rs[0] in Elements(rs);
    }
  }

  /** A success with a newer receipt beside it: taking one or the other first differs for good. */
  lemma OrderMatters(o: Operation, h: set<Receipt>) returns (a: seq<Receipt>, b: seq<Receipt>)
    requires Unanswered(o) && OnePerVersion(h) && !SuccessIsLatest(h)
    ensures Elements(a) == h && Elements(b) == h
    ensures Fold(o, a).providerVersion < Fold(o, b).providerVersion
  {
    var success :| success in h && success.status == Succeeded && !IsLatest(h, success);
    var newer :| newer in h && newer.version > success.version;
    var rs := Listed(h);
    a, b := [success] + rs, [newer] + rs;
    ElementsPrepend(success, rs);
    ElementsPrepend(newer, rs);
    FoldConcat(o, [success], rs);
    FoldConcat(o, [newer], rs);
    assert Fold(o, [success]) == Take(Fold(o, []), success);
    assert Fold(o, [newer]) == Take(Fold(o, []), newer);
    FoldMonotone(Fold(o, [success]), rs);
    FoldMonotone(Fold(o, [newer]), rs);
  }

  /**
   The exact condition on the operation row: receipts commute if and only if no success is followed
   by a higher version. The provider sandbox meets it, because a success is always its last version;
   the workflow alone does not enforce it.
   */
  lemma ConvergesIff(o: Operation, h: set<Receipt>)
    requires Unanswered(o) && OnePerVersion(h)
    ensures OrderFree(o, h) <==> SuccessIsLatest(h)
  {
    if SuccessIsLatest(h) {
      forall a, b | Elements(a) == h && Elements(b) == h ensures ViewOf(Fold(o, a)) == ViewOf(Fold(o, b)) {
        if h == {} {
          NonemptyElements(a);
          NonemptyElements(b);
        } else {
          assert a != [] && b != [];
          var ra := FoldIsLatest(o, a, h);
          var rb := FoldIsLatest(o, b, h);
        }
      }
    } else {
      var a, b := OrderMatters(o, h);
      assert ViewOf(Fold(o, a)) != ViewOf(Fold(o, b));
    }
  }

  /** A receipt folded in once is never absorbed again. */
  lemma {:induction false} FoldKnows(o: Operation, rs: seq<Receipt>, r: Receipt)
    requires r in rs
    ensures !Absorbs(Fold(o, rs), r)
  {
    var front, last := rs[..|rs| - 1], rs[|rs| - 1];
    assert rs == front + [last];
    if r != last {
      FoldKnows(o, front, r);
    }
  }

  // ----- the same on the real tables, through the inbox -----

  /** Anything that may happen to one operation's tables between enqueue and the end. */
  datatype Event =
    | Delivery(receipt: Receipt, eventId: string, digest: Digest)
    | AttemptMarked(guard: Option<(Lease<Command>, real)>)
    | OutcomeUnknown(code: string, manual: bool, guard: Option<(Lease<Command>, real)>)

  ghost function Play(l: Tables, id: string, e: Event): Tables
  {
    match e
    case Delivery(r, eventId, digest) => ApplyReceiptTx(l, r, eventId, digest).0
    case AttemptMarked(guard) => MarkAttemptTx(l, id, guard).0
    case OutcomeUnknown(code, manual, guard) => MarkUnknownTx(l, id, code, manual, guard).0
  }

  ghost function PlayAll(l: Tables, id: string, es: seq<Event>): Tables
  {
    if es == [] then l else Play(PlayAll(l, id, es[..|es| - 1]), id, es[|es| - 1])
  }

  /** The receipts of a schedule, one for every delivery. */
  function Receipts(es: seq<Event>): seq<Receipt>
  {
    if es == [] then []
    else
      var e := es[|es| - 1];
      Receipts(es[..|es| - 1]) + if e.Delivery? then [e.receipt] else []
  }

  ghost function Delivered(es: seq<Event>): set<Receipt>
  {
    Elements(Receipts(es))
  }

  /** Receipts the workflow accepts for this operation: same identity, amount and refund. */
  ghost predicate Belongs(l: Tables, id: string, r: Receipt, refundId: string)
  {
    && id in l.ops && l.ops[id].caseId in l.cases
    && r.command == l.ops[id].request && r.command.key == l.ops[id].key
    && r.provider == l.ops[id].provider
    && r.refundId == refundId
    && l.cases[l.ops[id].caseId].userId == l.ops[id].userId
    && l.cases[l.ops[id].caseId].amountCents == r.amountCents
  }

  /** The operation accepts the receipts `h`, and its case shows what the operation shows. */
  ghost predicate Ready(l: Tables, id: string, h: set<Receipt>, refundId: string)
  {
    && UniqueKeys(l.ops)
    && (forall r {:trigger Belongs(l, id, r, refundId)} :: r in h ==> Belongs(l, id, r, refundId))
    && id in l.ops && l.ops[id].caseId in l.cases
    && var o := l.ops[id]; var c := l.cases[o.caseId];
    && (o.providerReference == "" || o.providerReference == refundId)
    && c.status == CaseStatusOf(o.status)
    && (o.result.Some? ==> c.result == o.result)
  }

  /** No receipt has been taken yet. */
  ghost predicate Start(l: Tables, id: string, h: set<Receipt>, refundId: string)
  {
    Ready(l, id, h, refundId) && Unanswered(l.ops[id]) && l.ops[id].result.None?
  }

  /** The events deliver receipts of `h`; an event id names one body and is new to the inbox. */
  ghost predicate Schedule(l: Tables, id: string, es: seq<Event>, h: set<Receipt>)
  {
    && id in l.ops
    && Delivered(es) <= h
    && (forall e :: e in es && e.Delivery? ==> e.digest.receipt == e.receipt)
    && (forall e :: e in es && e.Delivery? ==> (l.ops[id].provider, e.eventId) !in l.inbox)
    && (forall d, e :: d in es && e in es && d.Delivery? && e.Delivery? && d.eventId == e.eventId ==> d.digest == e.digest)
  }

  /** What receipts decide about a row; attempts and doubts move the other columns. */
  datatype Decision = Decision(decided: Option<OpStatus>, version: nat, reference: string, result: Option<Receipt>)

  function DecisionOf(o: Operation): Decision
  {
    Decision(if Final(o.status) then Some(o.status) else None, o.providerVersion, o.providerReference, o.result)
  }

  /** A worker's bookkeeping leaves identity and receipts alone and decides nothing. */
  predicate Undecided(o: Operation, o': Operation)
  {
    && o'.request == o.request && o'.key == o.key && o'.provider == o.provider && o'.caseId == o.caseId && o'.userId == o.userId
    && o'.providerReference == o.providerReference && o'.providerVersion == o.providerVersion && o'.result == o.result
    && (o'.status == o.status || (!Final(o.status) && !Final(o'.status)))
  }

  lemma MarkEffect(l: Tables, id: string, e: Event)
    requires id in l.ops && !e.Delivery?
    ensures var l' := Play(l, id, e); id in l'.ops && l' == l.(ops := l.ops[id := l'.ops[id]]) && Undecided(l.ops[id], l'.ops[id])
  {
    assert l.ops[id := l.ops[id]] == l.ops;
  }

  lemma MarkKeeps(l: Tables, id: string, e: Event, h: set<Receipt>, refundId: string)
    requires Ready(l, id, h, refundId) && !e.Delivery?
    ensures var l' := Play(l, id, e);
      && Ready(l', id, h, refundId)
      && DecisionOf(l'.ops[id]) == DecisionOf(l.ops[id])
      && l'.ops[id].provider == l.ops[id].provider && l'.ops[id].caseId == l.ops[id].caseId
      && l'.cases == l.cases && l'.inbox == l.inbox
  {
    MarkEffect(l, id, e);
    var l' := Play(l, id, e);
    forall r | r in h ensures Belongs(l', id, r, refundId) { assert Belongs(l, id, r, refundId); }
    forall a, b | SameKey(l'.ops, a, b) ensures a == b { assert SameKey(l.ops, a, b); }
  }

  /** A receipt whose event is new to the inbox reaches the business rows exactly as in the fold. */
  lemma DeliveryTakes(l: Tables, id: string, r: Receipt, eventId: string, digest: Digest, h: set<Receipt>, refundId: string)
    requires Ready(l, id, h, refundId) && r in h && (r.provider, eventId) !in l.inbox
    ensures var l' := ApplyReceiptTx(l, r, eventId, digest).0;
      && Ready(l', id, h, refundId)
      && l'.ops[id] == Take(l.ops[id], r)
      && (l'.ops[id].result.None? ==> l'.cases == l.cases)
      && l'.inbox.Keys == l.inbox.Keys + {(r.provider, eventId)}
      && l'.inbox[(r.provider, eventId)].digest == digest
      && (forall k :: k in l.inbox ==> l'.inbox[k] == l.inbox[k])
  {
    assert Belongs(l, id, r, refundId);
    assert HasKey(l.ops, id, r.command.key);
    assert SameKey(l.ops, id, FindByKey(l.ops, r.command.key).value);
    var l' := ApplyReceiptTx(l, r, eventId, digest).0;
    forall q | q in h ensures Belongs(l', id, q, refundId) { assert Belongs(l, id, q, refundId); }
    forall a, b | SameKey(l'.ops, a, b) ensures a == b { assert SameKey(l.ops, a, b); }
  }

  /** Taking a receipt is a function of the decision alone. */
  lemma TakeDecides(o: Operation, p: Operation, r: Receipt)
    requires DecisionOf(o) == DecisionOf(p)
    ensures DecisionOf(Take(o, r)) == DecisionOf(Take(p, r))
  {}

  ghost predicate Seen(seen: seq<Event>, eventId: string, digest: Digest)
  {
    exists d :: d in seen && d.Delivery? && d.eventId == eventId && d.digest == digest
  }

  /** An event of the schedule `all` that is in the inbox got there with an event of `seen`. */
  ghost predicate InboxTracks(l: Tables, seen: seq<Event>, all: seq<Event>, provider: string)
  {
    forall e {:trigger e in all} :: e in all && e.Delivery? && (provider, e.eventId) in l.inbox ==>
      Seen(seen, e.eventId, l.inbox[(provider, e.eventId)].digest)
  }

  lemma SeenGrows(l: Tables, front: seq<Event>, e: Event, all: seq<Event>, provider: string)
    requires InboxTracks(l, front, all, provider)
    ensures InboxTracks(l, front + [e], all, provider)
  {
    forall x | x in all && x.Delivery? && (provider, x.eventId) in l.inbox
      ensures Seen(front + [e], x.eventId, l.inbox[(provider, x.eventId)].digest)
    {
      var d :| d in front && d.Delivery? && d.eventId == x.eventId && d.digest == l.inbox[(provider, x.eventId)].digest;
      assert d in front + [e];
    }
  }

  lemma {:induction false} ReceiptsHold(es: seq<Event>, e: Event)
    requires e in es && e.Delivery?
    ensures e.receipt in Receipts(es)
  {
    var front, last := es[..|es| - 1], es[|es| - 1];
    assert es == front + [last];
    if e != last {
      ReceiptsHold(front, e);
    }
  }

  /** The tables after `es`, started at `l`, agree with the fold of the receipts delivered so far. */
  ghost predicate Follows(l: Tables, end: Tables, id: string, es: seq<Event>, all: seq<Event>, h: set<Receipt>, refundId: string)
    requires id in l.ops
  {
    && Ready(end, id, h, refundId)
    && end.ops[id].provider == l.ops[id].provider && end.ops[id].caseId == l.ops[id].caseId
    && DecisionOf(end.ops[id]) == DecisionOf(Fold(l.ops[id], Receipts(es)))
    && (end.ops[id].result.None? ==> end.cases == l.cases)
    && InboxTracks(end, es, all, l.ops[id].provider)
  }

  /**
   The tables refine the fold: repeated events stop at the inbox, attempts, timeouts and escalations
   decide nothing, and every other receipt is taken as the fold takes it.
   */
  lemma {:induction false} PlayFollows(l: Tables, id: string, es: seq<Event>, all: seq<Event>, h: set<Receipt>, refundId: string)
    requires Ready(l, id, h, refundId) && Schedule(l, id, all, h) && es <= all
    ensures Follows(l, PlayAll(l, id, es), id, es, all, h, refundId)
  {
    if es != [] {
      var front, e := es[..|es| - 1], es[|es| - 1];
      assert es == front + [e];
      assert e in all;
      PlayFollows(l, id, front, all, h, refundId);
      var m := PlayAll(l, id, front);
      if !e.Delivery? {
        MarkKeeps(m, id, e, h, refundId);
        assert Receipts(es) == Receipts(front);
        SeenGrows(m, front, e, all, l.ops[id].provider);
      } else {
        ReceiptsHold(all, e);
        assert Belongs(m, id, e.receipt, refundId);
        if (e.receipt.provider, e.eventId) in m.inbox {
          PlayAgain(l, m, id, front, e, all, h, refundId);
        } else {
          PlayFirst(l, m, id, front, e, all, h, refundId);
        }
      }
    }
  }

  lemma PlayAgain(l: Tables, m: Tables, id: string, front: seq<Event>, e: Event, all: seq<Event>, h: set<Receipt>, refundId: string)
    requires id in l.ops && Follows(l, m, id, front, all, h, refundId) && Schedule(l, id, all, h)
    requires e in all && e.Delivery? && front <= all && e.receipt.provider == l.ops[id].provider
    requires (e.receipt.provider, e.eventId) in m.inbox
    ensures Play(m, id, e) == m
    ensures Follows(l, m, id, front + [e], all, h, refundId)
  {
    var d :| d in front && d.Delivery? && d.eventId == e.eventId && d.digest == m.inbox[(e.receipt.provider, e.eventId)].digest;
    assert d in all;
    ReceiptsHold(front, d);
    FoldKnows(l.ops[id], Receipts(front), e.receipt);
    ReceiptsAppend(front, e);
    SeenGrows(m, front, e, all, l.ops[id].provider);
  }

  lemma ReceiptsAppend(front: seq<Event>, e: Event)
    requires e.Delivery?
    ensures Receipts(front + [e]) == Receipts(front) + [e.receipt]
    ensures forall o :: Fold(o, Receipts(front + [e])) == Take(Fold(o, Receipts(front)), e.receipt)
  {
    assert (front + [e])[..|front|] == front;
    var rs := Receipts(front) + [e.receipt];
    assert rs[..|rs| - 1] == Receipts(front);
  }

  lemma PlayFirst(l: Tables, m: Tables, id: string, front: seq<Event>, e: Event, all: seq<Event>, h: set<Receipt>, refundId: string)
    requires id in l.ops && Follows(l, m, id, front, all, h, refundId)
    requires e.Delivery? && e.receipt in h && e.receipt.provider == l.ops[id].provider
    requires (e.receipt.provider, e.eventId) !in m.inbox
    ensures Follows(l, Play(m, id, e), id, front + [e], all, h, refundId)
  {
    DeliveryTakes(m, id, e.receipt, e.eventId, e.digest, h, refundId);
    ReceiptsAppend(front, e);
    TakeDecides(m.ops[id], Fold(l.ops[id], Receipts(front)), e.receipt);
    var m' := Play(m, id, e);
    var provider := l.ops[id].provider;
    forall x | x in all && x.Delivery? && (provider, x.eventId) in m'.inbox
      ensures Seen(front + [e], x.eventId, m'.inbox[(provider, x.eventId)].digest)
    {
      if x.eventId == e.eventId {
        assert e in front + [e] && e.digest == m'.inbox[(provider, e.eventId)].digest;
      } else {
        var d :| d in front && d.Delivery? && d.eventId == x.eventId && d.digest == m.inbox[(provider, x.eventId)].digest;
        assert d in front + [e];
      }
    }
  }

  /** What the two business rows say about the refund in the end. */
  datatype Settlement = Settlement(decision: Decision, caseStatus: CaseStatus, caseResult: Option<Receipt>)

  ghost function SettlementOf(l: Tables, id: string): Option<Settlement>
  {
    if id !in l.ops || l.ops[id].caseId !in l.cases then None
    else
      var c := l.cases[l.ops[id].caseId];
      Some(Settlement(DecisionOf(l.ops[id]), c.status, c.result))
  }

  /** All schedules of exactly the receipts `h`, with whatever else in between, end alike. */
  ghost predicate TablesOrderFree(l: Tables, id: string, h: set<Receipt>)
  {
    forall a, b {:trigger Schedule(l, id, a, h), Schedule(l, id, b, h)} ::
      Schedule(l, id, a, h) && Schedule(l, id, b, h) && Delivered(a) == h && Delivered(b) == h ==>
        SettlementOf(PlayAll(l, id, a), id) == SettlementOf(PlayAll(l, id, b), id)
  }

  /** The case follows the decision, so the decision is all there is to compare. */
  lemma SettlementFollows(l: Tables, id: string, es: seq<Event>, h: set<Receipt>, refundId: string)
    requires Ready(l, id, h, refundId) && Schedule(l, id, es, h)
    ensures var d := DecisionOf(Fold(l.ops[id], Receipts(es)));
      SettlementOf(PlayAll(l, id, es), id) == Some(Settlement(d,
        if d.decided.Some? then CaseStatusOf(d.decided.value) else Processing,
        if d.result.Some? then d.result else l.cases[l.ops[id].caseId].result))
  {
    PlayFollows(l, id, es, es, h, refundId);
  }

  lemma LongerThanAll(used: set<string>) returns (n: nat)
    ensures forall s :: s in used ==> |s| < n
  {
    if used == {} {
      n := 0;
    } else {
      var s :| s in used;
      var m := LongerThanAll(used - {s});
      n := if |s| < m then m else |s| + 1;
    }
  }

  /** Any order of receipts can be delivered: every event id is new. */
  lemma {:induction false} ScheduleFor(rs: seq<Receipt>, used: set<string>) returns (es: seq<Event>)
    ensures Receipts(es) == rs
    ensures forall e :: e in es ==> e.Delivery? && e.digest == OfReceipt(e.receipt) && e.eventId !in used
    ensures forall d, e :: d in es && e in es && d.eventId == e.eventId ==> d == e
  {
    if rs == [] {
      es := [];
    } else {
      var last := rs[|rs| - 1];
      var n := LongerThanAll(used);
      var name := seq(n, _ => 'x');
      assert |name| == n;
      var front := ScheduleFor(rs[..|rs| - 1], used + {name});
      es := front + [Delivery(last, name, OfReceipt(last))];
      ReceiptsAppend(front, es[|front|]);
      assert rs == rs[..|rs| - 1] + [last];
    }
  }

  lemma DeliverInOrder(l: Tables, id: string, rs: seq<Receipt>, h: set<Receipt>) returns (es: seq<Event>)
    requires id in l.ops && Elements(rs) <= h
    ensures Schedule(l, id, es, h) && Receipts(es) == rs
  {
    var used := set k | k in l.inbox :: k.1;
    es := ScheduleFor(rs, used);
    assert forall k :: k in l.inbox ==> k.1 in used;
  }

  /**
   The exact condition on the tables themselves: from any operation nothing has been received for,
   all schedules of exactly the receipts `h` - repeated and reordered callbacks, polls and replies,
   attempts, timeouts and escalations in between - leave the same settlement in operation and case
   if and only if no success in `h` is followed by a higher version.
   */
  lemma TablesConvergeIff(l: Tables, id: string, h: set<Receipt>, refundId: string)
    requires Start(l, id, h, refundId) && OnePerVersion(h)
    ensures TablesOrderFree(l, id, h) <==> SuccessIsLatest(h)
  {
    var o := l.ops[id];
    ConvergesIff(o, h);
    if SuccessIsLatest(h) {
      forall a, b | Schedule(l, id, a, h) && Schedule(l, id, b, h) && Delivered(a) == h && Delivered(b) == h
        ensures SettlementOf(PlayAll(l, id, a), id) == SettlementOf(PlayAll(l, id, b), id)
      {
        SettlementFollows(l, id, a, h, refundId);
        SettlementFollows(l, id, b, h, refundId);
        assert ViewOf(Fold(o, Receipts(a))) == ViewOf(Fold(o, Receipts(b)));
      }
    } else {
      var ra, rb := OrderMatters(o, h);
      var a := DeliverInOrder(l, id, ra, h);
      var b := DeliverInOrder(l, id, rb, h);
      SettlementFollows(l, id, a, h, refundId);
      SettlementFollows(l, id, b, h, refundId);
      assert Delivered(a) == h && Delivered(b) == h;
    }
  }

  /**
   Where they converge to: two schedules that deliver the same receipts, the newest of them terminal,
   leave its verdict in the operation and in its case.
   */
  lemma SchedulesConverge(l: Tables, id: string, a: seq<Event>, b: seq<Event>, h: set<Receipt>, refundId: string, latest: Receipt)
    requires Start(l, id, h, refundId) && OnePerVersion(h) && SuccessIsLatest(h)
    requires Schedule(l, id, a, h) && Schedule(l, id, b, h)
    requires Delivered(a) == Delivered(b)
    requires IsLatest(Delivered(a), latest) && Terminal(latest)
    ensures forall es :: es == a || es == b ==>
      var end := PlayAll(l, id, es);
      && id in end.ops && end.ops[id].caseId in end.cases
      && var o := end.ops[id]; var c := end.cases[o.caseId];
      && o.status == StatusOf(latest) && o.providerVersion == latest.version
      && o.providerReference == latest.refundId && o.result == Some(latest)
      && c.status == CaseStatusOf(o.status) && c.result == Some(latest)
  {
    forall es | es == a || es == b
      ensures var end := PlayAll(l, id, es);
        && id in end.ops && end.ops[id].caseId in end.cases
        && var o := end.ops[id]; var c := end.cases[o.caseId];
        && o.status == StatusOf(latest) && o.providerVersion == latest.version
        && o.providerReference == latest.refundId && o.result == Some(latest)
        && c.status == CaseStatusOf(o.status) && c.result == Some(latest)
    {
      PlayFollows(l, id, es, es, h, refundId);
      assert Receipts(es) != [];
      var newest := FoldIsLatest(l.ops[id], Receipts(es), h);
      assert newest == latest;
    }
  }

  /** The starting point of convergence is what enqueue commits. */
  lemma EnqueueStarts(l: Tables, t: Template, actor: string, provider: string, message: string, now: real, h: set<Receipt>, refundId: string)
    requires UniqueKeys(l.ops)
    requires t.operationId !in l.ops
    requires t.operationId in EnqueueTx(l, t, actor, provider, message, now).0.ops
    requires var l' := EnqueueTx(l, t, actor, provider, message, now).0;
      forall r :: r in h ==> Belongs(l', t.operationId, r, refundId)
    ensures Start(EnqueueTx(l, t, actor, provider, message, now).0, t.operationId, h, refundId)
  {
    var l' := EnqueueTx(l, t, actor, provider, message, now).0;
    forall a, b | SameKey(l'.ops, a, b) && a != b ensures false {
      assert a in l.ops ==> !HasKey(l.ops, a, t.key);
      assert b in l.ops ==> !HasKey(l.ops, b, t.key);
      assert SameKey(l.ops, a, b);
    }
  }

  // ----- the witness -----

  predicate CaseShows(l: Tables, id: string, status: OpStatus, caseStatus: CaseStatus)
  {
    && id in l.ops && l.ops[id].caseId in l.cases
    && l.ops[id].status == status && l.cases[l.ops[id].caseId].status == caseStatus
  }

  lemma FoldTwo(o: Operation, first: Receipt, second: Receipt)
    ensures Fold(o, [first, second]) == Take(Take(o, first), second)
  {
    assert [first, second][..1] == [first];
    assert Fold(o, [first]) == Take(Fold(o, []), first);
  }

  lemma TwoReceipts(l: Tables, id: string, first: Receipt, second: Receipt, e: string, f: string)
    requires id in l.ops && l.inbox == map[] && e != f
    ensures var es := [Delivery(first, e, OfReceipt(first)), Delivery(second, f, OfReceipt(second))];
      Receipts(es) == [first, second] && Schedule(l, id, es, {first, second})
  {
    var es := [Delivery(first, e, OfReceipt(first)), Delivery(second, f, OfReceipt(second))];
    assert es[..1] == [es[0]] && [es[0]][..0] == [];
    assert Receipts([es[0]]) == [first];
  }

  /** Two verdicts delivered one after the other: what operation and case end with. */
  lemma TwoDeliveries(l: Tables, id: string, first: Receipt, second: Receipt, e: string, f: string, refundId: string)
    requires Start(l, id, {first, second}, refundId) && l.inbox == map[] && e != f
    requires first.version >= 1 && second.version >= 1 && Terminal(first) && Terminal(second)
    ensures var end := PlayAll(l, id, [Delivery(first, e, OfReceipt(first)), Delivery(second, f, OfReceipt(second))]);
      var status := if first.status == Succeeded || second.version <= first.version then StatusOf(first) else StatusOf(second);
      CaseShows(end, id, status, CaseStatusOf(status))
  {
    var es := [Delivery(first, e, OfReceipt(first)), Delivery(second, f, OfReceipt(second))];
    TwoReceipts(l, id, first, second, e, f);
    SettlementFollows(l, id, es, {first, second}, refundId);
    FoldTwo(l.ops[id], first, second);
  }

  /**
   The smallest failing input: of a refund just committed for case `c`, a success at version 1 and a
   failure at version 2. Delivered in order the case is completed, in the other order it has failed.
   */
  lemma LateFailureDiverges(l: Tables, t: Template, message: string, now: real, refundId: string)
    requires l.ops == map[] && l.inbox == map[] && message !in l.outbox && t.operationId !in l.jobs
    requires t.caseId in l.cases && l.cases[t.caseId].status == Approved && l.cases[t.caseId].userId == t.userId
    ensures var start := EnqueueTx(l, t, "agent", "commerce-sandbox", message, now).0; var c := l.cases[t.caseId];
      var command := Command(t.operationId, t.key, c.orderId, c.userId, c.reason);
      var success := Receipt(command, "commerce-sandbox", Succeeded, 1, refundId, c.amountCents);
      var failure := Receipt(command, "commerce-sandbox", Failed, 2, refundId, c.amountCents);
      var d, e := Delivery(success, "event-1", OfReceipt(success)), Delivery(failure, "event-2", OfReceipt(failure));
      && CaseShows(PlayAll(start, t.operationId, [d, e]), t.operationId, OpSucceeded, Completed)
      && CaseShows(PlayAll(start, t.operationId, [e, d]), t.operationId, OpFailed, ExecutionFailed)
  {
    assert forall id :: !HasKey(l.ops, id, t.key);
    var start := EnqueueTx(l, t, "agent", "commerce-sandbox", message, now).0;
    var c := l.cases[t.caseId];
    var command := Command(t.operationId, t.key, c.orderId, c.userId, c.reason);
    var success := Receipt(command, "commerce-sandbox", Succeeded, 1, refundId, c.amountCents);
    var failure := Receipt(command, "commerce-sandbox", Failed, 2, refundId, c.amountCents);
    EnqueueStarts(l, t, "agent", "commerce-sandbox", message, now, {success, failure}, refundId);
    assert {failure, success} == {success, failure};
    TwoDeliveries(start, t.operationId, success, failure, "event-1", "event-2", refundId);
    TwoDeliveries(start, t.operationId, failure, success, "event-2", "event-1", refundId);
  }
}
