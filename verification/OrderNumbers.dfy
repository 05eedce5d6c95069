/** The broker numbers that the router caches: a cancel through the cache only ever reaches the client's own order. */
module OrderNumbers {
  import opened Domain
  import opened MatchingEngine
  import opened GatewayHistory
  import opened GatewayTheorems
  import opened GatewayReports
  import opened OrderRouter
  import opened RouterBroker
  import P = RouterProtocol

  /** A number that was handed out, and for no order but this client's. */
  predicate Own(accepted: Orders, sequence: nat, c: string, number: nat) {
    1 <= number <= sequence && (number in accepted ==> accepted[number].clientId == c)
  }

  /** Every cached number is the client's own, and that of its order if it has one. */
  ghost predicate CacheOwn(orderNo: map<string, nat>, accepted: Orders, sequence: nat, seen: set<string>) {
    && (forall c :: c in orderNo ==> c in seen && Own(accepted, sequence, c, orderNo[c]))
    && (forall id :: id in accepted && accepted[id].clientId in orderNo ==> orderNo[accepted[id].clientId] == id)
  }

  ghost predicate RepliesOwn(calls: map<nat, P.Call>, accepted: Orders, sequence: nat) {
    forall k :: k in calls && calls[k].reply.Some? ==>
      && calls[k].reply.value.brokerOrderId.Some?
      && Own(accepted, sequence, calls[k].request.clientId, calls[k].reply.value.brokerOrderId.value)
  }

  /** The number of every order whose acknowledgement was handled is in the cache. */
  ghost predicate AckedCached(orderNo: map<string, nat>, accepted: Orders, handled: Log) {
    forall id :: id in accepted && Answers(handled, id).0 > 0 ==> accepted[id].clientId in orderNo
  }

  ghost predicate Numbers(f: Floor) {
    && CacheOwn(f.s.r.orderNo, f.b.accepted, f.b.sequence, f.b.seen)
    && RepliesOwn(f.s.calls, f.b.accepted, f.b.sequence)
    && AckedCached(f.s.r.orderNo, f.b.accepted, f.handled) && AnsweredOnce(f.b)
  }

  // ---------------------------------------------------------------- the broker moves

  lemma OwnForGood(b: Book, b': Book)
    requires Later(b, b') && forall id :: id in b'.accepted ==> id in b.accepted || id > b.sequence
    ensures forall c, n :: Own(b.accepted, b.sequence, c, n) ==> Own(b'.accepted, b'.sequence, c, n)
  {
  }

  lemma OthersNumbered(cfg: Config, f: Floor, a: Action, s': P.System)
    requires Linked(cfg, f) && Numbers(f) && !a.Place? && s'.r == f.s.r && s'.calls == f.s.calls
    ensures Numbers(Floor(s', Step(cfg, f.b, a), f.handled, f.cleared))
  {
    var b' := Step(cfg, f.b, a);
    StepLater(cfg, f.b, a);
    StepLeaves(cfg, f.b, a);
    StepAnswersOnce(cfg, f.b, a);
    OwnForGood(f.b, b');
  }

  lemma ReplyNumbered(cfg: Config, f: Floor, call: nat, rejected: bool)
    requires Linked(cfg, f) && Numbers(f) && Enabled(f, Reply(call, rejected))
    ensures Numbers(Next(cfg, f, Reply(call, rejected)))
  {
    var r, b, ack := f.s.calls[call].request, f.b, Answer(f, call, rejected);
    var b' := PlaceOrder(cfg, b, r, rejected);
    assert r.clientId !in b.seen by { assert Get(f.s.replies, r.clientId) == 0; }
    PlaceNumbers(cfg, b, r, rejected);
    PlaceAnswersOnce(cfg, b, r, rejected);
    OwnForGood(b, b');
    RepliesNumbered(f.s.calls, b, b', call, ack);
    PlaceCached(f.s.r.orderNo, b, b', f.handled);
    CacheSurvives(f.s.r.orderNo, b, b', r);
  }

  /** A new order's client has no number yet. */
  lemma CacheSurvives(orderNo: map<string, nat>, b: Book, b': Book, r: OrderRequest)
    requires CacheOwn(orderNo, b.accepted, b.sequence, b.seen) && r.clientId !in b.seen && b.seen <= b'.seen
    requires forall c, n :: Own(b.accepted, b.sequence, c, n) ==> Own(b'.accepted, b'.sequence, c, n)
    requires b'.accepted in {b.accepted, b.accepted[b.sequence + 1 := r]}
    ensures CacheOwn(orderNo, b'.accepted, b'.sequence, b'.seen)
  {
  }

  /** A placement hands out the next number, for this client's order if it is accepted. */
  lemma PlaceNumbers(cfg: Config, b: Book, r: OrderRequest, rejected: bool)
    requires Invariant(cfg, b) && b.connected && r.clientId !in b.seen
    ensures var b' := PlaceOrder(cfg, b, r, rejected);
            && Later(b, b') && b'.sequence == b.sequence + 1 && b.seen <= b'.seen
            && b'.accepted == if rejected then b.accepted else b.accepted[b.sequence + 1 := r]
  {
    PlaceLater(cfg, b, r, rejected);
    PlaceAdmits(cfg, b, r, rejected);
    if !rejected { PlacedCounts(cfg, b, r); }
  }

  lemma PlacedCounts(cfg: Config, b: Book, r: OrderRequest)
    requires b.connected && r.clientId !in b.seen
    ensures PlaceOrder(cfg, b, r, false).sequence == b.sequence + 1
  {
    var b1, id := Register(b, r), b.sequence + 1;
    var ack := EnterAnswers(cfg, b1, id);
    assert EnterMarket(cfg, b1, id).sequence == id;
  }

  lemma RepliesNumbered(calls: map<nat, P.Call>, b: Book, b': Book, call: nat, ack: OrderAck)
    requires RepliesOwn(calls, b.accepted, b.sequence) && call in calls
    requires forall c, n :: Own(b.accepted, b.sequence, c, n) ==> Own(b'.accepted, b'.sequence, c, n)
    requires ack.brokerOrderId.Some?
    requires Own(b'.accepted, b'.sequence, calls[call].request.clientId, ack.brokerOrderId.value)
    ensures RepliesOwn(calls[call := calls[call].(reply := Some(ack))], b'.accepted, b'.sequence)
  {
  }

  /** Of the orders that come new, no acknowledgement is handled yet. */
  lemma PlaceCached(orderNo: map<string, nat>, b: Book, b': Book, handled: Log)
    requires AckedCached(orderNo, b.accepted, handled) && Extends(b.log, handled) && AnsweredOnce(b)
    requires forall id :: id in b'.accepted ==>
               if id in b.accepted then b'.accepted[id] == b.accepted[id] else id > b.sequence
    ensures AckedCached(orderNo, b'.accepted, handled)
  {
    forall id | id in b'.accepted && id !in b.accepted ensures Answers(handled, id).0 == 0 {
      AnswersGrow(b.log, handled, id);
    }
  }

  lemma {:induction false} AnswersGrow(log: Log, base: Log, id: nat)
    requires Extends(log, base)
    ensures Answers(base, id).0 <= Answers(log, id).0
  {
    if log != base { AnswersGrow(log.earlier, base, id); }
  }

  // ---------------------------------------------------------------- the router moves

  lemma FinishNumbered(cfg: Config, f: Floor, call: nat, ending: P.Ending, now: int)
    requires Linked(cfg, f) && Numbers(f) && Enabled(f, Finish(call, ending, now))
    ensures Numbers(Next(cfg, f, Finish(call, ending, now)))
  {
    var request, ack := f.s.calls[call].request, f.s.calls[call].reply.value;
    var r' := P.Conclude(f.s.r, request, ack, ending, now);
    FinishCaches(f.s.r, request, ack, ending, now);
    assert Kept(request, ack, f.b.log, f.b.accepted);
    assert Get(f.s.replies, request.clientId) == 1;
    if !ack.accepted {
      RefusedWasSeen(f.b.log, f.b.accepted, f.b.seen, f.b.sequence, request.clientId);
    }
    CacheOne(f.s.r.orderNo, f.b.accepted, f.b.sequence, f.b.seen, f.handled, request.clientId, ack.brokerOrderId.value);
  }

  /** The end of a submission that records its outcome. */
  predicate Caches(r: RouterState, request: OrderRequest, ending: P.Ending) {
    ending == P.Unchecked || (ending == P.Checked && request.clientId in r.inFlight)
  }

  lemma FinishCaches(r: RouterState, request: OrderRequest, ack: OrderAck, ending: P.Ending, now: int)
    requires ack.brokerOrderId.Some?
    ensures P.Conclude(r, request, ack, ending, now).orderNo
            == if Caches(r, request, ending) then r.orderNo[request.clientId := ack.brokerOrderId.value] else r.orderNo
  {
  }

  /** Caching a client's own number; if it has an accepted order, that order's number. */
  lemma CacheOne(orderNo: map<string, nat>, accepted: Orders, sequence: nat, seen: set<string>, handled: Log, c: string,
                 n: nat)
    requires CacheOwn(orderNo, accepted, sequence, seen) && AckedCached(orderNo, accepted, handled) && Unique(accepted)
    requires Own(accepted, sequence, c, n) && c in seen
    requires n in accepted || forall id :: id in accepted ==> accepted[id].clientId != c
    ensures CacheOwn(orderNo[c := n], accepted, sequence, seen) && AckedCached(orderNo[c := n], accepted, handled)
  {
  }

  lemma DeliverNumbered(cfg: Config, f: Floor, newId: string)
    requires Linked(cfg, f) && Numbers(f) && Enabled(f, Deliver(newId))
    ensures Numbers(Next(cfg, f, Deliver(newId)))
  {
    var e, orderNo := Waiting(f.b.log, f.handled), f.s.r.orderNo;
    WaitingNamed(f.b.log, f.handled, f.b.accepted, f.b.seen, f.b.sequence);
    ToldCaches(f.s.r, e, newId);
    if e.Acked? {
      CacheOne(orderNo, f.b.accepted, f.b.sequence, f.b.seen, f.handled, e.order.clientId, e.id);
      OneMoreHandled(orderNo[e.order.clientId := e.id], f.b.accepted, f.handled, e);
    } else {
      OneMoreHandled(orderNo, f.b.accepted, f.handled, e);
    }
  }

  lemma OneMoreHandled(orderNo: map<string, nat>, accepted: Orders, handled: Log, e: Event)
    requires AckedCached(orderNo, accepted, handled)
    requires e.Acked? ==> e.id in accepted && accepted[e.id] == e.order
                          && e.order.clientId in orderNo
    ensures AckedCached(orderNo, accepted, Then(handled, e))
  {
    forall id | id in accepted && id != e.id ensures Answers(Then(handled, e), id) == Answers(handled, id) {
    }
  }

  lemma ToldCaches(r: RouterState, e: Event, newId: string)
    ensures HandleEvent(r, Told(e), newId).0.orderNo
            == if e.Acked? then r.orderNo[e.order.clientId := e.id] else r.orderNo
  {
    if e.Filled? { assert RecordFill(r, e.order.clientId, e.quantity).orderNo == r.orderNo; }
  }

  // ---------------------------------------------------------------- every run

  lemma StepNumbered(cfg: Config, f: Floor, m: Move)
    requires Linked(cfg, f) && Numbers(f) && Enabled(f, m)
    ensures Numbers(Next(cfg, f, m))
  {
    match m
    case Reply(call, rejected) => ReplyNumbered(cfg, f, call, rejected);
    case Finish(call, ending, now) => FinishNumbered(cfg, f, call, ending, now);
    case Deliver(newId) => DeliverNumbered(cfg, f, newId);
    case Market(a) => OthersNumbered(cfg, f, a, f.s);
    case Sweep => OthersNumbered(cfg, f, CancelAll, P.Next(f.s, P.Sweep));
    case _ => QuietNumbered(cfg, f, m);
  }

  /** The other sections leave numbers and broker alone, and only begin or end submissions that are unanswered. */
  lemma QuietNumbered(cfg: Config, f: Floor, m: Move)
    requires Numbers(f) && Enabled(f, m) && !(m.Reply? || m.Finish? || m.Deliver? || m.Market? || m.Sweep?)
    ensures Numbers(Next(cfg, f, m))
  {
    var f' := Next(cfg, f, m);
    assert f'.s.r.orderNo == f.s.r.orderNo && f'.b == f.b && f'.handled == f.handled;
    assert forall k :: k in f'.s.calls && f'.s.calls[k].reply.Some? ==> k in f.s.calls && f'.s.calls[k] == f.s.calls[k];
  }

  lemma {:induction false} RunNumbered(cfg: Config, f: Floor, moves: seq<Move>, f': Floor)
    requires Linked(cfg, f) && Numbers(f) && Reaches(cfg, f, moves, f')
    ensures Linked(cfg, f') && Numbers(f')
    decreases |moves|
  {
    if moves != [] {
      StepLinked(cfg, f, moves[0]);
      StepNumbered(cfg, f, moves[0]);
      RunNumbered(cfg, Next(cfg, f, moves[0]), moves[1..], f');
    }
  }

  lemma ReachedNumbered(cfg: Config, price: real, moves: seq<Move>, f: Floor)
    requires Reaches(cfg, Opening(price), moves, f)
    ensures Linked(cfg, f) && Numbers(f)
  {
    OpeningLinked(cfg, price);
    NewBookAnswered(price);
    RunNumbered(cfg, Opening(price), moves, f);
  }

  /** In every run of router and broker together, a cancel under a client's cached number spares every other client. */
  lemma CacheReachesOwnOrder(cfg: Config, price: real, moves: seq<Move>, f: Floor, c: string)
    requires Reaches(cfg, Opening(price), moves, f) && c in f.s.r.orderNo
    ensures var after := CancelOrder(f.b, f.s.r.orderNo[c]).open;
            forall id :: id in f.b.open && f.b.open[id].request.clientId != c ==>
              id in after && after[id] == f.b.open[id]
  {
    ReachedNumbered(cfg, price, moves, f);
    assert Own(f.b.accepted, f.b.sequence, c, f.s.r.orderNo[c]);
  }

  lemma {:induction false} CacheOnlyGrows(cfg: Config, f: Floor, moves: seq<Move>, f': Floor)
    requires Reaches(cfg, f, moves, f')
    ensures f.s.r.orderNo.Keys <= f'.s.r.orderNo.Keys
    decreases |moves|
  {
    if moves != [] {
      StepKeepsCache(cfg, f, moves[0]);
      CacheOnlyGrows(cfg, Next(cfg, f, moves[0]), moves[1..], f');
    }
  }

  lemma StepKeepsCache(cfg: Config, f: Floor, m: Move)
    requires Enabled(f, m)
    ensures f.s.r.orderNo.Keys <= Next(cfg, f, m).s.r.orderNo.Keys
  {
    if m.Deliver? { ToldCaches(f.s.r, Waiting(f.b.log, f.handled), m.newId); }
  }

  /**
    The router has the number of an accepted order from the end of its submission on, unless the ledger had already
    given it up or could not be locked; and whatever happens later, the number stays the right one.
   */
  lemma FinishedIsCached(cfg: Config, price: real, moves: seq<Move>, f: Floor, call: nat, ending: P.Ending, now: int,
                         more: seq<Move>, f': Floor)
    requires Reaches(cfg, Opening(price), moves, f) && Enabled(f, Finish(call, ending, now))
    requires f.s.calls[call].reply.value.accepted && Caches(f.s.r, f.s.calls[call].request, ending)
    requires Reaches(cfg, Next(cfg, f, Finish(call, ending, now)), more, f')
    ensures var c, number := f.s.calls[call].request.clientId, f.s.calls[call].reply.value.brokerOrderId;
            c in f'.s.r.orderNo && number == Some(f'.s.r.orderNo[c])
  {
    var f1 := Next(cfg, f, Finish(call, ending, now));
    ReachedNumbered(cfg, price, moves, f);
    NumberedAfter(cfg, f, Finish(call, ending, now));
    JustCached(cfg, f, call, ending, now, f1.b, f1.s.r.orderNo);
    StaysCached(cfg, f1, f.s.calls[call].reply.value.brokerOrderId.value, more, f');
  }

  lemma NumberedAfter(cfg: Config, f: Floor, m: Move)
    requires Linked(cfg, f) && Numbers(f) && Enabled(f, m)
    ensures Linked(cfg, Next(cfg, f, m)) && Numbers(Next(cfg, f, m))
  {
    StepLinked(cfg, f, m);
    StepNumbered(cfg, f, m);
  }

  lemma JustCached(cfg: Config, f: Floor, call: nat, ending: P.Ending, now: int, b: Book, orderNo: map<string, nat>)
    requires Linked(cfg, f) && Enabled(f, Finish(call, ending, now))
    requires f.s.calls[call].reply.value.accepted && Caches(f.s.r, f.s.calls[call].request, ending)
    requires var f' := Next(cfg, f, Finish(call, ending, now)); b == f'.b && orderNo == f'.s.r.orderNo
    ensures var c, number := f.s.calls[call].request.clientId, f.s.calls[call].reply.value.brokerOrderId;
            number.Some? && number.value in b.accepted && b.accepted[number.value].clientId == c && c in orderNo
  {
    FinishRecords(f.s, f.b, f.cleared, call, ending, now);
  }

  lemma FinishRecords(s: P.System, b: Book, cleared: set<string>, call: nat, ending: P.Ending, now: int)
    requires Underway(s, b.log, b.accepted, cleared) && call in s.calls && s.calls[call].reply.Some?
    requires s.calls[call].reply.value.accepted && Caches(s.r, s.calls[call].request, ending)
    ensures var c, number := s.calls[call].request.clientId, s.calls[call].reply.value.brokerOrderId;
            && number.Some? && number.value in b.accepted && b.accepted[number.value].clientId == c
            && c in P.Conclude(s.r, s.calls[call].request, s.calls[call].reply.value, ending, now).orderNo
  {
    assert Kept(s.calls[call].request, s.calls[call].reply.value, b.log, b.accepted);
    FinishCaches(s.r, s.calls[call].request, s.calls[call].reply.value, ending, now);
  }

  lemma StaysCached(cfg: Config, f: Floor, number: nat, moves: seq<Move>, f': Floor)
    requires Linked(cfg, f) && Numbers(f) && Reaches(cfg, f, moves, f')
    requires number in f.b.accepted && f.b.accepted[number].clientId in f.s.r.orderNo
    ensures var c := f.b.accepted[number].clientId; c in f'.s.r.orderNo && f'.s.r.orderNo[c] == number
  {
    RunNumbered(cfg, f, moves, f');
    CacheOnlyGrows(cfg, f, moves, f');
    RunAccepts(cfg, f, moves, f');
  }

  lemma {:induction false} RunAccepts(cfg: Config, f: Floor, moves: seq<Move>, f': Floor)
    requires Linked(cfg, f) && Reaches(cfg, f, moves, f')
    ensures forall id :: id in f.b.accepted ==> id in f'.b.accepted && f'.b.accepted[id] == f.b.accepted[id]
    decreases |moves|
  {
    if moves != [] {
      StepLinked(cfg, f, moves[0]);
      StepAccepts(cfg, f, moves[0]);
      RunAccepts(cfg, Next(cfg, f, moves[0]), moves[1..], f');
    }
  }

  lemma StepAccepts(cfg: Config, f: Floor, m: Move)
    requires Linked(cfg, f) && Enabled(f, m)
    ensures Later(f.b, Next(cfg, f, m).b)
  {
    match m
    case Reply(call, rejected) => PlaceLater(cfg, f.b, f.s.calls[call].request, rejected);
    case Market(a) => StepLater(cfg, f.b, a);
    case Sweep => StepLater(cfg, f.b, CancelAll);
    case _ =>
  }

  /**
    Once the router has handled all events, it has the number of every order the broker ever accepted, and cancelling
    under it takes the order off the book.
   */
  lemma CacheIsComplete(cfg: Config, price: real, moves: seq<Move>, f: Floor, id: nat)
    requires Reaches(cfg, Opening(price), moves, f) && f.handled == f.b.log && id in f.b.accepted
    ensures var c := f.b.accepted[id].clientId;
            && c in f.s.r.orderNo && f.s.r.orderNo[c] == id && id !in CancelOrder(f.b, f.s.r.orderNo[c]).open
  {
    ReachedNumbered(cfg, price, moves, f);
    assert Answers(f.b.log, id) == (1, 0);
  }
}
