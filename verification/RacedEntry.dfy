/**
  A race inside one submission: the broker queues the events of an immediate entry before its call returns, so
  the router may handle them before the submission ends. Then it takes the entry for one that a cancel-all
  orphaned, and closes its whole quantity.
 */
module RacedEntry {
  import opened Domain
  import opened FifoLedger
  import opened MatchingEngine
  import opened GatewayHistory
  import opened GatewayTheorems
  import opened OrderRouter
  import opened CloseEffects
  import opened RouterBroker
  import P = RouterProtocol
  import Prices = GatewayPrices
  import Bound = RiskBound

  /** The price is one that the market has reached and the daily limits lock. */
  predicate Locked(cfg: Config, b: Book, r: OrderRequest) {
    (r.priceType.LMT? ==> Crossed(r, b.latest)) && !Within(b.limits, OrderPrice(cfg, r, b.latest))
  }

  /** Exposure on the entry's side once an order for q contracts was sent against it, if the market takes one. */
  function Undone(cfg: Config, n: int, q: nat, taken: bool): int {
    if taken && n > 0 then n - Liquid(cfg, Min(n, q)) else n
  }

  /**
    From book b the entry r led to book b'; neutralizing it there takes up to its whole quantity from the
    exposure before it and what it filled, whatever it filled.
   */
  predicate UndoneWhole(cfg: Config, b: Book, r: OrderRequest, b': Book, newId: string) {
    var n := Signed(r.action, NetOf(b, r.symbol)) + Bound.AtOnce(cfg, b, r);
    var taken := Marketable(cfg, b', Compensation(r.symbol, r.action, r.quantity, newId));
    Signed(r.action, NetOf(Neutralize(cfg, b', b'.sequence, r, newId), r.symbol)) == Undone(cfg, n, r.quantity, taken)
  }

  lemma UndoneIs(cfg: Config, b: Book, id: nat, r: OrderRequest, newId: string, n: int)
    requires id !in b.open && n == Signed(r.action, NetOf(b, r.symbol))
    ensures (if KeptAsIs(cfg, b, id, r, newId) then n else n - Liquid(cfg, Min(n, r.quantity)))
            == Undone(cfg, n, r.quantity, Marketable(cfg, b, Compensation(r.symbol, r.action, r.quantity, newId)))
  {
  }

  /** Neutralizing an entry that is finished at the broker undoes its whole quantity, whatever it had filled. */
  lemma NeutralizedExposure(cfg: Config, b: Book, r: OrderRequest, b': Book, newId: string)
    requires Bound.Lands(cfg, b, r, b') && b.connected && Steady(cfg, b') && b'.sequence !in b'.open
             && newId !in b'.seen
    ensures UndoneWhole(cfg, b, r, b', newId)
  {
    LateEntryNeutralized(cfg, b', b'.sequence, r, newId);
    UndoneIs(cfg, b', b'.sequence, r, newId, Signed(r.action, NetOf(b', r.symbol)));
  }

  lemma RacedExposure(cfg: Config, b: Book, r: OrderRequest, b': Book, newId: string)
    requires Steady(cfg, b) && Bound.Accepts(b, r) && r.intent.Entry? && b' == PlaceOrder(cfg, b, r, false)
    requires Steady(cfg, b') && b'.sequence !in b'.open && newId !in b'.seen
    ensures UndoneWhole(cfg, b, r, b', newId)
  {
    Bound.EntryLands(cfg, b, r);
    NeutralizedExposure(cfg, b, r, b', newId);
  }

  /** The router at f1 after the broker took the order of a submission at f. */
  predicate Taken(f: Floor, call: nat, f1: Floor)
    requires call in f.s.calls
  {
    && f1.s.calls == f.s.calls[call := f.s.calls[call].(reply := Some(Answer(f, call, false)))]
    && f1.s.r == f.s.r && f1.cleared == f.cleared
  }

  lemma TakenAnswer(f: Floor, call: nat, f1: Floor)
    requires call in f.s.calls && Taken(f, call, f1) && f1.b.sequence == f.b.sequence + 1
    ensures var ack := Answer(f, call, false);
            && call in f1.s.calls && f1.s.calls[call].request == f.s.calls[call].request
            && f1.s.calls[call].reply == Some(ack) && ack.accepted && ack.brokerOrderId == Some(f1.b.sequence)
  {
  }

  lemma ReplyTakes(cfg: Config, f: Floor, call: nat)
    requires Linked(cfg, f) && Enabled(f, Reply(call, false))
    ensures Taken(f, call, Next(cfg, f, Reply(call, false))) && Linked(cfg, Next(cfg, f, Reply(call, false)))
    ensures Bound.Accepts(f.b, f.s.calls[call].request) && Steady(cfg, f.b)
  {
    StepLinked(cfg, f, Reply(call, false));
    assert Get(f.s.replies, f.s.calls[call].request.clientId) == 0;
  }

  lemma SteadyWhenLinked(cfg: Config, f: Floor)
    requires Linked(cfg, f)
    ensures Steady(cfg, f.b)
  {
  }

  /** The order of an immediate submission has left the book when its call returns. */
  lemma LeftAtOnce(cfg: Config, b: Book, r: OrderRequest, b': Book)
    requires Bound.Accepts(b, r) && b' == PlaceOrder(cfg, b, r, false) && !r.tif.ROD? && !Locked(cfg, b, r)
    ensures b'.sequence == b.sequence + 1 && b'.sequence !in b'.open
  {
    Prices.ImmediateRestsExactlyWhen(cfg, b, r);
    PlacedNumber(cfg, b, r);
  }

  lemma PlacedNumber(cfg: Config, b: Book, r: OrderRequest)
    requires Bound.Accepts(b, r)
    ensures PlaceOrder(cfg, b, r, false).sequence == b.sequence + 1
  {
    PlacedAs(cfg, b, r);
  }

  /** Before its events are handled, a submission that was not cleared is not orphaned. */
  lemma NotYetOrphaned(cfg: Config, f: Floor, call: nat, f1: Floor, now: int)
    requires Linked(cfg, f) && call in f.s.calls && f.s.calls[call].reply.None? && Taken(f, call, f1)
    requires f.s.calls[call].request.clientId !in f.cleared
    ensures P.Enabled(f1.s, P.Finish(call, P.Checked, now)) && !P.Neutralizes(f1.s, P.Finish(call, P.Checked, now))
  {
  }

  /** Once they are, it is. */
  lemma OrphanedAtFinish(cfg: Config, f1: Floor, call: nat, ack: OrderAck, delivers: seq<Move>, f2: Floor, now: int)
    requires Linked(cfg, f1) && call in f1.s.calls && f1.s.calls[call].request.intent.Entry?
    requires f1.s.calls[call].reply == Some(ack) && ack.accepted && ack.brokerOrderId == Some(f1.b.sequence)
    requires OnlyDelivers(delivers) && Reaches(cfg, f1, delivers, f2) && f2.handled == f2.b.log
    requires f1.b.sequence !in f1.b.open
    ensures f2.b == f1.b && Linked(cfg, f2)
    ensures P.Enabled(f2.s, P.Finish(call, P.Checked, now)) && P.Neutralizes(f2.s, P.Finish(call, P.Checked, now))
  {
    RunLinked(cfg, f1, delivers, f2);
    DeliversKeep(cfg, f1, delivers, f2);
    NeutralizedExactlyWhen(cfg, f2, call, now);
  }

  /**
    A run in which the broker takes an immediate entry whose price is not locked, and in which the router
    handles all events before the submission goes on.
   */
  ghost predicate Raced(cfg: Config, price: real, moves: seq<Move>, f: Floor, call: nat, delivers: seq<Move>,
                        f2: Floor) {
    && Reaches(cfg, Opening(price), moves, f) && Enabled(f, Reply(call, false))
    && f.s.calls[call].request.intent.Entry? && !f.s.calls[call].request.tif.ROD?
    && !Locked(cfg, f.b, f.s.calls[call].request)
    && OnlyDelivers(delivers) && Reaches(cfg, Next(cfg, f, Reply(call, false)), delivers, f2)
    && f2.handled == f2.b.log
  }

  lemma RacedLinked(cfg: Config, price: real, moves: seq<Move>, f: Floor, call: nat, delivers: seq<Move>, f2: Floor)
    requires Raced(cfg, price, moves, f, call, delivers, f2)
    ensures Linked(cfg, f)
    ensures Taken(f, call, Next(cfg, f, Reply(call, false))) && Linked(cfg, Next(cfg, f, Reply(call, false)))
    ensures Bound.Accepts(f.b, f.s.calls[call].request) && Steady(cfg, f.b)
  {
    OpeningLinked(cfg, price);
    RunLinked(cfg, Opening(price), moves, f);
    ReplyTakes(cfg, f, call);
  }

  /** The order has left the book by the time its call returns. */
  lemma RacedLeft(cfg: Config, price: real, moves: seq<Move>, f: Floor, call: nat, delivers: seq<Move>, f2: Floor)
    requires Raced(cfg, price, moves, f, call, delivers, f2)
    ensures var b' := Next(cfg, f, Reply(call, false)).b;
            b'.sequence == f.b.sequence + 1 && b'.sequence !in b'.open && f2.b == b'
  {
    var f1 := Next(cfg, f, Reply(call, false));
    RacedLinked(cfg, price, moves, f, call, delivers, f2);
    DeliversKeep(cfg, f1, delivers, f2);
    LeftAtOnce(cfg, f.b, f.s.calls[call].request, f1.b);
  }

  /**
    In every such run the submission ends by neutralizing the entry. Ended before its events are handled, the
    same submission does not, unless a cancel-all has cleared its id.
   */
  lemma RacedEntryIsOrphaned(cfg: Config, price: real, moves: seq<Move>, f: Floor, call: nat,
                             delivers: seq<Move>, f2: Floor, now: int)
    requires Raced(cfg, price, moves, f, call, delivers, f2)
    ensures P.Enabled(f2.s, P.Finish(call, P.Checked, now)) && P.Neutralizes(f2.s, P.Finish(call, P.Checked, now))
    ensures var f1 := Next(cfg, f, Reply(call, false));
            && P.Enabled(f1.s, P.Finish(call, P.Checked, now))
            && (f.s.calls[call].request.clientId !in f.cleared ==> !P.Neutralizes(f1.s, P.Finish(call, P.Checked, now)))
  {
    var f1 := Next(cfg, f, Reply(call, false));
    RacedLinked(cfg, price, moves, f, call, delivers, f2);
    RacedLeft(cfg, price, moves, f, call, delivers, f2);
    TakenAnswer(f, call, f1);
    OrphanedAtFinish(cfg, f1, call, Answer(f, call, false), delivers, f2, now);
    if f.s.calls[call].request.clientId !in f.cleared { NotYetOrphaned(cfg, f, call, f1, now); }
  }

  /** The broker at the end of such a run. */
  lemma RacedBook(cfg: Config, price: real, moves: seq<Move>, f: Floor, call: nat, delivers: seq<Move>, f2: Floor)
    requires Raced(cfg, price, moves, f, call, delivers, f2)
    ensures Bound.Accepts(f.b, f.s.calls[call].request) && Steady(cfg, f.b) && Steady(cfg, f2.b)
    ensures f2.b == PlaceOrder(cfg, f.b, f.s.calls[call].request, false) && f2.b.sequence !in f2.b.open
  {
    var f1 := Next(cfg, f, Reply(call, false));
    RacedLinked(cfg, price, moves, f, call, delivers, f2);
    RacedLeft(cfg, price, moves, f, call, delivers, f2);
    SteadyWhenLinked(cfg, f1);
  }

  /**
    Neutralizing the entry then closes up to its whole quantity, not what it had filled: of the exposure before
    it and its fill together, what one match leaves remains.
   */
  lemma RacedEntryIsUndone(cfg: Config, price: real, moves: seq<Move>, f: Floor, call: nat,
                           delivers: seq<Move>, f2: Floor, newId: string)
    requires Raced(cfg, price, moves, f, call, delivers, f2) && newId !in f2.b.seen
    ensures UndoneWhole(cfg, f.b, f.s.calls[call].request, f2.b, newId)
  {
    RacedBook(cfg, price, moves, f, call, delivers, f2);
    RacedExposure(cfg, f.b, f.s.calls[call].request, f2.b, newId);
  }

  // ---------------------------------------------------------------- such runs exist

  function Unhandled(log: Log, handled: Log): nat
    requires Extends(log, handled)
    decreases log
  {
    if log == handled then 0 else 1 + Unhandled(log.earlier, handled)
  }

  lemma {:induction false} OneFewer(log: Log, handled: Log)
    requires Extends(log, handled) && log != handled
    ensures var next := Then(handled, Waiting(log, handled));
            Extends(log, next) && Unhandled(log, next) == Unhandled(log, handled) - 1
    decreases log
  {
    if log.earlier != handled { OneFewer(log.earlier, handled); }
  }

  /** Whatever is waiting can be handled. */
  lemma {:induction false} AllCanBeHandled(cfg: Config, f: Floor) returns (delivers: seq<Move>, f2: Floor)
    requires Extends(f.b.log, f.handled)
    ensures OnlyDelivers(delivers) && Reaches(cfg, f, delivers, f2) && f2.handled == f2.b.log
    decreases Unhandled(f.b.log, f.handled)
  {
    if f.b.log == f.handled {
      delivers, f2 := [], f;
    } else {
      var rest;
      OneFewer(f.b.log, f.handled);
      rest, f2 := AllCanBeHandled(cfg, Next(cfg, f, Deliver("")));
      delivers := [Deliver("")] + rest;
      assert delivers[1..] == rest;
    }
  }

  /** The first immediate entry of a newly connected broker can be raced, whatever it is. */
  lemma RaceHappens(cfg: Config, price: real, r: OrderRequest)
    returns (moves: seq<Move>, f: Floor, delivers: seq<Move>, f2: Floor)
    requires r.intent.Entry? && !r.tif.ROD?
    ensures Raced(cfg, price, moves, f, 0, delivers, f2) && f.s.calls[0].request == r && f.cleared == {}
  {
    moves := [Market(Connect), Begin(0, r)];
    var f1 := Next(cfg, Opening(price), Market(Connect));
    f := Next(cfg, f1, Begin(0, r));
    assert moves[1..] == [Begin(0, r)] && [Begin(0, r)][1..] == [];
    assert Reaches(cfg, f, [], f);
    assert Reaches(cfg, f1, [Begin(0, r)], f);
    assert Reaches(cfg, Opening(price), moves, f);
    OpeningLinked(cfg, price);
    RunLinked(cfg, Opening(price), moves, f);
    StepLinked(cfg, f, Reply(0, false));
    delivers, f2 := AllCanBeHandled(cfg, Next(cfg, f, Reply(0, false)));
  }
}
