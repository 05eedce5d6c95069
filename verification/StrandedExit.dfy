/**
  A strategy's exit at the paper broker. The engine sends a market exit as an immediate order; the broker
  fills what one match allows and cancels the rest; only the fill comes back to the strategy.
 */
module StrandedExit {
  import opened Domain
  import opened FifoLedger
  import opened MatchingEngine
  import opened GatewayHistory
  import opened CloseEffects
  import opened GatewayTurns
  import Router = OrderRouter
  import Base = StrategyBase
  import Rules = ScalpRules
  import Scalp = ScalpTheorems

  /** The order that the engine makes of a signal. */
  function RequestOf(x: Base.Signal, symbol: string, id: string, strategyId: string): OrderRequest
    requires x.quantity > 0
  {
    if x.limitPrice.Some? then Order(symbol, x.action, x.quantity, x.limitPrice, LMT, ROD, x.intent, id, strategyId)
    else Order(symbol, x.action, x.quantity, None, MKP, IOC, x.intent, id, strategyId)
  }

  /** An exit signal is for everything held, and leaves the strategy waiting for its fills. */
  lemma ExitSignalIsForAll(p: Rules.Params, s: Rules.Scalp, i: Rules.Input)
    requires Scalp.Sound(p, s)
    ensures var r := Rules.React(p, s, i);
            r.signals != [] && !r.signals[0].intent.Entry? ==>
              var x := r.signals[0];
              && r.next.state.ExitPending? && x.quantity == r.next.filled > 0
              && x.action == p.direction.Opposite() && x.intent.CloseOnly()
  {
    match i
    case Tick(price) =>
      if Base.Exposed(s.state) && s.filled > 0 { Scalp.CheckProtects(p, s.(latest := Some(price)), price, false); }
    case Fill(action, price, q) =>
      if s.state.EntryPending? && !Scalp.Refuses(p, s, i) {
        Scalp.ProtectProtects(p, Rules.Complete(p, Rules.Accumulate(p, s, price, q)), price);
      }
    case _ =>
  }

  /** The strategy once the broker's fill, if there was one, has been delivered to it. */
  function Delivered(p: Rules.Params, s: Rules.Scalp, filled: nat, price: real): Rules.Scalp {
    if filled == 0 then s else Rules.OnFill(p, s, p.direction.Opposite(), price, filled).next
  }

  /** Contracts that a market exit of so many gets at once. */
  function ExitFill(cfg: Config, b: Book, r: OrderRequest): nat {
    if Marketable(cfg, b, r) then Liquid(cfg, r.quantity) else 0
  }

  lemma BrokerExit(cfg: Config, b: Book, d: Direction, r: OrderRequest)
    requires Steady(cfg, b) && b.connected && r.clientId !in b.seen
    requires r.priceType.MKP? && r.tif.IOC? && r.intent.CloseOnly() && r.action == d.Opposite()
    requires Signed(d, NetOf(b, r.symbol)) >= r.quantity
    ensures var b' := PlaceOrder(cfg, b, r, false);
            && Signed(d, NetOf(b', r.symbol)) == Signed(d, NetOf(b, r.symbol)) - ExitFill(cfg, b, r)
            && (Marketable(cfg, b, r) ==> b'.open == b.open)
  {
    CloseOrderEffect(cfg, b, r);
    CachedNet(b, cfg.pointValue, r.symbol);
  }

  lemma FillDelivered(p: Rules.Params, s: Rules.Scalp, x: nat, price: real)
    requires s.state.ExitPending? && x <= s.filled && s.filled > 0
    ensures var s' := Delivered(p, s, x, price);
            && s'.filled == s.filled - x
            && s'.state == (if x == s.filled then Base.Closed else Base.ExitPending)
  {
  }

  /** Held contracts that one match cannot close. */
  function Beyond(cfg: Config, held: nat): nat {
    match cfg.maxFill
    case Some(m) => Max(0, held - m)
    case None => 0
  }

  /**
    A market exit for everything held, at a broker that holds at least as much on that side. Broker and
    strategy lose the same contracts: all that one match allows. Unless the price is locked, nothing of the
    order keeps working; so with m contracts of liquidity the strategy still holds max(0, held - m).
   */
  lemma MarketExit(cfg: Config, b: Book, p: Rules.Params, s: Rules.Scalp, r: OrderRequest, price: real)
    requires Steady(cfg, b) && b.connected && r.clientId !in b.seen
    requires s.state.ExitPending? && r.quantity == s.filled && r.action == p.direction.Opposite()
    requires r.priceType.MKP? && r.tif.IOC? && r.intent.CloseOnly()
    requires Signed(p.direction, NetOf(b, r.symbol)) >= s.filled
    ensures var b', x := PlaceOrder(cfg, b, r, false), ExitFill(cfg, b, r);
            var s' := Delivered(p, s, x, price);
            && Signed(p.direction, NetOf(b', r.symbol)) == Signed(p.direction, NetOf(b, r.symbol)) - x
            && s'.filled == (if Marketable(cfg, b, r) then Beyond(cfg, s.filled) else s.filled) == s.filled - x
            && (Marketable(cfg, b, r) ==> b'.open == b.open)
            && s'.state == (if s'.filled == 0 then Base.Closed else Base.ExitPending)
  {
    BrokerExit(cfg, b, p.direction, r);
    FillDelivered(p, s, ExitFill(cfg, b, r), price);
  }

  /** Whatever an exit left behind, no tick, command or reject makes the strategy send another order for it. */
  lemma {:induction false} NeverAgain(p: Rules.Params, h: Scalp.History, inputs: seq<Rules.Input>)
    requires h.s.state in {Base.ExitPending, Base.Error, Base.Aborted} && (h.s.state.ExitPending? ==> h.s.filled > 0)
    requires forall i :: 0 <= i < |inputs| ==> !inputs[i].Fill?
    ensures var h' := Scalp.Follow(p, h, inputs);
            h'.s.filled == h.s.filled && h'.entries == h.entries && h'.exits == h.exits
    decreases |inputs|
  {
    if inputs != [] {
      var next := Scalp.Record(p, h, inputs[0]);
      assert next.entries == h.entries && next.exits == h.exits + [] == h.exits;
      NeverAgain(p, next, inputs[1..]);
    }
  }

  /**
    The whole way: an event makes the strategy emit a market exit, the broker answers it, and the fill comes
    back. The exit is complete exactly when the price is not locked and one match holds the whole quantity;
    otherwise contracts stay with a strategy that sends no further order for them, whatever prices follow.
   */
  lemma ExitStrandsExactlyWhen(cfg: Config, b: Book, p: Rules.Params, s: Rules.Scalp, i: Rules.Input,
                               symbol: string, id: string, strategyId: string, price: real, later: seq<Rules.Input>)
    requires Scalp.Sound(p, s) && Steady(cfg, b) && b.connected && id !in b.seen
    requires var r := Rules.React(p, s, i);
             && r.signals != [] && !r.signals[0].intent.Entry? && r.signals[0].limitPrice.None?
             && Signed(p.direction, NetOf(b, symbol)) >= r.next.filled
    requires forall k :: 0 <= k < |later| ==> !later[k].Fill?
    ensures var r := Rules.React(p, s, i);
            r.signals[0].quantity > 0
    ensures var r := Rules.React(p, s, i);
            var order := RequestOf(r.signals[0], symbol, id, strategyId);
            var after := Delivered(p, r.next, ExitFill(cfg, b, order), price);
            var end := Scalp.Follow(p, Scalp.FRESH_HISTORY.(s := after), later);
            && (after.filled == 0 <==>
                  && Marketable(cfg, b, order)
                  && (cfg.maxFill.Some? ==> r.next.filled <= cfg.maxFill.value))
            && (after.filled > 0 ==> end.s.filled == after.filled && end.exits == [])
  {
    var r := Rules.React(p, s, i);
    ExitSignalIsForAll(p, s, i);
    var order := RequestOf(r.signals[0], symbol, id, strategyId);
    MarketExit(cfg, b, p, r.next, order, price);
    var after := Delivered(p, r.next, ExitFill(cfg, b, order), price);
    if after.filled > 0 {
      NeverAgain(p, Scalp.FRESH_HISTORY.(s := after), later);
    }
  }

  // ---------------------------------------------------------------- exits at a limit

  /** Contracts of the strategy's order that the broker still works. */
  function AtWork(b: Book, id: nat): nat {
    OnBook(b.open, id)
  }

  /**
    An exit at a limit strands nothing: at a broker that holds at least as much on that side, the contracts the strategy
    holds after what its order gets at once are exactly those the order still works for.
   */
  lemma LimitExitKeepsWorking(cfg: Config, b: Book, p: Rules.Params, s: Rules.Scalp, i: Rules.Input,
                              symbol: string, id: string, strategyId: string, price: real)
    requires Scalp.Sound(p, s) && Steady(cfg, b) && b.connected && id !in b.seen
    requires var r := Rules.React(p, s, i);
             && r.signals != [] && !r.signals[0].intent.Entry? && r.signals[0].limitPrice.Some?
             && Signed(p.direction, NetOf(b, symbol)) >= r.next.filled
    ensures var r := Rules.React(p, s, i);
            r.signals[0].quantity > 0
    ensures var r := Rules.React(p, s, i);
            var order := RequestOf(r.signals[0], symbol, id, strategyId);
            var b' := PlaceOrder(cfg, b, order, false);
            var x := Due(cfg, b, Pending(order, b.sequence + 1, order.quantity, 0), b.latest);
            && x <= r.next.filled && Signed(p.direction, NetOf(b', symbol)) == Signed(p.direction, NetOf(b, symbol)) - x
            && Delivered(p, r.next, x, price).filled == AtWork(b', b.sequence + 1)
  {
    var r := Rules.React(p, s, i);
    ExitSignalIsForAll(p, s, i);
    var order := RequestOf(r.signals[0], symbol, id, strategyId);
    var x := Due(cfg, b, Pending(order, b.sequence + 1, order.quantity, 0), b.latest);
    PlacedAsServed(cfg, b, order, Register(b, order), PlaceOrder(cfg, b, order, false));
    LimitCloseShrinks(cfg, b, Register(b, order), PlaceOrder(cfg, b, order, false), b.sequence + 1, p.direction);
    FillDelivered(p, r.next, x, price);
  }

  lemma PlacedAsServed(cfg: Config, b: Book, r: OrderRequest, b1: Book, b': Book)
    requires Steady(cfg, b) && b.connected && r.clientId !in b.seen
    requires b1 == Register(b, r) && b' == PlaceOrder(cfg, b, r, false)
    ensures var id := b.sequence + 1;
            && id in b1.open && b1.open[id] == Pending(r, id, r.quantity, 0)
            && b1.lots == b.lots && b1.limits == b.limits
            && Served(cfg, b1, b', id, b.latest, true)
  {
    PlacedIsServed(cfg, b, r);
  }

  lemma LimitCloseShrinks(cfg: Config, b: Book, b1: Book, b': Book, id: nat, d: Direction)
    requires id in b1.open && b1.open[id].remaining == b1.open[id].request.quantity
    requires b1.lots == b.lots && b1.limits == b.limits && Served(cfg, b1, b', id, b.latest, true)
    requires var r := b1.open[id].request;
             && r.tif == ROD && r.intent.CloseOnly() && r.action == d.Opposite()
             && Signed(d, NetOf(b, r.symbol)) >= r.quantity
    ensures var r := b1.open[id].request;
            var x := Due(cfg, b, b1.open[id], b.latest);
            && x <= r.quantity && OnBook(b'.open, id) == r.quantity - x
            && Signed(d, NetOf(b', r.symbol)) == Signed(d, NetOf(b, r.symbol)) - x
  {
  }

  // ---------------------------------------------------------------- exits and their own entry

  /** The exit of a strategy first gets the strategy's own entry out of the way. */
  lemma OwnEntryIsInTheWay(entry: Base.Signal, exit: Base.Signal, symbol: string, id1: string, id2: string,
                           strategyId: string)
    requires entry.quantity > 0 && exit.quantity > 0 && strategyId != ""
    requires entry.intent == Entry && exit.intent != Entry
    ensures Router.InTheWay(RequestOf(exit, symbol, id2, strategyId), RequestOf(entry, symbol, id1, strategyId))
  {
  }
}
