/** When the paper broker trades, how much, and at what price. */
module GatewayPrices {
  import opened Domain
  import opened MatchingEngine
  import opened GatewayHistory
  import opened GatewayTheorems
  import opened CloseEffects

  /** A price at least as good as another for someone trading in this direction. */
  predicate AtLeastAsGood(action: Direction, price: real, than: real) {
    if action.Long? then price <= than else price >= than
  }

  /** The contracts an order could trade if liquidity were unlimited. */
  function Wanted(b: Book, p: Pending): nat {
    if p.request.intent.CloseOnly() then Min(p.remaining, Closable(b, p.request)) else p.remaining
  }

  /** The market has reached the order and the resulting price lies within the daily limits. */
  predicate Reachable(cfg: Config, b: Book, r: OrderRequest, market: real) {
    && (r.priceType.LMT? ==> AtLeastAsGood(r.action, market, r.price.value))
    && (b.limits.Some? ==> b.limits.value.0 <= OrderPrice(cfg, r, market) <= b.limits.value.1)
  }

  /**
    An order trades exactly when its price is reachable, something is left to trade, and a fill-or-kill can be
    filled whole; then it trades all that liquidity allows. A reachable order is never left resting, and an
    immediate order is left resting exactly when the daily limits lock its price.
   */
  lemma TradesExactlyWhen(cfg: Config, b: Book, p: Pending, market: real, immediate: bool)
    ensures var o, r, q := Decide(cfg, b, p, market, immediate), p.request, Liquid(cfg, Wanted(b, p));
            && (o.Trade? <==> Reachable(cfg, b, r, market) && q > 0 && (r.tif.FOK? ==> q == p.remaining))
            && (o.Trade? ==> o.quantity == q)
            && (Reachable(cfg, b, r, market) ==> !o.Rest?)
            && (o.Drop? && !Reachable(cfg, b, r, market) ==> immediate && r.priceType.LMT? && !r.tif.ROD?)
            && (immediate && !r.tif.ROD? ==>
                  (o.Rest? <==>
                     (r.priceType.LMT? ==> Crossed(r, market)) && !Within(b.limits, OrderPrice(cfg, r, market))))
  {
  }

  /**
    An immediate order is on the book once it has been placed exactly when the market has reached it and the
    daily limits lock its price: it does not expire then, whatever its time in force says.
   */
  lemma ImmediateRestsExactlyWhen(cfg: Config, b: Book, r: OrderRequest)
    requires b.connected && r.clientId !in b.seen && !r.tif.ROD?
    ensures b.sequence + 1 in PlaceOrder(cfg, b, r, false).open
            <==> (r.priceType.LMT? ==> Crossed(r, b.latest)) && !Within(b.limits, OrderPrice(cfg, r, b.latest))
  {
    var b1, id := Register(b, r), b.sequence + 1;
    PlacedAs(cfg, b, r);
    TradesExactlyWhen(cfg, b1, b1.open[id], b.latest, true);
    ImmediateLeaves(cfg, b1, id, Decide(cfg, b1, b1.open[id], b.latest, true), PlaceOrder(cfg, b, r, false));
  }

  lemma ImmediateLeaves(cfg: Config, b: Book, id: nat, o: Outcome, b': Book)
    requires id in b.open && Sound(cfg, b, b.open[id], o) && !b.open[id].request.tif.ROD?
    requires b'.(log := Start) == Perform(cfg, b, id, o).(log := Start)
    ensures id in b'.open <==> o.Rest?
  {
  }

  /** A limit order trades at its limit; any other order never beats the market by its slippage. */
  lemma PriceIsFair(cfg: Config, b: Book, p: Pending, market: real, immediate: bool)
    requires cfg.tickSize >= 0
    ensures var o, r := Decide(cfg, b, p, market, immediate), p.request;
            o.Trade? ==>
              if r.priceType.LMT? then o.price == r.price.value && AtLeastAsGood(r.action, market, o.price)
              else AtLeastAsGood(r.action, market, o.price)
  {
  }

  // ---------------------------------------------------------------- over every run

  /** A fill at the price that its order is due in this market, which has reached it, and inside the daily limits. */
  predicate Fair(cfg: Config, limits: Option<(real, real)>, market: real, e: Event) {
    e.Filled? ==>
      && (limits.Some? ==> limits.value.0 <= e.price <= limits.value.1)
      && (if e.order.priceType.LMT? then
            e.price == e.order.price.value && AtLeastAsGood(e.order.action, market, e.price)
          else
            && e.price == market + (e.order.action.Sign() * cfg.slippageTicks * cfg.tickSize) as real
            && (cfg.tickSize >= 0 ==> AtLeastAsGood(e.order.action, market, e.price)))
  }

  /** Everything logged since some earlier moment is fair. */
  ghost predicate FairSince(cfg: Config, limits: Option<(real, real)>, market: real, log: Log, base: Log) {
    || log == base
    || (log.Then? && FairSince(cfg, limits, market, log.earlier, base) && Fair(cfg, limits, market, log.last))
  }

  /** The book has kept the market it had, and has logged only fair fills since. */
  ghost predicate Fairly(cfg: Config, a: Book, b: Book) {
    b.limits == a.limits && b.latest == a.latest && FairSince(cfg, a.limits, a.latest, b.log, a.log)
  }

  lemma FillFair(cfg: Config, a: Book, b: Book, id: nat, q: Quantity, price: real)
    requires Fairly(cfg, a, b) && id in b.open && q <= b.open[id].remaining
    requires Fair(cfg, b.limits, b.latest, Filled(b.open[id].request, id, price, q))
    ensures Fairly(cfg, a, DoFill(cfg, b, id, q, price))
  {
    FillFrame(cfg, b, id, q, price);
  }

  lemma DecideFair(cfg: Config, b: Book, p: Pending, immediate: bool)
    ensures var o := Decide(cfg, b, p, b.latest, immediate);
            o.Trade? ==> forall id, q :: Fair(cfg, b.limits, b.latest, Filled(p.request, id, o.price, q))
  {
    if cfg.tickSize >= 0 { PriceIsFair(cfg, b, p, b.latest, immediate); }
  }

  lemma LeftoverFair(cfg: Config, a: Book, b: Book, id: nat, leftover: Option<CancelReason>)
    requires Fairly(cfg, a, b)
    ensures Fairly(cfg, a, DropLeftover(b, id, leftover))
  {
  }

  lemma PerformFair(cfg: Config, a: Book, b: Book, id: nat, o: Outcome)
    requires Fairly(cfg, a, b) && id in b.open && Sound(cfg, b, b.open[id], o)
    requires o.Trade? ==> Fair(cfg, b.limits, b.latest, Filled(b.open[id].request, id, o.price, o.quantity))
    ensures Fairly(cfg, a, Perform(cfg, b, id, o))
  {
    match o
    case Rest =>
    case Drop(_) =>
    case Trade(q, price, leftover) =>
      FillFair(cfg, a, b, id, q, price);
      LeftoverFair(cfg, a, DoFill(cfg, b, id, q, price), id, leftover);
  }

  lemma EnterFair(cfg: Config, a: Book, b: Book, id: nat)
    requires Fairly(cfg, a, b) && id in b.open
    ensures Fairly(cfg, a, EnterMarket(cfg, b, id))
  {
    var p := b.open[id];
    var o, ack := Decide(cfg, b, p, b.latest, true), Acked(p.request, id, OrderPrice(cfg, p.request, b.latest));
    DecideIsSound(cfg, b, p, b.latest, true);
    DecideFair(cfg, b, p, true);
    if o.Trade? && cfg.eventOrder.FillFirst? {
      FillFair(cfg, a, b, id, o.quantity, o.price);
      LeftoverFair(cfg, a, Emit(DoFill(cfg, b, id, o.quantity, o.price), ack), id, o.leftover);
    } else {
      PerformFair(cfg, a, Emit(b, ack), id, o);
    }
  }

  lemma {:induction false} CancelFromFair(cfg: Config, a: Book, b: Book, id: nat)
    requires Fairly(cfg, a, b)
    ensures Fairly(cfg, a, CancelFrom(b, id))
    decreases b.sequence + 1 - id
  {
    if id <= b.sequence { CancelFromFair(cfg, a, CancelOrder(b, id), id + 1); }
  }

  lemma {:induction false} MatchFromFair(cfg: Config, a: Book, b: Book, id: nat)
    requires Fairly(cfg, a, b)
    ensures Fairly(cfg, a, MatchFrom(cfg, b, id))
    decreases b.sequence + 1 - id
  {
    if id <= b.sequence {
      if id in b.open {
        DecideIsSound(cfg, b, b.open[id], b.latest, false);
        DecideFair(cfg, b, b.open[id], false);
        PerformFair(cfg, a, b, id, Decide(cfg, b, b.open[id], b.latest, false));
      }
      MatchFromFair(cfg, a, MatchIfOpen(cfg, b, id), id + 1);
    }
  }

  /** The market in which a request is carried out: a tick first moves it. */
  function MarketFor(b: Book, a: Action): real {
    if a.Tick? then a.price else b.latest
  }

  lemma StepFair(cfg: Config, b: Book, a: Action)
    ensures FairSince(cfg, b.limits, MarketFor(b, a), Step(cfg, b, a).log, b.log)
  {
    assert FairSince(cfg, b.limits, MarketFor(b, a), b.log, b.log);
    match a
    case Place(r, rejected) =>
      if b.connected && r.clientId !in b.seen && !rejected { EnterFair(cfg, b, Register(b, r), b.sequence + 1); }
    case CancelAll => CancelFromFair(cfg, b, b, 1);
    case Tick(price) => MatchFromFair(cfg, SetLatest(cfg, b, price), SetLatest(cfg, b, price), 1);
    case _ =>
  }

  /** Request by request, everything a run logs is fair in the market and under the limits of that moment. */
  ghost predicate RunsFairly(cfg: Config, b: Book, actions: seq<Action>)
    decreases |actions|
  {
    actions == []
    || (&& FairSince(cfg, b.limits, MarketFor(b, actions[0]), Step(cfg, b, actions[0]).log, b.log)
        && RunsFairly(cfg, Step(cfg, b, actions[0]), actions[1..]))
  }

  /**
    In every run, from any book, every fill lies within the daily limits then in force; a limit order fills at
    its limit once the market has reached it, and any other order at the market moved by its slippage.
   */
  lemma {:induction false} EveryFillIsFair(cfg: Config, b: Book, actions: seq<Action>)
    ensures RunsFairly(cfg, b, actions)
    decreases |actions|
  {
    if actions != [] {
      StepFair(cfg, b, actions[0]);
      EveryFillIsFair(cfg, Step(cfg, b, actions[0]), actions[1..]);
    }
  }
}
