/**
  What closing orders do to the paper broker: the exact effect of one, of the orders the router sends to undo
  an entry, and of any number of them left working.
 */
module CloseEffects {
  import opened Domain
  import opened FifoLedger
  import opened MatchingEngine
  import opened GatewayHistory
  import opened OrderRouter
  import Broker = PaperGateway

  // ---------------------------------------------------------------- one closing order

  /** Whether an order would trade at the current price if there is anything to trade. */
  predicate Marketable(cfg: Config, b: Book, r: OrderRequest) {
    (r.priceType.LMT? ==> Crossed(r, b.latest)) && Within(b.limits, OrderPrice(cfg, r, b.latest))
  }

  function CloseFill(cfg: Config, b: Book, r: OrderRequest): nat {
    if Marketable(cfg, b, r) then Liquid(cfg, Min(r.quantity, Closable(b, r))) else 0
  }

  /** The part of the broker's invariant that the closing rounds rely on. */
  ghost predicate Steady(cfg: Config, b: Book) {
    Cached(b, cfg.pointValue) && forall id :: id in b.open ==> 1 <= id <= b.sequence
  }

  /** Everything about the market that a placed order leaves alone. */
  ghost predicate SameMarket(b: Book, b': Book) {
    b'.connected == b.connected && b'.latest == b.latest && b'.limits == b.limits
  }

  lemma CloseDecision(cfg: Config, b: Book, p: Pending)
    requires p.request.intent.CloseOnly() && p.request.tif.IOC? && p.remaining == p.request.quantity
    ensures var o, q := Decide(cfg, b, p, b.latest, true), CloseFill(cfg, b, p.request);
            if q > 0 then o.Trade? && o.quantity == q && (o.leftover.Some? <==> q < p.remaining)
            else !o.Trade? && (Marketable(cfg, b, p.request) ==> o.Drop?)
  {
  }

  /** What a performed outcome does to exposure and to the book, whatever it logs. */
  lemma PerformEffect(cfg: Config, b: Book, id: nat, o: Outcome)
    requires Cached(b, cfg.pointValue) && id in b.open && Sound(cfg, b, b.open[id], o)
    ensures var r, b' := b.open[id].request, Perform(cfg, b, id, o);
            && SameMarket(b, b') && b'.seen == b.seen && b'.sequence == b.sequence
            && NetOf(b', r.symbol) == NetOf(b, r.symbol) + Signed(r.action, if o.Trade? then o.quantity else 0)
            && (o.Rest? ==> b'.open == b.open)
            && (o.Drop? || (o.Trade? && (o.leftover.Some? || o.quantity == b.open[id].remaining)) ==>
                  b'.open == b.open - {id})
            && Cached(b', cfg.pointValue) && b'.positions.Keys <= b.positions.Keys + {r.symbol}
  {
    if o.Trade? {
      TradeEffect(cfg, b, id, o.quantity, o.price);
      LeftoverEffect(cfg, b, DoFill(cfg, b, id, o.quantity, o.price), id, o.quantity, o.leftover);
    }
  }

  lemma LeftoverEffect(cfg: Config, b: Book, filled: Book, id: nat, q: Quantity, leftover: Option<CancelReason>)
    requires Cached(filled, cfg.pointValue) && id in b.open && q <= b.open[id].remaining
             && filled.open == Trim(b.open, id, q)
    requires leftover.Some? ==> q < b.open[id].remaining
    ensures var b' := DropLeftover(filled, id, leftover);
            && SameMarket(filled, b') && b'.seen == filled.seen && b'.sequence == filled.sequence
            && b'.lots == filled.lots
            && (leftover.Some? || q == b.open[id].remaining ==> b'.open == b.open - {id}) && Cached(b', cfg.pointValue)
            && b'.positions == filled.positions
  {
  }

  lemma TradeEffect(cfg: Config, b: Book, id: nat, q: Quantity, price: real)
    requires Cached(b, cfg.pointValue) && id in b.open && q <= b.open[id].remaining
    ensures var r, b' := b.open[id].request, DoFill(cfg, b, id, q, price);
            && SameMarket(b, b') && Cached(b', cfg.pointValue)
            && b'.seen == b.seen && b'.sequence == b.sequence && b'.open == Trim(b.open, id, q)
            && NetOf(b', r.symbol) == NetOf(b, r.symbol) + Signed(r.action, q)
            && b'.positions.Keys <= b.positions.Keys + {r.symbol}
  {
    UpdateCached(b, b.open[id].request.symbol, b.open[id].request.action, q, price, cfg.pointValue);
  }

  lemma PlacedAs(cfg: Config, b: Book, r: OrderRequest)
    requires b.connected && r.clientId !in b.seen
    ensures var b1, id := Register(b, r), b.sequence + 1;
            var o := Decide(cfg, b1, b1.open[id], b.latest, true);
            && Sound(cfg, b1, b1.open[id], o)
            && PlaceOrder(cfg, b, r, false).(log := Start) == Perform(cfg, b1, id, o).(log := Start)
  {
    var b1, id := Register(b, r), b.sequence + 1;
    var o := Decide(cfg, b1, b1.open[id], b.latest, true);
    DecideIsSound(cfg, b1, b1.open[id], b.latest, true);
    Broker.ArrangedIsLogged(cfg, b1, id, o, Acked(r, id, OrderPrice(cfg, r, b.latest)));
  }

  /** What an immediate close-only order makes of a book b' differing from b by its registration. */
  ghost predicate ClosedBy(cfg: Config, b: Book, r: OrderRequest, b': Book) {
    var id := b.sequence + 1;
    && Cached(b', cfg.pointValue) && SameMarket(b, b') && b'.seen == b.seen + {r.clientId} && b'.sequence == id
    && NetOf(b', r.symbol) == NetOf(b, r.symbol) + Signed(r.action, CloseFill(cfg, b, r))
    && (b'.open == b.open || b'.open == b.open[id := Pending(r, id, r.quantity, 0)])
    && (Marketable(cfg, b, r) ==> b'.open == b.open)
    && b'.positions.Keys <= b.positions.Keys + {r.symbol}
  }

  lemma ClosePerformed(cfg: Config, b: Book, r: OrderRequest, b1: Book, id: nat, o: Outcome)
    requires Steady(cfg, b) && r.intent.CloseOnly() && r.tif.IOC?
    requires b1 == Register(b, r) && id == b.sequence + 1
    requires o == Decide(cfg, b1, b1.open[id], b1.latest, true) && Sound(cfg, b1, b1.open[id], o)
    ensures ClosedBy(cfg, b, r, Perform(cfg, b1, id, o))
  {
    CloseDecision(cfg, b1, b1.open[id]);
    PerformEffect(cfg, b1, id, o);
    assert id !in b.open && b1.open - {id} == b.open;
    assert CloseFill(cfg, b1, r) == CloseFill(cfg, b, r);
  }

  /** The exact effect of an immediate close-only order. */
  lemma CloseOrderEffect(cfg: Config, b: Book, r: OrderRequest)
    requires Steady(cfg, b) && b.connected && r.clientId !in b.seen
    requires r.intent.CloseOnly() && r.tif.IOC?
    ensures ClosedBy(cfg, b, r, PlaceOrder(cfg, b, r, false))
  {
    var b1, id := Register(b, r), b.sequence + 1;
    PlacedAs(cfg, b, r);
    var o := Decide(cfg, b1, b1.open[id], b1.latest, true);
    ClosePerformed(cfg, b, r, b1, id, o);
    LogIsNoMatter(cfg, b, r, Perform(cfg, b1, id, o), PlaceOrder(cfg, b, r, false));
  }

  lemma LogIsNoMatter(cfg: Config, b: Book, r: OrderRequest, x: Book, y: Book)
    requires ClosedBy(cfg, b, r, x) && x.(log := Start) == y.(log := Start)
    ensures ClosedBy(cfg, b, r, y)
  {
  }

  /** An id longer than all that were used is fresh. */
  lemma {:induction false} LongerThanAll(used: set<string>) returns (n: nat)
    ensures forall x :: x in used ==> |x| < n
    decreases |used|
  {
    n := 0;
    if used != {} {
      var x :| x in used;
      var m := LongerThanAll(used - {x});
      n := if |x| < m then m else |x| + 1;
      assert forall y :: y in used ==> y == x || y in used - {x};
    }
  }

  // ---------------------------------------------------------------- compensating an abandoned entry

  /**
    An abandoned entry fills q contracts and the router answers with an emergency order. If that order is
    marketable, exposure in the entry's direction ends where it was; an opposite position is not grown and
    not crossed. If it is not marketable, the fill stands until the price returns.
   */
  lemma CompensationNeutralizes(cfg: Config, b: Book, id: nat, q: Quantity, price: real, filled: Book, c: OrderRequest)
    requires Steady(cfg, b) && b.connected && c.clientId !in b.seen && id in b.open && q <= b.open[id].remaining
    requires cfg.maxFill.Some? ==> q <= cfg.maxFill.value
    requires filled == DoFill(cfg, b, id, q, price)
    requires c == Compensation(b.open[id].request.symbol, b.open[id].request.action, q, c.clientId)
    ensures var r, after := b.open[id].request, PlaceOrder(cfg, filled, c, false);
            var n, n' := Signed(r.action, NetOf(b, r.symbol)), Signed(r.action, NetOf(after, r.symbol));
            n' == if !Marketable(cfg, filled, c) then n + q else if n >= 0 then n else Min(0, n + q)
  {
    FilledSteady(cfg, b, id, q, price);
    CloseOrderEffect(cfg, filled, c);
    NeutralizedFrom(cfg, filled, c, PlaceOrder(cfg, filled, c, false),
                    Signed(b.open[id].request.action, NetOf(b, c.symbol)));
  }

  /** A compensation of q contracts, sent when the exposure against its side is n + q. */
  lemma NeutralizedFrom(cfg: Config, b: Book, c: OrderRequest, after: Book, n: int)
    requires Cached(b, cfg.pointValue) && ClosedBy(cfg, b, c, after)
    requires cfg.maxFill.Some? ==> c.quantity <= cfg.maxFill.value
    requires Exposure(c, b) == n + c.quantity
    ensures Exposure(c, after)
            == if !Marketable(cfg, b, c) then n + c.quantity else if n >= 0 then n else Min(0, n + c.quantity)
  {
    CachedNet(b, cfg.pointValue, c.symbol);
  }

  /** Exposure on the side that this order closes. */
  function Exposure(c: OrderRequest, b: Book): int {
    Signed(c.action.Opposite(), NetOf(b, c.symbol))
  }

  lemma CompensationEffect(cfg: Config, b: Book, c: OrderRequest)
    requires Steady(cfg, b) && b.connected && c.clientId !in b.seen && c.intent.CloseOnly() && c.tif.IOC?
    ensures var n := Exposure(c, b);
            Exposure(c, PlaceOrder(cfg, b, c, false))
            == if !Marketable(cfg, b, c) || n <= 0 then n else n - Liquid(cfg, Min(n, c.quantity))
  {
    CloseOrderEffect(cfg, b, c);
    ClosedFrom(cfg, b, c, PlaceOrder(cfg, b, c, false));
  }

  lemma ClosedFrom(cfg: Config, b: Book, c: OrderRequest, after: Book)
    requires Cached(b, cfg.pointValue) && ClosedBy(cfg, b, c, after)
    ensures var n := Exposure(c, b);
            Exposure(c, after) == if !Marketable(cfg, b, c) || n <= 0 then n else n - Liquid(cfg, Min(n, c.quantity))
  {
    CachedNet(b, cfg.pointValue, c.symbol);
  }

  lemma FilledSteady(cfg: Config, b: Book, id: nat, q: Quantity, price: real)
    requires Steady(cfg, b) && id in b.open && q <= b.open[id].remaining
    ensures var r, b' := b.open[id].request, DoFill(cfg, b, id, q, price);
            && Steady(cfg, b') && b'.connected == b.connected && b'.seen == b.seen
            && NetOf(b', r.symbol) == NetOf(b, r.symbol) + Signed(r.action, q)
  {
    TradeEffect(cfg, b, id, q, price);
  }

  // ---------------------------------------------------------------- an entry answered after cancel-all

  /** The router neutralizes a late entry at the broker: cancel it if it still works, else undo its whole quantity. */
  function Neutralize(cfg: Config, b: Book, id: nat, r: OrderRequest, newId: string): Book {
    var compensation := Neutralization(r, id in b.open, newId);
    if compensation.None? then CancelOrder(b, id) else PlaceOrder(cfg, b, compensation.value, false)
  }

  /**
    Exposure in the entry's direction after neutralizing: an entry that still works keeps whatever it had
    filled; a finished one is undone by its full quantity, as far as one match reaches and down to flat at
    most, if the market takes the order at all.
   */
  lemma LateEntryNeutralized(cfg: Config, b: Book, id: nat, r: OrderRequest, newId: string)
    requires Steady(cfg, b) && b.connected && newId !in b.seen
    ensures var n := Signed(r.action, NetOf(b, r.symbol));
            var n' := Signed(r.action, NetOf(Neutralize(cfg, b, id, r, newId), r.symbol));
            n' == if KeptAsIs(cfg, b, id, r, newId) then n else n - Liquid(cfg, Min(n, r.quantity))
  {
    if id !in b.open {
      CompensationEffect(cfg, b, Compensation(r.symbol, r.action, r.quantity, newId));
    }
  }

  /** Neutralizing closes nothing: the entry still works, its market is locked, or there is nothing on its side. */
  predicate KeptAsIs(cfg: Config, b: Book, id: nat, r: OrderRequest, newId: string) {
    || id in b.open
    || !Marketable(cfg, b, Compensation(r.symbol, r.action, r.quantity, newId))
    || Signed(r.action, NetOf(b, r.symbol)) <= 0
  }

  /** A fill that is just as large as what one match closes of the position it led to. */
  predicate JustReached(cfg: Config, quantity: nat, before: int, filled: nat) {
    && (cfg.maxFill.Some? ==> filled <= cfg.maxFill.value)
    && before >= 0 && (filled == quantity || before == 0 || cfg.maxFill == Some(filled))
  }

  /**
    A late entry that had filled part of its quantity, from any position before it, is undone exactly when
    it had filled nothing and nothing is closed, or its fill is just what one match closes.
   */
  lemma LateEntryUndoneExactlyWhen(cfg: Config, b: Book, id: nat, r: OrderRequest, newId: string, before: int,
                                   filled: nat)
    requires Steady(cfg, b) && b.connected && newId !in b.seen
    requires filled <= r.quantity && Signed(r.action, NetOf(b, r.symbol)) == before + filled
    ensures Signed(r.action, NetOf(Neutralize(cfg, b, id, r, newId), r.symbol)) == before
            <==> if KeptAsIs(cfg, b, id, r, newId) then filled == 0 else JustReached(cfg, r.quantity, before, filled)
  {
    LateEntryNeutralized(cfg, b, id, r, newId);
    if before + filled > 0 { JustReachedMeans(cfg, r.quantity, before, filled); }
  }

  lemma JustReachedMeans(cfg: Config, quantity: nat, before: int, filled: nat)
    requires filled <= quantity && before + filled > 0
    ensures Liquid(cfg, Min(before + filled, quantity)) == filled <==> JustReached(cfg, quantity, before, filled)
  {
  }

  // ---------------------------------------------------------------- closing orders left working

  ghost predicate SameSide(n: int, n': int) {
    (n >= 0 ==> 0 <= n' <= n) && (n <= 0 ==> n <= n' <= 0)
  }

  ghost predicate AllCloseOnly(open: map<nat, Pending>, symbol: string) {
    forall id :: id in open && open[id].request.symbol == symbol ==> open[id].request.intent.CloseOnly()
  }

  ghost predicate NoEntries(actions: seq<Action>, symbol: string) {
    forall i :: 0 <= i < |actions| && actions[i].Place? && actions[i].request.symbol == symbol ==>
      actions[i].request.intent.CloseOnly()
  }

  /** From a to b the position only shrank towards flat, and only close-only orders work on the symbol. */
  ghost predicate Calm(a: Book, b: Book, symbol: string) {
    SameSide(NetOf(a, symbol), NetOf(b, symbol)) && AllCloseOnly(b.open, symbol)
  }

  lemma TradeElsewhere(cfg: Config, b: Book, id: nat, q: Quantity, price: real, symbol: string)
    requires id in b.open && q <= b.open[id].remaining && b.open[id].request.symbol != symbol
    ensures NetOf(DoFill(cfg, b, id, q, price), symbol) == NetOf(b, symbol)
  {
  }

  lemma TradeCalm(cfg: Config, a: Book, b: Book, id: nat, q: Quantity, price: real, symbol: string)
    requires Cached(b, cfg.pointValue) && Calm(a, b, symbol) && id in b.open && q <= b.open[id].remaining
    requires b.open[id].request.intent.CloseOnly() ==> q <= Closable(b, b.open[id].request)
    ensures Calm(a, DoFill(cfg, b, id, q, price), symbol)
  {
    TradeEffect(cfg, b, id, q, price);
    CachedNet(b, cfg.pointValue, symbol);
    if b.open[id].request.symbol != symbol { TradeElsewhere(cfg, b, id, q, price, symbol); }
  }

  lemma PerformCalm(cfg: Config, a: Book, b: Book, id: nat, o: Outcome, symbol: string)
    requires Cached(b, cfg.pointValue) && Calm(a, b, symbol) && id in b.open && Sound(cfg, b, b.open[id], o)
    ensures Calm(a, Perform(cfg, b, id, o), symbol)
  {
    if o.Trade? {
      TradeCalm(cfg, a, b, id, o.quantity, o.price, symbol);
    }
  }

  lemma {:induction false} CancelFromCalm(a: Book, b: Book, id: nat, symbol: string)
    requires Calm(a, b, symbol)
    ensures Calm(a, CancelFrom(b, id), symbol)
    decreases b.sequence + 1 - id
  {
    if id <= b.sequence {
      CancelFromCalm(a, CancelOrder(b, id), id + 1, symbol);
    }
  }

  lemma {:induction false} MatchFromCalm(cfg: Config, a: Book, b: Book, id: nat, symbol: string)
    requires Invariant(cfg, b) && Calm(a, b, symbol)
    ensures Calm(a, MatchFrom(cfg, b, id), symbol)
    decreases b.sequence + 1 - id
  {
    if id <= b.sequence {
      if id in b.open {
        var o := Decide(cfg, b, b.open[id], b.latest, false);
        DecideIsSound(cfg, b, b.open[id], b.latest, false);
        PerformHolds(cfg, b, id, o);
        PerformCalm(cfg, a, b, id, o, symbol);
      }
      MatchFromCalm(cfg, a, MatchIfOpen(cfg, b, id), id + 1, symbol);
    }
  }

  lemma EnterCalm(cfg: Config, a: Book, b: Book, id: nat, symbol: string)
    requires Cached(b, cfg.pointValue) && Calm(a, b, symbol) && id in b.open
    ensures Calm(a, EnterMarket(cfg, b, id), symbol)
  {
    var p := b.open[id];
    var o, ack := Decide(cfg, b, p, b.latest, true), Acked(p.request, id, OrderPrice(cfg, p.request, b.latest));
    DecideIsSound(cfg, b, p, b.latest, true);
    if o.Trade? && cfg.eventOrder.FillFirst? {
      TradeCalm(cfg, a, b, id, o.quantity, o.price, symbol);
      LeftoverCalm(a, Emit(DoFill(cfg, b, id, o.quantity, o.price), ack), id, o.leftover, symbol);
    } else {
      PerformCalm(cfg, a, Emit(b, ack), id, o, symbol);
    }
  }

  lemma LeftoverCalm(a: Book, b: Book, id: nat, leftover: Option<CancelReason>, symbol: string)
    requires Calm(a, b, symbol)
    ensures Calm(a, DropLeftover(b, id, leftover), symbol)
  {
  }

  lemma RegisterCalm(cfg: Config, a: Book, b: Book, r: OrderRequest, symbol: string)
    requires Cached(b, cfg.pointValue) && Calm(a, b, symbol) && (r.symbol == symbol ==> r.intent.CloseOnly())
    ensures Cached(Register(b, r), cfg.pointValue) && Calm(a, Register(b, r), symbol)
  {
  }

  lemma AcceptCalm(cfg: Config, a: Book, b: Book, r: OrderRequest, symbol: string)
    requires Cached(b, cfg.pointValue) && Calm(a, b, symbol) && (r.symbol == symbol ==> r.intent.CloseOnly())
    requires b.connected && r.clientId !in b.seen
    ensures Calm(a, PlaceOrder(cfg, b, r, false), symbol)
  {
    RegisterCalm(cfg, a, b, r, symbol);
    EnterCalm(cfg, a, Register(b, r), b.sequence + 1, symbol);
  }

  lemma PlaceCalm(cfg: Config, a: Book, b: Book, r: OrderRequest, rejected: bool, symbol: string)
    requires Cached(b, cfg.pointValue) && Calm(a, b, symbol) && (r.symbol == symbol ==> r.intent.CloseOnly())
    ensures Calm(a, PlaceOrder(cfg, b, r, rejected), symbol)
  {
    if b.connected && r.clientId !in b.seen && !rejected {
      AcceptCalm(cfg, a, b, r, symbol);
    }
  }

  lemma StepCalm(cfg: Config, a: Book, b: Book, action: Action, symbol: string)
    requires Invariant(cfg, b) && Calm(a, b, symbol)
    requires action.Place? && action.request.symbol == symbol ==> action.request.intent.CloseOnly()
    ensures Calm(a, Step(cfg, b, action), symbol)
  {
    match action
    case Place(r, rejected) => PlaceCalm(cfg, a, b, r, rejected, symbol);
    case CancelAll => CancelFromCalm(a, b, 1, symbol);
    case Tick(price) => TickCalm(cfg, a, b, price, symbol);
    case _ =>
  }

  lemma TickCalm(cfg: Config, a: Book, b: Book, price: real, symbol: string)
    requires Invariant(cfg, b) && Calm(a, b, symbol)
    ensures Calm(a, Step(cfg, b, Tick(price)), symbol)
  {
    MarkHolds(cfg, b, price);
    MatchFromCalm(cfg, a, SetLatest(cfg, b, price), 1, symbol);
  }

  /** Once only close-only orders work on a symbol, no later run without entries can reverse or grow the position. */
  lemma {:induction false} NeverReversed(cfg: Config, a: Book, b: Book, actions: seq<Action>, symbol: string)
    requires Invariant(cfg, b) && Calm(a, b, symbol) && NoEntries(actions, symbol)
    ensures Calm(a, Run(cfg, b, actions), symbol)
    decreases |actions|
  {
    if actions != [] {
      StepCalm(cfg, a, b, actions[0], symbol);
      StepHolds(cfg, b, actions[0]);
      NeverReversed(cfg, a, Step(cfg, b, actions[0]), actions[1..], symbol);
    }
  }
}
