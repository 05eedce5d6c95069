/** What the invariants of `GatewayHistory` promise about every run of the paper broker. */
module GatewayTheorems {
  import opened Domain
  import opened FifoLedger
  import opened MatchingEngine
  import opened GatewayHistory
  import Tracker = PositionTracker

  lemma RunHolds(cfg: Config, price: real, actions: seq<Action>)
    ensures Invariant(cfg, Run(cfg, NewBook(price), actions))
  {
    NewBookHolds(cfg, price);
    Preserved(cfg, NewBook(price), actions);
  }

  // ---------------------------------------------------------------- orders

  /** Per-order conservation and time in force, for every order ever accepted. */
  lemma OrderConservation(cfg: Config, price: real, actions: seq<Action>, id: nat)
    requires id in Run(cfg, NewBook(price), actions).accepted
    ensures var b := Run(cfg, NewBook(price), actions);
            var r, t := b.accepted[id], TallyOf(b.log, id);
            && t.filled + t.cancelled + OnBook(b.open, id) == r.quantity
            && (id in b.open <==> t.filled + t.cancelled < r.quantity)
            && (r.tif.FOK? ==> t.filled == 0 || t.filled == r.quantity)
            && (!r.tif.ROD? ==> t.fills <= 1)
  {
    RunHolds(cfg, price, actions);
    var b := Run(cfg, NewBook(price), actions);
    assert Account(b.accepted[id], b.open, TallyOf(b.log, id), id, id in {});
  }

  /** A client id opens at most one order. */
  lemma OneOrderPerClientId(cfg: Config, price: real, actions: seq<Action>, i: nat, j: nat)
    requires var b := Run(cfg, NewBook(price), actions);
             i in b.accepted && j in b.accepted && b.accepted[i].clientId == b.accepted[j].clientId
    ensures i == j
  {
    RunHolds(cfg, price, actions);
  }

  /** Later histories only add to earlier ones. */
  ghost predicate Later(a: Book, b: Book) {
    && Extends(b.log, a.log)
    && a.sequence <= b.sequence
    && forall id :: id in a.accepted ==> id in b.accepted && b.accepted[id] == a.accepted[id]
  }

  ghost predicate Extends(log: Log, base: Log) {
    log == base || (log.Then? && Extends(log.earlier, base))
  }

  lemma PerformLater(cfg: Config, a: Book, b: Book, id: nat, o: Outcome)
    requires Later(a, b) && id in b.open && Sound(cfg, b, b.open[id], o)
    ensures Later(a, Perform(cfg, b, id, o))
  {
    if o.Trade? {
      FillLater(cfg, a, b, id, o.quantity, o.price);
    }
  }

  lemma FillLater(cfg: Config, a: Book, b: Book, id: nat, q: Quantity, price: real)
    requires Later(a, b) && id in b.open && q <= b.open[id].remaining
    ensures Later(a, DoFill(cfg, b, id, q, price))
  {
  }

  lemma {:induction false} CancelFromLater(a: Book, b: Book, id: nat)
    requires Later(a, b)
    ensures Later(a, CancelFrom(b, id))
    decreases b.sequence + 1 - id
  {
    if id <= b.sequence {
      CancelFromLater(a, CancelOrder(b, id), id + 1);
    }
  }

  lemma {:induction false} MatchFromLater(cfg: Config, a: Book, b: Book, id: nat)
    requires Later(a, b)
    ensures Later(a, MatchFrom(cfg, b, id))
    decreases b.sequence + 1 - id
  {
    if id <= b.sequence {
      if id in b.open {
        DecideIsSound(cfg, b, b.open[id], b.latest, false);
        PerformLater(cfg, a, b, id, Decide(cfg, b, b.open[id], b.latest, false));
      }
      MatchFromLater(cfg, a, MatchIfOpen(cfg, b, id), id + 1);
    }
  }

  lemma EnterLater(cfg: Config, a: Book, b: Book, id: nat)
    requires Later(a, b) && id in b.open
    ensures Later(a, EnterMarket(cfg, b, id))
  {
    var p := b.open[id];
    var o, ack := Decide(cfg, b, p, b.latest, true), Acked(p.request, id, OrderPrice(cfg, p.request, b.latest));
    DecideIsSound(cfg, b, p, b.latest, true);
    if o.Trade? && cfg.eventOrder.FillFirst? {
      FillLater(cfg, a, b, id, o.quantity, o.price);
    } else {
      PerformLater(cfg, a, Emit(b, ack), id, o);
    }
  }

  lemma RegisterLater(b: Book, r: OrderRequest)
    requires Known(b.accepted, b.seen, b.sequence)
    ensures Later(b, Register(b, r))
  {
  }

  lemma AcceptLater(cfg: Config, b: Book, r: OrderRequest)
    requires Known(b.accepted, b.seen, b.sequence) && b.connected && r.clientId !in b.seen
    ensures Later(b, PlaceOrder(cfg, b, r, false))
  {
    RegisterLater(b, r);
    EnterLater(cfg, b, Register(b, r), b.sequence + 1);
  }

  lemma PlaceLater(cfg: Config, b: Book, r: OrderRequest, rejected: bool)
    requires Known(b.accepted, b.seen, b.sequence)
    ensures Later(b, PlaceOrder(cfg, b, r, rejected))
  {
    if b.connected && r.clientId !in b.seen && !rejected {
      AcceptLater(cfg, b, r);
    }
  }

  lemma StepLater(cfg: Config, b: Book, a: Action)
    requires Known(b.accepted, b.seen, b.sequence)
    ensures Later(b, Step(cfg, b, a))
  {
    match a
    case Place(r, rejected) => PlaceLater(cfg, b, r, rejected);
    case CancelAll => CancelFromLater(b, b, 1);
    case Tick(price) => MatchFromLater(cfg, b, SetLatest(cfg, b, price), 1);
    case _ =>
  }

  lemma {:induction false} ExtendsTransitive(c: Log, b: Log, a: Log)
    requires Extends(c, b) && Extends(b, a)
    ensures Extends(c, a)
  {
    if c != b { ExtendsTransitive(c.earlier, b, a); }
  }

  lemma {:induction false} RunLater(cfg: Config, b: Book, actions: seq<Action>)
    requires Invariant(cfg, b)
    ensures Later(b, Run(cfg, b, actions))
    decreases |actions|
  {
    if actions != [] {
      StepLater(cfg, b, actions[0]);
      StepHolds(cfg, b, actions[0]);
      RunLater(cfg, Step(cfg, b, actions[0]), actions[1..]);
      ExtendsTransitive(Run(cfg, b, actions).log, Step(cfg, b, actions[0]).log, b.log);
    }
  }

  lemma {:induction false} TallyGrows(log: Log, base: Log, id: nat)
    requires Extends(log, base)
    ensures var t, t0 := TallyOf(log, id), TallyOf(base, id);
            t0.filled <= t.filled && t0.cancelled <= t.cancelled && 0 <= t.fills - t0.fills <= t.filled - t0.filled
  {
    if log != base { TallyGrows(log.earlier, base, id); }
  }

  /** Once an order has left the book, no later request makes it fill, cancel or reappear. */
  lemma FinishedStaysFinished(cfg: Config, price: real, before: seq<Action>, after: seq<Action>, id: nat)
    requires var b := Run(cfg, NewBook(price), before); id in b.accepted && id !in b.open
    ensures var b := Run(cfg, NewBook(price), before);
            var b' := Run(cfg, b, after);
            id !in b'.open && TallyOf(b'.log, id) == TallyOf(b.log, id)
  {
    RunHolds(cfg, price, before);
    var b := Run(cfg, NewBook(price), before);
    var b' := Run(cfg, b, after);
    RunLater(cfg, b, after);
    Preserved(cfg, b, after);
    TallyGrows(b'.log, b.log, id);
    assert Account(b.accepted[id], b.open, TallyOf(b.log, id), id, id in {});
    assert Account(b'.accepted[id], b'.open, TallyOf(b'.log, id), id, id in {});
  }

  // ---------------------------------------------------------------- exposure

  /**
    Close-only safety: exposure never exceeds entries less closes, and when every entry on a symbol has
    one direction the net position is never opposite to it.
   */
  lemma CloseOnlySafety(cfg: Config, price: real, actions: seq<Action>, symbol: string)
    ensures var b := Run(cfg, NewBook(price), actions);
            && Abs(NetOf(b, symbol)) <= Flow(b.log, symbol, false) - Flow(b.log, symbol, true)
            && forall d :: EntriesOnly(b.accepted, symbol, d) ==> Signed(d, NetOf(b, symbol)) >= 0
  {
    RunHolds(cfg, price, actions);
    var b := Run(cfg, NewBook(price), actions);
    assert Bounded(NetOf(b, symbol), b.accepted, b.log, symbol);
  }

  /** A trade by a close-only order shrinks the position by exactly its size and keeps its side. */
  lemma CloseTradeShrinks(cfg: Config, b: Book, id: nat, o: Outcome)
    requires Invariant(cfg, b) && id in b.open && o.Trade? && Sound(cfg, b, b.open[id], o)
    requires b.open[id].request.intent.CloseOnly()
    ensures var n, n' := NetOf(b, b.open[id].request.symbol), NetOf(Perform(cfg, b, id, o), b.open[id].request.symbol);
            && Abs(n') == Abs(n) - o.quantity
            && (n > 0 ==> n' >= 0) && (n < 0 ==> n' <= 0)
  {
    TradeMoves(cfg, b, id, o);
    CachedNet(b, cfg.pointValue, b.open[id].request.symbol);
  }

  lemma TradeMoves(cfg: Config, b: Book, id: nat, o: Outcome)
    requires Cached(b, cfg.pointValue) && id in b.open && o.Trade? && Sound(cfg, b, b.open[id], o)
    ensures var r := b.open[id].request;
            NetOf(Perform(cfg, b, id, o), r.symbol) == NetOf(b, r.symbol) + Signed(r.action, o.quantity)
  {
    var r := b.open[id].request;
    UpdateCached(b, r.symbol, r.action, o.quantity, o.price, cfg.pointValue);
  }

  /** The cached position is the one recomputed from the lots, marked lot by lot at the latest price. */
  lemma PositionsAreRecomputed(cfg: Config, price: real, actions: seq<Action>, symbol: string)
    ensures var b := Run(cfg, NewBook(price), actions);
            var lots := LotsOf(b.lots, symbol);
            && (symbol in b.positions <==> NetOf(b, symbol) != 0)
            && (symbol in b.positions ==>
                  var p := b.positions[symbol];
                  && p.quantity == Abs(Net(lots))
                  && (p.direction.Long? <==> Net(lots) > 0)
                  && lots != [] && p.averagePrice == Average(lots)
                  && p.unrealizedPnl == Value(lots, b.latest, cfg.pointValue))
  {
    RunHolds(cfg, price, actions);
    var b := Run(cfg, NewBook(price), actions);
    CachedNet(b, cfg.pointValue, symbol);
    if symbol in b.lots {
      NetIsSignedTotal(b.lots[symbol]);
      AverageValuation(b.lots[symbol], b.latest, cfg.pointValue);
    }
  }

  // ---------------------------------------------------------------- the tracker

  function FillsOf(log: Log): seq<FillEvent> {
    match log
    case Start => []
    case Then(earlier, e) => FillsOf(earlier) + if e.Filled? then [ToFill(e)] else []
  }

  lemma {:induction false} BookedIsTracked(log: Log, pv: int)
    ensures Tracker.BookAll(FillsOf(log), pv).ledger == Booked(log, pv) == Replay(FillsOf(log), pv)
  {
    Tracker.BookAllIsReplay(FillsOf(log), pv);
    if log.Then? {
      BookedIsTracked(log.earlier, pv);
      if log.last.Filled? {
        var fills := FillsOf(log.earlier);
        assert (fills + [ToFill(log.last)])[..|fills|] == fills;
      } else {
        assert FillsOf(log) == FillsOf(log.earlier);
      }
    }
  }

  function ReportedPositions(b: Book, symbol: string): seq<Position> {
    if symbol in b.positions then [b.positions[symbol]] else []
  }

  /**
    A tracker fed every fill in emission order holds the broker's lots and realized profit, and its
    reconciliation finds nothing.
   */
  lemma TrackerAgrees(cfg: Config, price: real, actions: seq<Action>, symbol: string)
    requires Trades(Run(cfg, NewBook(price), actions).accepted, symbol)
    ensures var b := Run(cfg, NewBook(price), actions);
            var t := Tracker.BookAll(FillsOf(b.log), cfg.pointValue);
            && t.ledger == Ledger(LotsOf(b.lots, symbol), b.realized)
            && b.positions.Keys <= {symbol}
            && OneSided(t.ledger.lots) && Tracker.Agrees(t.ledger.lots, ReportedPositions(b, symbol))
  {
    RunHolds(cfg, price, actions);
    var b := Run(cfg, NewBook(price), actions);
    BookedIsTracked(b.log, cfg.pointValue);
    MarkToMarket(FillsOf(b.log), cfg.pointValue, 0.0);
    assert symbol in b.positions ==>
        b.positions[symbol] == Marked(PositionOf(symbol, b.lots[symbol]), b.latest, cfg.pointValue);
  }

  /**
    The broker emits events after releasing its lock, so concurrent callers may deliver them in another
    order. Whatever the order, net position and total profit still agree; lots and realized profit need not.
   */
  lemma AnyDeliveryOrder(cfg: Config, price: real, actions: seq<Action>, symbol: string, delivered: seq<FillEvent>,
                         mark: real)
    requires Trades(Run(cfg, NewBook(price), actions).accepted, symbol)
    requires multiset(delivered) == multiset(FillsOf(Run(cfg, NewBook(price), actions).log))
    ensures var b := Run(cfg, NewBook(price), actions);
            var t := Tracker.BookAll(delivered, cfg.pointValue);
            && Net(t.ledger.lots) == NetOf(b, symbol)
            && Equity(t.ledger, cfg.pointValue, mark)
               == Equity(Ledger(LotsOf(b.lots, symbol), b.realized), cfg.pointValue, mark)
  {
    TrackerAgrees(cfg, price, actions, symbol);
    Tracker.BookAllIsReplay(delivered, cfg.pointValue);
    BookedIsTracked(Run(cfg, NewBook(price), actions).log, cfg.pointValue);
    OrderIndependence(delivered, FillsOf(Run(cfg, NewBook(price), actions).log), cfg.pointValue, mark);
  }
}
