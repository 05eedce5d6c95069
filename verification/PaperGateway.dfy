/** The paper broker itself: dictionaries changed in place, proved against `MatchingEngine`. */
module PaperGateway {
  import opened Domain
  import opened FifoLedger
  import opened MatchingEngine

  function AppendAll(log: Log, events: seq<Event>): Log
    decreases |events|
  {
    if events == [] then log else AppendAll(Then(log, events[0]), events[1..])
  }

  /** The events a matching attempt reports, in order. */
  function Report(p: Pending, o: Outcome): seq<Event>
    requires o.Trade? && o.leftover.Some? ==> o.quantity < p.remaining
  {
    match o
    case Rest => []
    case Drop(reason) => [Cancelled(p.request, p.id, p.remaining, reason)]
    case Trade(q, price, leftover) =>
      if leftover.None? then [Filled(p.request, p.id, price, q)]
      else [Filled(p.request, p.id, price, q), Cancelled(p.request, p.id, p.remaining - q, leftover.value)]
  }

  /** Where the acknowledgement of a new order goes among the events of its first matching attempt. */
  function Arrange(order: EventOrder, ack: Event, events: seq<Event>): seq<Event> {
    if events != [] && events[0].Filled? && order.FillFirst? then [events[0], ack] + events[1..]
    else [ack] + events
  }

  lemma AppendFirst(log: Log, e: Event, rest: seq<Event>)
    ensures AppendAll(log, [e] + rest) == AppendAll(Then(log, e), rest)
  {
  }

  lemma AppendOne(log: Log, e: Event)
    ensures AppendAll(log, [e]) == Then(log, e)
  {
  }

  lemma AppendTwo(log: Log, e: Event, f: Event)
    ensures AppendAll(log, [e, f]) == Then(Then(log, e), f)
  {
    AppendFirst(log, e, [f]);
    AppendOne(Then(log, e), f);
    assert [e] + [f] == [e, f];
  }

  lemma ReportIsLogged(cfg: Config, b: Book, id: nat, o: Outcome)
    requires id in b.open && b.open[id].id == id && Sound(cfg, b, b.open[id], o)
    ensures Perform(cfg, b, id, o).log == AppendAll(b.log, Report(b.open[id], o))
  {
    var events := Report(b.open[id], o);
    if |events| == 1 {
      AppendOne(b.log, events[0]);
    } else if |events| == 2 {
      AppendTwo(b.log, events[0], events[1]);
    }
  }

  /** A matching attempt touches no other order and changes neither price nor numbering. */
  lemma PerformFrame(cfg: Config, b: Book, id: nat, o: Outcome)
    requires id in b.open && Sound(cfg, b, b.open[id], o)
    ensures var b' := Perform(cfg, b, id, o);
            && b'.sequence == b.sequence && b'.latest == b.latest
            && (forall i :: i in b'.open ==> i in b.open && b'.open[i].id == b.open[i].id)
            && (forall i :: i in b.open && i != id ==> i in b'.open && b'.open[i] == b.open[i])
  {
  }

  lemma FillIgnoresLog(cfg: Config, b: Book, id: nat, q: Quantity, price: real, e: Event)
    requires id in b.open && q <= b.open[id].remaining
    ensures DoFill(cfg, Emit(b, e), id, q, price).(log := Start) == DoFill(cfg, b, id, q, price).(log := Start)
  {
  }

  lemma DropIgnoresLog(x: Book, y: Book, id: nat, leftover: Option<CancelReason>)
    requires x.(log := Start) == y.(log := Start)
    ensures DropLeftover(x, id, leftover).(log := Start) == DropLeftover(y, id, leftover).(log := Start)
  {
  }

  lemma PerformIgnoresLog(cfg: Config, b: Book, id: nat, o: Outcome, e: Event)
    requires id in b.open && Sound(cfg, b, b.open[id], o)
    ensures Perform(cfg, Emit(b, e), id, o).(log := Start) == Perform(cfg, b, id, o).(log := Start)
  {
    match o
    case Rest =>
    case Drop(_) =>
    case Trade(q, price, leftover) =>
      FillIgnoresLog(cfg, b, id, q, price, e);
      DropIgnoresLog(DoFill(cfg, Emit(b, e), id, q, price), DoFill(cfg, b, id, q, price), id, leftover);
  }

  lemma FillThenAckLog(log: Log, fill: Event, ack: Event, rest: seq<Event>)
    requires |rest| <= 1
    ensures AppendAll(log, [fill, ack] + rest)
            == if rest == [] then Then(Then(log, fill), ack) else Then(Then(Then(log, fill), ack), rest[0])
  {
    assert [fill, ack] + rest == [fill] + ([ack] + rest);
    AppendFirst(log, fill, [ack] + rest);
    AppendFirst(Then(log, fill), ack, rest);
    if rest != [] {
      AppendOne(Then(Then(log, fill), ack), rest[0]);
    }
  }

  lemma FillThenAck(cfg: Config, b: Book, id: nat, o: Outcome, ack: Event)
    requires id in b.open && b.open[id].id == id && Sound(cfg, b, b.open[id], o) && o.Trade?
    ensures DropLeftover(Emit(DoFill(cfg, b, id, o.quantity, o.price), ack), id, o.leftover)
            == Perform(cfg, b, id, o).(log := AppendAll(b.log, Arrange(FillFirst, ack, Report(b.open[id], o))))
  {
    var events := Report(b.open[id], o);
    FillThenAckLog(b.log, events[0], ack, events[1..]);
  }

  /** Acknowledging only inserts the acknowledgement into the log; the book ends up the same. */
  lemma ArrangedIsLogged(cfg: Config, b: Book, id: nat, o: Outcome, ack: Event)
    requires id in b.open && b.open[id].id == id && Sound(cfg, b, b.open[id], o)
    ensures PerformAcked(cfg, b, id, o, ack)
            == Perform(cfg, b, id, o).(log := AppendAll(b.log, Arrange(cfg.eventOrder, ack, Report(b.open[id], o))))
  {
    if o.Trade? && cfg.eventOrder.FillFirst? {
      FillThenAck(cfg, b, id, o, ack);
    } else {
      AckFirstIsLogged(cfg, b, id, o, ack);
    }
  }

  lemma AckFirstIsLogged(cfg: Config, b: Book, id: nat, o: Outcome, ack: Event)
    requires id in b.open && b.open[id].id == id && Sound(cfg, b, b.open[id], o)
    ensures Perform(cfg, Emit(b, ack), id, o)
            == Perform(cfg, b, id, o).(log := AppendAll(b.log, [ack] + Report(b.open[id], o)))
  {
    PerformIgnoresLog(cfg, b, id, o, ack);
    AppendFirst(b.log, ack, Report(b.open[id], o));
    ReportIsLogged(cfg, Emit(b, ack), id, o);
    SameButLog(Perform(cfg, Emit(b, ack), id, o), Perform(cfg, b, id, o));
  }

  lemma StoredAs(b: Book, symbol: string, l: Ledger, pv: int, lots: map<string, seq<Lot>>,
                 positions: map<string, Position>)
    requires lots == if l.lots == [] then b.lots - {symbol} else b.lots[symbol := l.lots]
    requires positions
             == Refresh(if l.lots == [] then b.positions - {symbol}
                        else b.positions[symbol := PositionOf(symbol, l.lots)],
                        b.latest, pv)
    ensures b.(lots := lots, positions := positions, realized := l.realized) == StoreLots(b, symbol, l, pv)
  {
  }

  lemma SameButLog(x: Book, y: Book)
    requires x.(log := Start) == y.(log := Start)
    ensures x == y.(log := x.log)
  {
  }

  class PaperGateway {
    const cfg: Config
    var connected: bool
    var latestPrice: real
    var priceLimits: Option<(real, real)>
    var openOrders: map<nat, Pending>
    var positionLots: map<string, seq<Lot>>
    var positions: map<string, Position>
    var seenClientIds: set<string>
    var sequence: nat
    var realizedPnl: real
    ghost var accepted: map<nat, OrderRequest>
    ghost var log: Log

    ghost function State(): Book
      reads this
    {
      Book(connected, latestPrice, priceLimits, openOrders, positionLots, positions,
           seenClientIds, sequence, realizedPnl, accepted, log)
    }

    /** Order numbers are the keys of the order dictionary and are handed out in sequence. */
    ghost predicate Valid()
      reads this
    {
      forall id :: id in openOrders ==> 1 <= id <= sequence && openOrders[id].id == id
    }

    constructor (cfg: Config, initialPrice: real)
      ensures Valid() && this.cfg == cfg && State() == NewBook(initialPrice)
    {
      this.cfg := cfg;
      connected, latestPrice, priceLimits := false, initialPrice, None;
      openOrders, positionLots, positions := map[], map[], map[];
      seenClientIds, sequence, realizedPnl := {}, 0, 0.0;
      accepted, log := map[], Start;
    }

    method SetConnected(up: bool)
      requires Valid()
      modifies this
      ensures Valid() && State() == Step(cfg, old(State()), if up then Connect else Disconnect)
      ensures State() == old(State()).(connected := up)
    {
      connected := up;
    }

    /** Refused, without effect, when the limits are inverted. */
    method SetPriceLimits(down: real, up: real) returns (ok: bool)
      requires Valid()
      modifies this
      ensures Valid() && State() == Step(cfg, old(State()), SetLimits(down, up))
      ensures ok <==> down <= up
      ensures State() == if down <= up then old(State()).(limits := Some((down, up))) else old(State())
    {
      ok := down <= up;
      if ok {
        priceLimits := Some((down, up));
      }
    }

    /** No acknowledgement at all means the connection is down. */
    method PlaceOrder(request: OrderRequest, rejected: bool) returns (ack: Option<OrderAck>, events: seq<Event>)
      requires Valid()
      modifies this
      ensures Valid() && State() == Step(cfg, old(State()), Place(request, rejected))
      ensures State().log == AppendAll(old(log), events)
      ensures ack == AckFor(old(State()), request, rejected)
      ensures ack.None? <==> !old(connected)
      ensures ack.Some? ==> ack.value.clientId == request.clientId
      ensures ack.Some? ==> (ack.value.accepted <==> request.clientId !in old(seenClientIds) && !rejected)
      ensures ack.Some? && request.clientId !in old(seenClientIds) ==>
                ack.value.brokerOrderId == Some(old(sequence) + 1)
    {
      events := [];
      if !connected {
        return None, events;
      }
      if request.clientId in seenClientIds {
        return Some(OrderAck(request.clientId, None, false)), events;
      }
      seenClientIds := seenClientIds + {request.clientId};
      sequence := sequence + 1;
      var pending := Pending(request, sequence, request.quantity, 0);
      ack := Some(OrderAck(request.clientId, Some(pending.id), !rejected));
      if rejected {
        events := [Rejected(request, pending.id)];
        AppendOne(log, events[0]);
      } else {
        openOrders := openOrders[pending.id := pending];
        accepted := accepted[pending.id := request];
        ghost var entered := State();
        assert entered == Register(old(State()), request);
        DecideIsSound(cfg, entered, pending, latestPrice, true);
        PerformFrame(cfg, entered, pending.id, Decide(cfg, entered, pending, latestPrice, true));
        var results := MatchOrder(pending, latestPrice, true);
        var acked := Acked(request, pending.id, OrderPrice(cfg, request, latestPrice));
        events := Arrange(cfg.eventOrder, acked, results);
        ArrangedIsLogged(cfg, entered, pending.id, Decide(cfg, entered, pending, latestPrice, true), acked);
      }
      log := AppendAll(log, events);
    }

    method CancelOrder(id: nat) returns (ok: bool, events: seq<Event>)
      requires Valid()
      modifies this
      ensures Valid() && State() == Step(cfg, old(State()), Cancel(id))
      ensures ok <==> id in old(openOrders)
      ensures var open := old(openOrders);
              events == if ok then [Cancelled(open[id].request, id, open[id].remaining, UserCancel)] else []
      ensures openOrders == old(openOrders) - {id} && State().log == AppendAll(old(log), events)
    {
      events := [];
      ok := id in openOrders;
      if ok {
        var pending := openOrders[id];
        openOrders := openOrders - {id};
        events := [Cancelled(pending.request, id, pending.remaining, UserCancel)];
        AppendOne(log, events[0]);
        log := AppendAll(log, events);
      }
    }

    /** Cancels every open order, oldest first, and says how many there were. */
    method CancelAllOrders() returns (count: nat)
      requires Valid()
      modifies this
      ensures Valid() && openOrders == map[] && count == |old(openOrders)|
      ensures State() == Step(cfg, old(State()), CancelAll)
    {
      count := |openOrders|;
      var id := 1;
      while id <= sequence
        invariant Valid() && 1 <= id <= sequence + 1 && sequence == old(sequence)
        invariant CancelFrom(State(), id) == CancelFrom(old(State()), 1)
        invariant forall i :: i in openOrders ==> i >= id
      {
        var _, _ := CancelOrder(id);
        id := id + 1;
      }
    }

    method FeedTick(price: real)
      requires Valid()
      modifies this
      ensures Valid() && State() == Step(cfg, old(State()), Tick(price))
    {
      latestPrice := price;
      RefreshUnrealizedPnl();
      var snapshot := openOrders;
      var id := 1;
      while id <= sequence
        invariant Valid() && 1 <= id <= sequence + 1 && sequence == old(sequence) && latestPrice == price
        invariant MatchFrom(cfg, State(), id) == MatchFrom(cfg, SetLatest(cfg, old(State()), price), 1)
        invariant forall i :: i >= id ==> (i in snapshot <==> i in openOrders)
        invariant forall i :: i >= id && i in snapshot ==> snapshot[i] == openOrders[i]
      {
        if id in snapshot {
          ghost var before := State();
          var o := Decide(cfg, before, snapshot[id], price, false);
          DecideIsSound(cfg, before, snapshot[id], price, false);
          ReportIsLogged(cfg, before, id, o);
          PerformFrame(cfg, before, id, o);
          var events := MatchOrder(snapshot[id], price, false);
          log := AppendAll(log, events);
          assert State() == MatchIfOpen(cfg, before, id);
        }
        id := id + 1;
      }
    }

    /** One matching attempt; the caller appends the reported events to the log. */
    method MatchOrder(pending: Pending, market: real, immediate: bool) returns (events: seq<Event>)
      requires Valid() && pending.id in openOrders && openOrders[pending.id] == pending
      modifies this
      ensures var o := Decide(cfg, old(State()), pending, market, immediate);
              && Sound(cfg, old(State()), pending, o)
              && State() == Perform(cfg, old(State()), pending.id, o).(log := old(log))
              && events == Report(pending, o)
    {
      DecideIsSound(cfg, State(), pending, market, immediate);
      var request := pending.request;
      if request.priceType.LMT? && !Crossed(request, market) {
        if immediate && request.tif in {IOC, FOK} {
          openOrders := openOrders - {pending.id};
          return [Cancelled(request, pending.id, pending.remaining,
                            if request.tif.IOC? then IocExpired else FokExpired)];
        }
        return [];
      }
      var fillPrice := OrderPrice(cfg, request, market);
      if !Within(priceLimits, fillPrice) {
        return [];
      }
      var fillable, closeReason := FillableQuantity(pending);
      if fillable == 0 {
        openOrders := openOrders - {pending.id};
        return [Cancelled(request, pending.id, pending.remaining,
                          if closeReason.Some? then closeReason.value else Expiry(request.tif))];
      }
      if request.tif.FOK? && fillable < pending.remaining {
        openOrders := openOrders - {pending.id};
        return [Cancelled(request, pending.id, pending.remaining, FokExpired)];
      }
      assert (fillable, closeReason) == Fillable(cfg, old(State()), pending);
      events := Execute(pending, fillable, fillPrice, closeReason);
    }

    /** Books the fill, then cancels what a close order or an immediate order may not keep working. */
    method Execute(pending: Pending, quantity: Quantity, price: real, closeReason: Option<CancelReason>)
      returns (events: seq<Event>)
      requires Valid() && pending.id in openOrders && openOrders[pending.id] == pending && quantity <= pending.remaining
      requires closeReason.Some? ==> quantity < pending.remaining
      modifies this
      ensures var expires := closeReason.None? && pending.request.tif.IOC? && quantity < pending.remaining;
              var o := Trade(quantity, price, if expires then Some(IocExpired) else closeReason);
              var filled := DoFill(cfg, old(State()), pending.id, quantity, price);
              && State() == DropLeftover(filled, pending.id, o.leftover).(log := old(log))
              && events == Report(pending, o)
    {
      var request := pending.request;
      var fill := ApplyFill(pending, quantity, price);
      var remaining := if pending.id in openOrders then openOrders[pending.id].remaining else 0;
      events := [fill];
      if closeReason.Some? {
        openOrders := openOrders - {pending.id};
        events := events + [Cancelled(request, pending.id, remaining, closeReason.value)];
      } else if request.tif.IOC? && remaining > 0 {
        openOrders := openOrders - {pending.id};
        events := events + [Cancelled(request, pending.id, remaining, IocExpired)];
      }
    }

    method FillableQuantity(pending: Pending) returns (q: nat, reason: Option<CancelReason>)
      ensures (q, reason) == Fillable(cfg, State(), pending)
    {
      var request, remaining := pending.request, pending.remaining;
      if request.intent.CloseOnly() {
        var closable: nat := 0;
        if request.symbol in positions && request.action == positions[request.symbol].direction.Opposite() {
          closable := positions[request.symbol].quantity;
        }
        var closeFillable := Min(remaining, closable);
        if closeFillable == 0 {
          return 0, Some(NoPosition);
        }
        if closeFillable < remaining {
          return Liquid(cfg, closeFillable), Some(OverClose);
        }
        return Liquid(cfg, closeFillable), None;
      }
      return Liquid(cfg, remaining), None;
    }

    method ApplyFill(pending: Pending, quantity: Quantity, price: real) returns (fill: Event)
      requires Valid() && pending.id in openOrders && openOrders[pending.id] == pending && quantity <= pending.remaining
      modifies this
      ensures Valid() && fill == Filled(pending.request, pending.id, price, quantity)
      ensures State() == DoFill(cfg, old(State()), pending.id, quantity, price).(log := old(log))
    {
      var request := pending.request;
      UpdatePosition(request.symbol, request.action, quantity, price);
      var remaining := pending.remaining - quantity;
      if remaining == 0 {
        openOrders := openOrders - {pending.id};
      } else {
        openOrders := openOrders[pending.id := pending.(remaining := remaining, filled := pending.filled + quantity)];
      }
      fill := Filled(request, pending.id, price, quantity);
    }

    method UpdatePosition(symbol: string, action: Direction, quantity: Quantity, price: real)
      modifies this`positionLots, this`positions, this`realizedPnl
      ensures State() == MatchingEngine.UpdatePosition(old(State()), symbol, action, quantity, price, cfg.pointValue)
    {
      var lots := LotsOf(positionLots, symbol);
      var remaining: nat := quantity;
      ghost var booked := Apply(Ledger(lots, realizedPnl), action, quantity, price, cfg.pointValue);
      while lots != [] && lots[0].direction != action && remaining > 0
        invariant Apply(Ledger(lots, realizedPnl), action, remaining, price, cfg.pointValue) == booked
        invariant unchanged(`positionLots) && unchanged(`positions)
        decreases remaining
      {
        var lot := lots[0];
        var closed := Min(lot.quantity, remaining);
        OneTurn(Ledger(lots, realizedPnl), action, remaining, price, cfg.pointValue);
        realizedPnl := realizedPnl + ClosePnl(lot, closed, price, cfg.pointValue);
        remaining := remaining - closed;
        if closed == lot.quantity {
          lots := lots[1..];
        } else {
          lots := lots[0 := lot.(quantity := lot.quantity - closed)];
          assert lots == ShrinkHead([lot] + lots[1..], closed);
        }
      }
      if remaining > 0 {
        lots := lots + [Lot(action, remaining, price)];
      }
      assert Ledger(lots, realizedPnl) == booked;
      RebuildPosition(symbol, lots);
      RefreshUnrealizedPnl();
      StoredAs(old(State()), symbol, booked, cfg.pointValue, positionLots, positions);
    }

    /** The cached position of a symbol is rebuilt from its lots, and forgotten with the last of them. */
    method RebuildPosition(symbol: string, lots: seq<Lot>)
      modifies this`positionLots, this`positions
      ensures positionLots == if lots == [] then old(positionLots) - {symbol} else old(positionLots)[symbol := lots]
      ensures positions == if lots == [] then old(positions) - {symbol}
                           else old(positions)[symbol := PositionOf(symbol, lots)]
    {
      if lots == [] {
        positionLots, positions := positionLots - {symbol}, positions - {symbol};
      } else {
        positionLots, positions := positionLots[symbol := lots], positions[symbol := PositionOf(symbol, lots)];
      }
    }

    method RefreshUnrealizedPnl()
      modifies this`positions
      ensures positions == Refresh(old(positions), latestPrice, cfg.pointValue)
    {
      var todo := positions.Keys;
      while todo != {}
        invariant positions.Keys == old(positions).Keys && todo <= positions.Keys
        invariant forall s :: s in positions ==>
                    positions[s] == if s in todo then old(positions)[s]
                                    else Marked(old(positions)[s], latestPrice, cfg.pointValue)
      {
        var s :| s in todo;
        positions := positions[s := Marked(positions[s], latestPrice, cfg.pointValue)];
        todo := todo - {s};
      }
    }

    /** Every cached position, each exactly once. */
    method ListPositions() returns (list: seq<Position>)
      requires forall s :: s in positions ==> positions[s].code == s
      ensures |list| == |positions|
      ensures forall s :: s in positions ==> positions[s] in list
      ensures forall p :: p in list ==> p.code in positions && positions[p.code] == p
    {
      list := [];
      var todo := positions.Keys;
      while todo != {}
        invariant todo <= positions.Keys && |list| + |todo| == |positions|
        invariant forall s :: s in positions && s !in todo ==> positions[s] in list
        invariant forall p :: p in list ==> p.code in positions && positions[p.code] == p
      {
        var s :| s in todo;
        list := list + [positions[s]];
        todo := todo - {s};
      }
    }
  }
}
