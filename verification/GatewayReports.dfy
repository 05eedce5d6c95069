/** The events of the paper broker: what each turn of an order reports, and that every order is answered once. */
module GatewayReports {
  import opened Domain
  import opened MatchingEngine
  import opened GatewayHistory
  import opened CloseEffects
  import opened GatewayTurns
  import Broker = PaperGateway

  // ---------------------------------------------------------------- what a turn reports

  /** Why an order that left the book lost what it had not traded. */
  function Cause(b: Book, p: Pending, market: real, available: nat): CancelReason {
    var closing := p.request.intent != Entry;
    if !Touched(p.request, market) then (if p.request.tif == IOC then IocExpired else FokExpired)
    else if closing && Opposite(b, p.request) == 0 then NoPosition
    else if p.request.tif == FOK && available < p.remaining then FokExpired
    else if closing && Opposite(b, p.request) < p.remaining then OverClose
    else IocExpired
  }

  function Trades(cfg: Config, b: Book, p: Pending, market: real): seq<Event> {
    var due := Due(cfg, b, p, market);
    if due > 0 then [Filled(p.request, p.id, DuePrice(cfg, p.request, market), due)] else []
  }

  function Losses(cfg: Config, b: Book, p: Pending, market: real, first: bool): seq<Event> {
    var left := p.remaining - Due(cfg, b, p, market);
    if left > 0 && !Remains(cfg, b, p, market, first) then
      [Cancelled(p.request, p.id, left, Cause(b, p, market, Available(cfg, b, p)))]
    else []
  }

  lemma ReportsDue(cfg: Config, b: Book, p: Pending, market: real, first: bool)
    requires Cached(b, cfg.pointValue)
    ensures var o := Decide(cfg, b, p, market, first);
            && Sound(cfg, b, p, o)
            && Broker.Report(p, o) == Trades(cfg, b, p, market) + Losses(cfg, b, p, market, first)
  {
    DecideIsSound(cfg, b, p, market, first);
    DecidesDue(cfg, b, p, market, first);
    CausesAgree(cfg, b, p, market, first);
  }

  lemma CausesAgree(cfg: Config, b: Book, p: Pending, market: real, first: bool)
    requires Cached(b, cfg.pointValue)
    ensures var o, cause := Decide(cfg, b, p, market, first), Cause(b, p, market, Available(cfg, b, p));
            (o.Drop? ==> o.reason == cause) && (o.Trade? && o.leftover.Some? ==> o.leftover.value == cause)
  {
    CachedNet(b, cfg.pointValue, p.request.symbol);
  }

  /** A turn reports one fill of what is due, and one cancel of the rest if the order leaves the book with some left. */
  lemma TurnReports(cfg: Config, b: Book, id: nat, market: real, first: bool)
    requires Cached(b, cfg.pointValue) && id in b.open && b.open[id].id == id
    ensures var p := b.open[id];
            MatchOrder(cfg, b, id, market, first).log
            == Broker.AppendAll(b.log, Trades(cfg, b, p, market) + Losses(cfg, b, p, market, first))
  {
    ReportsDue(cfg, b, b.open[id], market, first);
    Broker.ReportIsLogged(cfg, b, id, Decide(cfg, b, b.open[id], market, first));
  }

  lemma EnterReports(cfg: Config, b: Book, id: nat)
    requires Cached(b, cfg.pointValue) && id in b.open && b.open[id].id == id
    ensures var p, ack := b.open[id], Acked(b.open[id].request, id, DuePrice(cfg, b.open[id].request, b.latest));
            var fill, lost := Trades(cfg, b, p, b.latest), Losses(cfg, b, p, b.latest, true);
            EnterMarket(cfg, b, id).log
            == Broker.AppendAll(b.log, if cfg.eventOrder == FillFirst then fill + [ack] + lost else [ack] + fill + lost)
  {
    var p, o := b.open[id], Decide(cfg, b, b.open[id], b.latest, true);
    var ack := Acked(p.request, id, OrderPrice(cfg, p.request, b.latest));
    ReportsDue(cfg, b, p, b.latest, true);
    Broker.ArrangedIsLogged(cfg, b, id, o, ack);
    ArrangedSo(cfg.eventOrder, ack, Trades(cfg, b, p, b.latest), Losses(cfg, b, p, b.latest, true));
  }

  /** A new order is acknowledged before its events, or right after its fill, as the setting says. */
  lemma PlacedReports(cfg: Config, b: Book, r: OrderRequest)
    requires Cached(b, cfg.pointValue) && b.connected && r.clientId !in b.seen
    ensures var id := b.sequence + 1;
            var entered, p := Register(b, r), Pending(r, id, r.quantity, 0);
            var ack := Acked(r, id, DuePrice(cfg, r, b.latest));
            var fill, lost := Trades(cfg, entered, p, b.latest), Losses(cfg, entered, p, b.latest, true);
            PlaceOrder(cfg, b, r, false).log
            == Broker.AppendAll(b.log, if cfg.eventOrder == FillFirst then fill + [ack] + lost else [ack] + fill + lost)
  {
    EnterReports(cfg, Register(b, r), b.sequence + 1);
  }

  lemma ArrangedSo(order: EventOrder, ack: Event, fill: seq<Event>, lost: seq<Event>)
    requires |fill| <= 1 && (forall e :: e in fill ==> e.Filled?) && (forall e :: e in lost ==> e.Cancelled?)
    ensures Broker.Arrange(order, ack, fill + lost)
            == if order == FillFirst then fill + [ack] + lost else [ack] + fill + lost
  {
    assert [ack] + fill + lost == [ack] + (fill + lost);
    if fill == [] {
      assert fill + lost == lost && fill + [ack] == [ack];
      assert lost != [] ==> lost[0] in lost;
    } else {
      assert fill[0] in fill && (fill + lost)[0] == fill[0] && (fill + lost)[1..] == lost;
      assert [fill[0], ack] == fill + [ack];
    }
  }

  // ---------------------------------------------------------------- every order is answered once

  /** Acknowledgements and rejects of one order number. */
  function Answers(log: Log, id: nat): (nat, nat) {
    match log
    case Start => (0, 0)
    case Then(earlier, e) =>
      var (acks, rejects) := Answers(earlier, id);
      if e.id != id then (acks, rejects)
      else match e
        case Acked(_, _, _) => (acks + 1, rejects)
        case Rejected(_, _) => (acks, rejects + 1)
        case _ => (acks, rejects)
  }

  /** Every number handed out was either accepted and acknowledged once, or rejected once. */
  ghost predicate AnsweredOnce(b: Book) {
    && (forall id: nat :: id in b.accepted ==> 1 <= id <= b.sequence && Answers(b.log, id) == (1, 0))
    && (forall id: nat :: id !in b.accepted ==> Answers(b.log, id) == (0, if 1 <= id <= b.sequence then 1 else 0))
  }

  /** Nothing was answered from a to b. */
  ghost predicate NothingAnswered(a: Book, b: Book) {
    && b.accepted == a.accepted && b.sequence == a.sequence
    && forall id: nat :: Answers(b.log, id) == Answers(a.log, id)
  }

  lemma FillAnswersNothing(cfg: Config, a: Book, b: Book, id: nat, q: Quantity, price: real)
    requires NothingAnswered(a, b) && id in b.open && q <= b.open[id].remaining
    ensures NothingAnswered(a, DoFill(cfg, b, id, q, price))
  {
    FillFrame(cfg, b, id, q, price);
  }

  lemma LeftoverAnswersNothing(a: Book, b: Book, id: nat, leftover: Option<CancelReason>)
    requires NothingAnswered(a, b)
    ensures NothingAnswered(a, DropLeftover(b, id, leftover))
  {
  }

  lemma PerformAnswersNothing(cfg: Config, a: Book, b: Book, id: nat, o: Outcome)
    requires NothingAnswered(a, b) && id in b.open && Sound(cfg, b, b.open[id], o)
    ensures NothingAnswered(a, Perform(cfg, b, id, o))
  {
    if o.Trade? {
      FillAnswersNothing(cfg, a, b, id, o.quantity, o.price);
      LeftoverAnswersNothing(a, DoFill(cfg, b, id, o.quantity, o.price), id, o.leftover);
    }
  }

  lemma {:induction false} CancelsAnswerNothing(a: Book, b: Book, id: nat)
    requires NothingAnswered(a, b)
    ensures NothingAnswered(a, CancelFrom(b, id))
    decreases b.sequence + 1 - id
  {
    if id <= b.sequence { CancelsAnswerNothing(a, CancelOrder(b, id), id + 1); }
  }

  lemma {:induction false} MatchesAnswerNothing(cfg: Config, a: Book, b: Book, id: nat)
    requires NothingAnswered(a, b)
    ensures NothingAnswered(a, MatchFrom(cfg, b, id))
    decreases b.sequence + 1 - id
  {
    if id <= b.sequence {
      if id in b.open {
        DecideIsSound(cfg, b, b.open[id], b.latest, false);
        PerformAnswersNothing(cfg, a, b, id, Decide(cfg, b, b.open[id], b.latest, false));
      }
      MatchesAnswerNothing(cfg, a, MatchIfOpen(cfg, b, id), id + 1);
    }
  }

  /** From the acknowledgement on, or up to it. */
  lemma EnterAnswers(cfg: Config, b: Book, id: nat) returns (ack: Event)
    requires id in b.open
    ensures ack.Acked? && ack.id == id && NothingAnswered(Emit(b, ack), EnterMarket(cfg, b, id))
  {
    var p := b.open[id];
    var o := Decide(cfg, b, p, b.latest, true);
    ack := Acked(p.request, id, OrderPrice(cfg, p.request, b.latest));
    DecideIsSound(cfg, b, p, b.latest, true);
    if o.Trade? && cfg.eventOrder.FillFirst? {
      var filled := DoFill(cfg, b, id, o.quantity, o.price);
      FillAnswersNothing(cfg, b, b, id, o.quantity, o.price);
      assert NothingAnswered(Emit(b, ack), Emit(filled, ack));
      LeftoverAnswersNothing(Emit(b, ack), Emit(filled, ack), id, o.leftover);
    } else {
      PerformAnswersNothing(cfg, Emit(b, ack), Emit(b, ack), id, o);
    }
  }

  lemma PlaceAnswersOnce(cfg: Config, b: Book, r: OrderRequest, rejected: bool)
    requires AnsweredOnce(b)
    ensures AnsweredOnce(PlaceOrder(cfg, b, r, rejected))
  {
    if b.connected && r.clientId !in b.seen && !rejected {
      var b1, id := Register(b, r), b.sequence + 1;
      var ack := EnterAnswers(cfg, b1, id);
      AcceptedOnce(b, r, ack, EnterMarket(cfg, b1, id));
    }
  }

  lemma AcceptedOnce(b: Book, r: OrderRequest, ack: Event, b': Book)
    requires AnsweredOnce(b) && ack.Acked? && ack.id == b.sequence + 1
    requires NothingAnswered(Emit(Register(b, r), ack), b')
    ensures AnsweredOnce(b')
  {
    assert ack.id !in b.accepted;
    forall id: nat ensures Answers(b'.log, id) == if id == ack.id then (1, 0) else Answers(b.log, id) {
      assert Answers(b'.log, id) == Answers(Then(b.log, ack), id);
    }
  }

  lemma StepAnswersOnce(cfg: Config, b: Book, a: Action)
    requires AnsweredOnce(b)
    ensures AnsweredOnce(Step(cfg, b, a))
  {
    match a
    case Place(r, rejected) => PlaceAnswersOnce(cfg, b, r, rejected);
    case CancelAll => CancelsAnswerNothing(b, b, 1);
    case Tick(price) => MatchesAnswerNothing(cfg, b, SetLatest(cfg, b, price), 1);
    case _ =>
  }

  /** In every run every order number is answered once: acknowledged if its order was accepted, else rejected. */
  lemma {:induction false} EveryOrderIsAnsweredOnce(cfg: Config, b: Book, actions: seq<Action>)
    requires AnsweredOnce(b)
    ensures AnsweredOnce(Run(cfg, b, actions))
    decreases |actions|
  {
    if actions != [] {
      StepAnswersOnce(cfg, b, actions[0]);
      EveryOrderIsAnsweredOnce(cfg, Step(cfg, b, actions[0]), actions[1..]);
    }
  }

  lemma NewBookAnswered(price: real)
    ensures AnsweredOnce(NewBook(price))
  {
  }
}
