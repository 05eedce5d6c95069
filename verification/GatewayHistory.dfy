/**
  Whole-run theorems about the paper broker. Each invariant is proved preserved by the primitive effects
  (register, refuse, fill, drop, re-mark) and lifted once, by `Preserved`, to every run.
 */
module GatewayHistory {
  import opened Domain
  import opened FifoLedger
  import opened MatchingEngine

  // ---------------------------------------------------------------- what the log adds up to

  /** What the log says about one order: contracts filled, contracts cancelled, number of fill events. */
  datatype Tally = Tally(filled: nat, cancelled: nat, fills: nat)

  function Count(t: Tally, e: Event, id: nat): Tally {
    if e.id != id then t
    else match e
      case Filled(_, _, _, q) => t.(filled := t.filled + q, fills := t.fills + 1)
      case Cancelled(_, _, q, _) => t.(cancelled := t.cancelled + q)
      case _ => t
  }

  function TallyOf(log: Log, id: nat): Tally {
    match log
    case Start => Tally(0, 0, 0)
    case Then(earlier, e) => Count(TallyOf(earlier, id), e, id)
  }

  /** Contracts filled on a symbol by orders that may open exposure, or by orders that may not. */
  function Flow(log: Log, symbol: string, closing: bool): nat {
    match log
    case Start => 0
    case Then(earlier, e) =>
      Flow(earlier, symbol, closing)
      + if e.Filled? && e.order.symbol == symbol && e.order.intent.CloseOnly() == closing then e.quantity else 0
  }

  /** The ledger of someone who books every emitted fill, in emission order. */
  function Booked(log: Log, pv: int): Ledger {
    match log
    case Start => Ledger([], 0.0)
    case Then(earlier, e) =>
      var before := Booked(earlier, pv);
      if e.Filled? then Apply(before, e.order.action, e.quantity, e.price, pv) else before
  }

  // ---------------------------------------------------------------- invariants

  type Orders = map<nat, OrderRequest>

  function OnBook(open: map<nat, Pending>, id: nat): nat {
    if id in open then open[id].remaining else 0
  }

  /** Each client id was accepted at most once. */
  ghost predicate Unique(accepted: Orders) {
    forall i, j {:trigger accepted[i], accepted[j]} ::
      i in accepted && j in accepted && i != j ==> accepted[i].clientId != accepted[j].clientId
  }

  ghost predicate Known(accepted: Orders, seen: set<string>, sequence: nat) {
    forall id :: id in accepted ==> 1 <= id <= sequence && accepted[id].clientId in seen
  }

  /** Open orders are accepted orders. */
  ghost predicate Registered(accepted: Orders, open: map<nat, Pending>) {
    forall id :: id in open ==> id in accepted && open[id].id == id && open[id].request == accepted[id]
  }

  /**
    Every contract of an accepted order is filled, cancelled or still on the book, and its time in force
    is obeyed. `settling` is true between a partial immediate fill and the cancel of its remainder.
   */
  ghost predicate Account(r: OrderRequest, open: map<nat, Pending>, t: Tally, id: nat, settling: bool) {
    && t.filled + t.cancelled + OnBook(open, id) == r.quantity
    && (id in open ==> open[id].filled == t.filled && t.cancelled == 0)
    && (r.tif.FOK? ==> t.filled == 0 || t.filled == r.quantity)
    && (!r.tif.ROD? ==> t.fills <= 1 && (id in open && !settling ==> t.fills == 0))
  }

  ghost predicate Accounted(accepted: Orders, open: map<nat, Pending>, log: Log, settling: set<nat>) {
    && (forall id :: id in accepted ==> Account(accepted[id], open, TallyOf(log, id), id, id in settling))
    && (forall id :: id !in accepted ==> TallyOf(log, id) == Tally(0, 0, 0))
  }

  /** The cached positions are what the lots and the latest price say. */
  ghost predicate Cached(b: Book, pv: int) {
    && b.lots.Keys == b.positions.Keys
    && forall s :: s in b.lots ==>
         && b.lots[s] != [] && OneSided(b.lots[s])
         && b.positions[s] == Marked(PositionOf(s, b.lots[s]), b.latest, pv)
  }

  ghost predicate EntriesOnly(accepted: Orders, symbol: string, d: Direction) {
    forall id :: id in accepted && accepted[id].symbol == symbol && accepted[id].intent.Entry? ==>
      accepted[id].action == d
  }

  /** Exposure is bounded by entries less closes, and never lies opposite to a single entry direction. */
  ghost predicate Bounded(net: int, accepted: Orders, log: Log, symbol: string) {
    && Abs(net) <= Flow(log, symbol, false) - Flow(log, symbol, true)
    && forall d :: EntriesOnly(accepted, symbol, d) ==> Signed(d, net) >= 0
  }

  ghost predicate Trades(accepted: Orders, symbol: string) {
    forall id :: id in accepted ==> accepted[id].symbol == symbol
  }

  ghost predicate Exposed(lots: map<string, seq<Lot>>, accepted: Orders, log: Log) {
    forall s :: Bounded(Net(LotsOf(lots, s)), accepted, log, s)
  }

  /** When only one symbol trades, the ledger is the replay of the emitted fills. */
  ghost predicate Replayed(lots: map<string, seq<Lot>>, realized: real, accepted: Orders, log: Log, pv: int) {
    forall s :: Trades(accepted, s) ==>
      lots.Keys <= {s} && Ledger(LotsOf(lots, s), realized) == Booked(log, pv)
  }

  /** `settling` names the order, if any, whose fill is booked but whose remainder is not yet cancelled. */
  ghost predicate Holds(cfg: Config, b: Book, settling: set<nat>) {
    && Unique(b.accepted)
    && Known(b.accepted, b.seen, b.sequence)
    && Registered(b.accepted, b.open)
    && Accounted(b.accepted, b.open, b.log, settling)
    && Cached(b, cfg.pointValue)
    && Exposed(b.lots, b.accepted, b.log)
    && Replayed(b.lots, b.realized, b.accepted, b.log, cfg.pointValue)
  }

  ghost predicate Invariant(cfg: Config, b: Book) {
    Holds(cfg, b, {})
  }

  // ---------------------------------------------------------------- one primitive at a time

  lemma CachedNet(b: Book, pv: int, symbol: string)
    requires Cached(b, pv)
    ensures symbol !in b.positions ==> NetOf(b, symbol) == 0
    ensures symbol in b.positions ==>
              NetOf(b, symbol) == Signed(b.positions[symbol].direction, b.positions[symbol].quantity)
  {
    if symbol in b.lots { NetIsSignedTotal(b.lots[symbol]); }
  }

  lemma StoreCached(b: Book, symbol: string, l: Ledger, pv: int)
    requires Cached(b, pv) && OneSided(l.lots)
    ensures Cached(StoreLots(b, symbol, l, pv), pv)
    ensures LotsOf(StoreLots(b, symbol, l, pv).lots, symbol) == l.lots
    ensures forall s :: s != symbol ==> LotsOf(StoreLots(b, symbol, l, pv).lots, s) == LotsOf(b.lots, s)
  {
    StoreKeepsOthers(b, symbol, l, pv);
    forall s | s in StoreLots(b, symbol, l, pv).lots ensures StoredRight(StoreLots(b, symbol, l, pv), s, pv) {
      StoredStaysRight(b, symbol, l, pv, s);
    }
  }

  lemma StoredStaysRight(b: Book, symbol: string, l: Ledger, pv: int, s: string)
    requires Cached(b, pv) && OneSided(l.lots) && s in StoreLots(b, symbol, l, pv).lots
    ensures StoredRight(StoreLots(b, symbol, l, pv), s, pv)
  {
    assert s == symbol || StoredRight(b, s, pv);
  }

  ghost predicate StoredRight(b: Book, s: string, pv: int) {
    && s in b.lots && s in b.positions && b.lots[s] != [] && OneSided(b.lots[s])
    && b.positions[s] == Marked(PositionOf(s, b.lots[s]), b.latest, pv)
  }

  lemma StoreKeepsOthers(b: Book, symbol: string, l: Ledger, pv: int)
    ensures LotsOf(StoreLots(b, symbol, l, pv).lots, symbol) == l.lots
    ensures forall s :: s != symbol ==> LotsOf(StoreLots(b, symbol, l, pv).lots, s) == LotsOf(b.lots, s)
  {
  }

  lemma UpdateCached(b: Book, symbol: string, action: Direction, q: nat, price: real, pv: int)
    requires Cached(b, pv)
    ensures Cached(UpdatePosition(b, symbol, action, q, price, pv), pv)
    ensures NetOf(UpdatePosition(b, symbol, action, q, price, pv), symbol) == NetOf(b, symbol) + Signed(action, q)
  {
    var l := Ledger(LotsOf(b.lots, symbol), b.realized);
    ApplyOneSided(l, action, q, price, pv);
    ApplyNet(l, action, q, price, pv);
    StoreCached(b, symbol, Apply(l, action, q, price, pv), pv);
  }

  lemma FillBounded(net: int, accepted: Orders, log: Log, symbol: string, e: Event)
    requires Bounded(net, accepted, log, symbol)
    requires e.Filled? && e.order.symbol == symbol && e.id in accepted && accepted[e.id] == e.order
    requires e.order.intent.CloseOnly() ==> Signed(e.order.action, net) + e.quantity <= 0
    ensures Bounded(net + Signed(e.order.action, e.quantity), accepted, Then(log, e), symbol)
  {
  }

  lemma StillBounded(net: int, accepted: Orders, log: Log, symbol: string, e: Event)
    requires Bounded(net, accepted, log, symbol) && (e.Filled? ==> e.order.symbol != symbol)
    ensures Bounded(net, accepted, Then(log, e), symbol)
  {
  }

  /** A fill keeps every account; only its own may still be settling. */
  lemma FillAccounted(accepted: Orders, open: map<nat, Pending>, log: Log, id: nat, q: Quantity, e: Event)
    requires Accounted(accepted, open, log, {}) && e.Filled? && e.id == id && e.quantity == q
    requires id in accepted && id in open && q <= open[id].remaining
    requires accepted[id].tif.FOK? ==> q == open[id].remaining
    ensures Accounted(accepted, Trim(open, id, q), Then(log, e), {id})
    ensures q == open[id].remaining ==> Accounted(accepted, Trim(open, id, q), Then(log, e), {})
  {
  }

  lemma FillExposed(cfg: Config, b: Book, id: nat, q: Quantity, price: real)
    requires Registered(b.accepted, b.open) && Cached(b, cfg.pointValue) && Exposed(b.lots, b.accepted, b.log)
    requires id in b.open && q <= b.open[id].remaining
    requires b.open[id].request.intent.CloseOnly() ==> q <= Closable(b, b.open[id].request)
    ensures Exposed(DoFill(cfg, b, id, q, price).lots, b.accepted,
                    Then(b.log, Filled(b.open[id].request, id, price, q)))
    ensures Cached(DoFill(cfg, b, id, q, price), cfg.pointValue)
  {
    var r, e, pv := b.open[id].request, Filled(b.open[id].request, id, price, q), cfg.pointValue;
    var l := Ledger(LotsOf(b.lots, r.symbol), b.realized);
    var b' := UpdatePosition(b, r.symbol, r.action, q, price, pv);
    UpdateCached(b, r.symbol, r.action, q, price, pv);
    CachedNet(b, pv, r.symbol);
    ApplyOneSided(l, r.action, q, price, pv);
    StoreCached(b, r.symbol, Apply(l, r.action, q, price, pv), pv);
    forall s ensures Bounded(Net(LotsOf(b'.lots, s)), b.accepted, Then(b.log, e), s) {
      assert Bounded(Net(LotsOf(b.lots, s)), b.accepted, b.log, s);
      if s == r.symbol { FillBounded(NetOf(b, s), b.accepted, b.log, s, e); }
      else { StillBounded(NetOf(b, s), b.accepted, b.log, s, e); }
    }
  }

  lemma FillReplayed(cfg: Config, b: Book, id: nat, q: Quantity, price: real)
    requires Registered(b.accepted, b.open) && id in b.open && q <= b.open[id].remaining
    requires Replayed(b.lots, b.realized, b.accepted, b.log, cfg.pointValue)
    ensures var b' := DoFill(cfg, b, id, q, price);
            Replayed(b'.lots, b'.realized, b'.accepted, b'.log, cfg.pointValue)
  {
  }

  lemma FillFrame(cfg: Config, b: Book, id: nat, q: Quantity, price: real)
    requires id in b.open && q <= b.open[id].remaining
    ensures var b' := DoFill(cfg, b, id, q, price);
            && b'.accepted == b.accepted && b'.seen == b.seen && b'.sequence == b.sequence
            && b'.open == Trim(b.open, id, q) && b'.log == Then(b.log, Filled(b.open[id].request, id, price, q))
  {
  }

  /** Booking a trade that the decision allows. */
  lemma DoFillHolds(cfg: Config, b: Book, id: nat, q: Quantity, price: real)
    requires Invariant(cfg, b) && id in b.open && q <= b.open[id].remaining
    requires b.open[id].request.tif.FOK? ==> q == b.open[id].remaining
    requires b.open[id].request.intent.CloseOnly() ==> q <= Closable(b, b.open[id].request)
    ensures Holds(cfg, DoFill(cfg, b, id, q, price), {id})
    ensures q == b.open[id].remaining ==> Invariant(cfg, DoFill(cfg, b, id, q, price))
  {
    var b' := DoFill(cfg, b, id, q, price);
    FillFrame(cfg, b, id, q, price);
    FillAccounted(b.accepted, b.open, b.log, id, q, Filled(b.open[id].request, id, price, q));
    FillExposed(cfg, b, id, q, price);
    FillReplayed(cfg, b, id, q, price);
    TrimRegistered(b.accepted, b.open, id, q);
  }

  lemma TrimRegistered(accepted: Orders, open: map<nat, Pending>, id: nat, q: Quantity)
    requires Registered(accepted, open) && id in open && q <= open[id].remaining
    ensures Registered(accepted, Trim(open, id, q))
  {
  }

  /** An event that is not a fill leaves exposure and fill history alone. */
  lemma QuietEvent(lots: map<string, seq<Lot>>, accepted: Orders, log: Log, e: Event)
    requires Exposed(lots, accepted, log) && !e.Filled?
    ensures Exposed(lots, accepted, Then(log, e))
    ensures forall pv :: Booked(Then(log, e), pv) == Booked(log, pv)
  {
  }

  lemma DoDropHolds(cfg: Config, b: Book, id: nat, reason: CancelReason)
    requires Holds(cfg, b, {id}) && id in b.open
    ensures Invariant(cfg, DoDrop(b, id, reason))
  {
    var e := Cancelled(b.open[id].request, id, b.open[id].remaining, reason);
    DropAccounted(b.accepted, b.open, b.log, id, e);
    QuietEvent(b.lots, b.accepted, b.log, e);
  }

  lemma DropAccounted(accepted: Orders, open: map<nat, Pending>, log: Log, id: nat, e: Event)
    requires Accounted(accepted, open, log, {id}) && id in accepted && id in open
    requires e.Cancelled? && e.id == id && e.quantity == open[id].remaining
    ensures Accounted(accepted, open - {id}, Then(log, e), {})
  {
  }

  lemma AckAccounted(accepted: Orders, open: map<nat, Pending>, log: Log, e: Event, settling: set<nat>)
    requires Accounted(accepted, open, log, settling) && (e.Acked? || e.Rejected?)
    ensures Accounted(accepted, open, Then(log, e), settling)
  {
  }

  lemma AckHolds(cfg: Config, b: Book, e: Event, settling: set<nat>)
    requires Holds(cfg, b, settling) && (e.Acked? || e.Rejected?)
    ensures Holds(cfg, Emit(b, e), settling)
  {
    QuietEvent(b.lots, b.accepted, b.log, e);
    AckAccounted(b.accepted, b.open, b.log, e, settling);
  }

  lemma AdmitUnique(accepted: Orders, open: map<nat, Pending>, seen: set<string>, sequence: nat, id: nat,
                    r: OrderRequest)
    requires Unique(accepted) && Known(accepted, seen, sequence) && Registered(accepted, open)
    requires id == sequence + 1 && r.clientId !in seen
    ensures Unique(accepted[id := r]) && Known(accepted[id := r], seen + {r.clientId}, id)
    ensures Registered(accepted[id := r], open[id := Pending(r, id, r.quantity, 0)])
    ensures id !in accepted && id !in open
  {
  }

  lemma AdmitAccounted(accepted: Orders, open: map<nat, Pending>, log: Log, id: nat, r: OrderRequest)
    requires Accounted(accepted, open, log, {}) && id !in accepted && id !in open
    ensures Accounted(accepted[id := r], open[id := Pending(r, id, r.quantity, 0)], log, {})
  {
  }

  lemma RegisterHolds(cfg: Config, b: Book, r: OrderRequest)
    requires Invariant(cfg, b) && r.clientId !in b.seen
    ensures Invariant(cfg, Register(b, r))
  {
    AdmitUnique(b.accepted, b.open, b.seen, b.sequence, b.sequence + 1, r);
    AdmitAccounted(b.accepted, b.open, b.log, b.sequence + 1, r);
    GrowAccepted(b.lots, b.realized, b.accepted, b.log, b.sequence + 1, r, cfg.pointValue);
  }

  lemma GrowAccepted(lots: map<string, seq<Lot>>, realized: real, accepted: Orders, log: Log,
                     id: nat, r: OrderRequest, pv: int)
    requires id !in accepted && Exposed(lots, accepted, log) && Replayed(lots, realized, accepted, log, pv)
    ensures Exposed(lots, accepted[id := r], log) && Replayed(lots, realized, accepted[id := r], log, pv)
  {
    var grown := accepted[id := r];
    assert forall i :: i in accepted ==> i in grown && accepted[i] == grown[i];
    forall s ensures Bounded(Net(LotsOf(lots, s)), grown, log, s) {
      assert Bounded(Net(LotsOf(lots, s)), accepted, log, s);
      forall d | EntriesOnly(grown, s, d) ensures Signed(d, Net(LotsOf(lots, s))) >= 0 {
        assert EntriesOnly(accepted, s, d);
      }
    }
    forall s | Trades(grown, s) ensures Trades(accepted, s) {
    }
  }

  // ---------------------------------------------------------------- every request, every run

  lemma PerformHolds(cfg: Config, b: Book, id: nat, o: Outcome)
    requires Invariant(cfg, b) && id in b.open && Sound(cfg, b, b.open[id], o)
    ensures Invariant(cfg, Perform(cfg, b, id, o))
  {
    match o
    case Rest =>
    case Drop(reason) => DoDropHolds(cfg, b, id, reason);
    case Trade(q, price, leftover) =>
      DoFillHolds(cfg, b, id, q, price);
      SettleHolds(cfg, DoFill(cfg, b, id, q, price), id, leftover);
  }

  lemma SettleHolds(cfg: Config, b: Book, id: nat, leftover: Option<CancelReason>)
    requires Holds(cfg, b, {id})
    requires leftover.None? ==> id !in b.open || b.accepted[id].tif.ROD?
    ensures Invariant(cfg, DropLeftover(b, id, leftover))
  {
    if leftover.Some? && id in b.open {
      DoDropHolds(cfg, b, id, leftover.value);
    } else {
      SettleAccounted(b.accepted, b.open, b.log, id);
    }
  }

  lemma SettleAccounted(accepted: Orders, open: map<nat, Pending>, log: Log, id: nat)
    requires Accounted(accepted, open, log, {id}) && (id !in open || (id in accepted && accepted[id].tif.ROD?))
    ensures Accounted(accepted, open, log, {})
  {
  }

  lemma PerformAckedHolds(cfg: Config, b: Book, id: nat, o: Outcome, ack: Event)
    requires Invariant(cfg, b) && id in b.open && Sound(cfg, b, b.open[id], o) && ack.Acked?
    ensures Invariant(cfg, PerformAcked(cfg, b, id, o, ack))
  {
    if o.Trade? && cfg.eventOrder.FillFirst? {
      var filled := DoFill(cfg, b, id, o.quantity, o.price);
      DoFillHolds(cfg, b, id, o.quantity, o.price);
      AckHolds(cfg, filled, ack, {id});
      SettleHolds(cfg, Emit(filled, ack), id, o.leftover);
    } else {
      AckHolds(cfg, b, ack, {});
      PerformHolds(cfg, Emit(b, ack), id, o);
    }
  }

  lemma PlaceHolds(cfg: Config, b: Book, r: OrderRequest, rejected: bool)
    requires Invariant(cfg, b)
    ensures Invariant(cfg, PlaceOrder(cfg, b, r, rejected))
  {
    if b.connected && r.clientId !in b.seen {
      if rejected {
        RefuseHolds(cfg, b, r);
      } else {
        RegisterHolds(cfg, b, r);
        EnterHolds(cfg, Register(b, r), b.sequence + 1);
        assert PlaceOrder(cfg, b, r, rejected) == EnterMarket(cfg, Register(b, r), b.sequence + 1);
      }
    }
  }

  lemma RefuseHolds(cfg: Config, b: Book, r: OrderRequest)
    requires Invariant(cfg, b)
    ensures Invariant(cfg, Refuse(b, r))
  {
    var e := Rejected(r, b.sequence + 1);
    QuietEvent(b.lots, b.accepted, b.log, e);
    AckAccounted(b.accepted, b.open, b.log, e, {});
  }

  lemma EnterHolds(cfg: Config, b: Book, id: nat)
    requires Invariant(cfg, b) && id in b.open
    ensures Invariant(cfg, EnterMarket(cfg, b, id))
  {
    var p := b.open[id];
    DecideIsSound(cfg, b, p, b.latest, true);
    PerformAckedHolds(cfg, b, id, Decide(cfg, b, p, b.latest, true),
                      Acked(p.request, id, OrderPrice(cfg, p.request, b.latest)));
  }

  lemma CancelHolds(cfg: Config, b: Book, id: nat)
    requires Invariant(cfg, b)
    ensures Invariant(cfg, CancelOrder(b, id))
  {
    if id in b.open {
      forall i | i in b.accepted ensures Account(b.accepted[i], b.open, TallyOf(b.log, i), i, i in {id}) {
        assert Account(b.accepted[i], b.open, TallyOf(b.log, i), i, i in {});
      }
      DoDropHolds(cfg, b, id, UserCancel);
    }
  }

  lemma {:induction false} CancelFromHolds(cfg: Config, b: Book, id: nat)
    requires Invariant(cfg, b)
    ensures Invariant(cfg, CancelFrom(b, id))
    decreases b.sequence + 1 - id
  {
    if id <= b.sequence {
      CancelHolds(cfg, b, id);
      CancelFromHolds(cfg, CancelOrder(b, id), id + 1);
    }
  }

  lemma {:induction false} MatchFromHolds(cfg: Config, b: Book, id: nat)
    requires Invariant(cfg, b)
    ensures Invariant(cfg, MatchFrom(cfg, b, id))
    decreases b.sequence + 1 - id
  {
    if id <= b.sequence {
      if id in b.open {
        DecideIsSound(cfg, b, b.open[id], b.latest, false);
        PerformHolds(cfg, b, id, Decide(cfg, b, b.open[id], b.latest, false));
      }
      MatchFromHolds(cfg, MatchIfOpen(cfg, b, id), id + 1);
    }
  }

  lemma MarkHolds(cfg: Config, b: Book, price: real)
    requires Invariant(cfg, b)
    ensures Invariant(cfg, SetLatest(cfg, b, price))
  {
  }

  lemma StepHolds(cfg: Config, b: Book, a: Action)
    requires Invariant(cfg, b)
    ensures Invariant(cfg, Step(cfg, b, a))
  {
    match a
    case Place(r, rejected) => PlaceHolds(cfg, b, r, rejected);
    case Cancel(id) => CancelHolds(cfg, b, id);
    case CancelAll => CancelFromHolds(cfg, b, 1);
    case Tick(price) =>
      MarkHolds(cfg, b, price);
      MatchFromHolds(cfg, SetLatest(cfg, b, price), 1);
    case SetLimits(_, _) =>
    case Connect =>
    case Disconnect =>
  }

  lemma {:induction false} Preserved(cfg: Config, b: Book, actions: seq<Action>)
    requires Invariant(cfg, b)
    ensures Invariant(cfg, Run(cfg, b, actions))
    decreases |actions|
  {
    if actions != [] {
      StepHolds(cfg, b, actions[0]);
      Preserved(cfg, Step(cfg, b, actions[0]), actions[1..]);
    }
  }

  lemma NewBookHolds(cfg: Config, price: real)
    ensures Invariant(cfg, NewBook(price))
  {
  }
}
