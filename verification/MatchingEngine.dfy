/**
  Specification of the paper broker: what each request does to the order book, the lot ledger and the
  log of emitted events. A matching attempt is a decision (`Decide`) followed by its effect (`Perform`),
  so that every property of a run reduces to the few primitive effects.
 */
module MatchingEngine {
  import opened Domain
  import opened FifoLedger

  datatype EventOrder = FillFirst | AckFirst

  datatype CancelReason = UserCancel | IocExpired | FokExpired | OverClose | NoPosition

  /** Every event carries the order it reports on; consumers see only the fields of `ToFill`. */
  datatype Event =
    | Filled(order: OrderRequest, id: nat, price: real, quantity: Quantity)
    | Acked(order: OrderRequest, id: nat, price: real)
    | Cancelled(order: OrderRequest, id: nat, quantity: Quantity, reason: CancelReason)
    | Rejected(order: OrderRequest, id: nat)

  /** Emitted events, most recent last. */
  datatype Log = Start | Then(earlier: Log, last: Event)

  function ToFill(e: Event): FillEvent
    requires e.Filled?
  {
    FillEvent(Some(e.order.clientId), e.id, e.order.symbol, e.order.action, e.price, e.quantity)
  }

  datatype Config = Config(
    pointValue: int, tickSize: int, slippageTicks: nat, maxFill: Option<Quantity>, eventOrder: EventOrder)

  datatype Pending = Pending(request: OrderRequest, id: nat, remaining: Quantity, filled: nat)

  /**
    The broker's state. Order numbers are handed out in sequence, so increasing numbers are also the
    insertion order of the open orders. `accepted` and `log` record history and influence nothing.
   */
  datatype Book = Book(
    connected: bool, latest: real, limits: Option<(real, real)>,
    open: map<nat, Pending>, lots: map<string, seq<Lot>>, positions: map<string, Position>,
    seen: set<string>, sequence: nat, realized: real,
    accepted: map<nat, OrderRequest>, log: Log)

  function NewBook(price: real): Book {
    Book(false, price, None, map[], map[], map[], {}, 0, 0.0, map[], Start)
  }

  // ---------------------------------------------------------------- positions

  function LotsOf(lots: map<string, seq<Lot>>, symbol: string): seq<Lot> {
    if symbol in lots then lots[symbol] else []
  }

  function NetOf(b: Book, symbol: string): int {
    Net(LotsOf(b.lots, symbol))
  }

  function PositionOf(symbol: string, lots: seq<Lot>): Position
    requires lots != []
  {
    TotalPositive(lots);
    Position(symbol, lots[0].direction, Total(lots), Average(lots), 0.0)
  }

  function Marked(p: Position, latest: real, pv: int): Position {
    p.(unrealizedPnl := Gain(Signed(p.direction, p.quantity), p.averagePrice, latest, pv))
  }

  function Refresh(positions: map<string, Position>, latest: real, pv: int): map<string, Position> {
    map s | s in positions :: Marked(positions[s], latest, pv)
  }

  function StoreLots(b: Book, symbol: string, l: Ledger, pv: int): Book {
    if l.lots == [] then
      b.(lots := b.lots - {symbol}, positions := Refresh(b.positions - {symbol}, b.latest, pv), realized := l.realized)
    else
      b.(lots := b.lots[symbol := l.lots],
         positions := Refresh(b.positions[symbol := PositionOf(symbol, l.lots)], b.latest, pv),
         realized := l.realized)
  }

  function UpdatePosition(b: Book, symbol: string, action: Direction, q: nat, price: real, pv: int): Book {
    StoreLots(b, symbol, Apply(Ledger(LotsOf(b.lots, symbol), b.realized), action, q, price, pv), pv)
  }

  // ---------------------------------------------------------------- decisions

  function OrderPrice(cfg: Config, r: OrderRequest, market: real): real {
    if r.priceType.LMT? then r.price.value
    else market + (r.action.Sign() * cfg.slippageTicks * cfg.tickSize) as real
  }

  predicate Crossed(r: OrderRequest, market: real) {
    r.price.None? || if r.action.Long? then market <= r.price.value else market >= r.price.value
  }

  predicate Within(limits: Option<(real, real)>, price: real) {
    limits.Some? ==> limits.value.0 <= price <= limits.value.1
  }

  function Closable(b: Book, r: OrderRequest): nat {
    if r.symbol in b.positions && r.action == b.positions[r.symbol].direction.Opposite()
    then b.positions[r.symbol].quantity else 0
  }

  function Liquid(cfg: Config, q: nat): (m: nat)
    ensures m <= q && (q > 0 ==> m > 0)
  {
    if cfg.maxFill.None? then q else Min(q, cfg.maxFill.value)
  }

  /** How much may trade now, and why a close order would lose its remainder. */
  function Fillable(cfg: Config, b: Book, p: Pending): (nat, Option<CancelReason>) {
    if p.request.intent.CloseOnly() then
      var q := Min(p.remaining, Closable(b, p.request));
      if q == 0 then (0, Some(NoPosition))
      else if q < p.remaining then (Liquid(cfg, q), Some(OverClose))
      else (Liquid(cfg, q), None)
    else
      (Liquid(cfg, p.remaining), None)
  }

  function Expiry(tif: TimeInForce): CancelReason {
    match tif
    case FOK => FokExpired
    case IOC => IocExpired
    case ROD => NoPosition
  }

  datatype Outcome =
    | Rest
    | Drop(reason: CancelReason)
    | Trade(quantity: Quantity, price: real, leftover: Option<CancelReason>)

  function Decide(cfg: Config, b: Book, p: Pending, market: real, immediate: bool): Outcome {
    var r := p.request;
    if r.priceType.LMT? && !Crossed(r, market) then
      if immediate && !r.tif.ROD? then Drop(Expiry(r.tif)) else Rest
    else
      var price := OrderPrice(cfg, r, market);
      if !Within(b.limits, price) then Rest
      else
        var (q, why) := Fillable(cfg, b, p);
        if q == 0 then Drop(if why.Some? then why.value else Expiry(r.tif))
        else if r.tif.FOK? && q < p.remaining then Drop(FokExpired)
        else Trade(q, price, if why.None? && r.tif.IOC? && q < p.remaining then Some(IocExpired) else why)
  }

  /** What every decision guarantees about the trade it allows. */
  predicate Sound(cfg: Config, b: Book, p: Pending, o: Outcome) {
    o.Trade? ==>
      && o.quantity <= p.remaining
      && Within(b.limits, o.price)
      && (cfg.maxFill.Some? ==> o.quantity <= cfg.maxFill.value)
      && (p.request.intent.CloseOnly() ==> o.quantity <= Closable(b, p.request))
      && (p.request.tif.FOK? ==> o.quantity == p.remaining && o.leftover.None?)
      && (p.request.tif.IOC? && o.leftover.None? ==> o.quantity == p.remaining)
      && (o.leftover.Some? ==> o.quantity < p.remaining)
  }

  lemma DecideIsSound(cfg: Config, b: Book, p: Pending, market: real, immediate: bool)
    ensures Sound(cfg, b, p, Decide(cfg, b, p, market, immediate))
  {
  }

  // ---------------------------------------------------------------- primitive effects

  function Emit(b: Book, e: Event): Book {
    b.(log := Then(b.log, e))
  }

  function Trim(open: map<nat, Pending>, id: nat, q: Quantity): map<nat, Pending>
    requires id in open && q <= open[id].remaining
  {
    if q == open[id].remaining then open - {id}
    else open[id := open[id].(remaining := open[id].remaining - q, filled := open[id].filled + q)]
  }

  function DoFill(cfg: Config, b: Book, id: nat, q: Quantity, price: real): Book
    requires id in b.open && q <= b.open[id].remaining
  {
    var r := b.open[id].request;
    Emit(UpdatePosition(b, r.symbol, r.action, q, price, cfg.pointValue).(open := Trim(b.open, id, q)),
         Filled(r, id, price, q))
  }

  function DoDrop(b: Book, id: nat, reason: CancelReason): Book
    requires id in b.open
  {
    Emit(b.(open := b.open - {id}), Cancelled(b.open[id].request, id, b.open[id].remaining, reason))
  }

  function DropLeftover(b: Book, id: nat, leftover: Option<CancelReason>): Book {
    if leftover.Some? && id in b.open then DoDrop(b, id, leftover.value) else b
  }

  function Perform(cfg: Config, b: Book, id: nat, o: Outcome): Book
    requires id in b.open && Sound(cfg, b, b.open[id], o)
  {
    match o
    case Rest => b
    case Drop(reason) => DoDrop(b, id, reason)
    case Trade(q, price, leftover) => DropLeftover(DoFill(cfg, b, id, q, price), id, leftover)
  }

  /** As `Perform`, with the acknowledgement of a new order placed where the configuration wants it. */
  function PerformAcked(cfg: Config, b: Book, id: nat, o: Outcome, ack: Event): Book
    requires id in b.open && Sound(cfg, b, b.open[id], o)
  {
    if o.Trade? && cfg.eventOrder.FillFirst? then
      DropLeftover(Emit(DoFill(cfg, b, id, o.quantity, o.price), ack), id, o.leftover)
    else
      Perform(cfg, Emit(b, ack), id, o)
  }

  // ---------------------------------------------------------------- requests

  function MatchOrder(cfg: Config, b: Book, id: nat, market: real, immediate: bool): Book
    requires id in b.open
  {
    DecideIsSound(cfg, b, b.open[id], market, immediate);
    Perform(cfg, b, id, Decide(cfg, b, b.open[id], market, immediate))
  }

  function Register(b: Book, r: OrderRequest): Book {
    var id := b.sequence + 1;
    b.(seen := b.seen + {r.clientId}, sequence := id,
       open := b.open[id := Pending(r, id, r.quantity, 0)], accepted := b.accepted[id := r])
  }

  function Refuse(b: Book, r: OrderRequest): Book {
    Emit(b.(seen := b.seen + {r.clientId}, sequence := b.sequence + 1), Rejected(r, b.sequence + 1))
  }

  /** The immediate matching attempt of a newly registered order. */
  function EnterMarket(cfg: Config, b: Book, id: nat): Book
    requires id in b.open
  {
    var p := b.open[id];
    DecideIsSound(cfg, b, p, b.latest, true);
    PerformAcked(cfg, b, id, Decide(cfg, b, p, b.latest, true),
                 Acked(p.request, id, OrderPrice(cfg, p.request, b.latest)))
  }

  function PlaceOrder(cfg: Config, b: Book, r: OrderRequest, rejected: bool): Book {
    if !b.connected || r.clientId in b.seen then b
    else if rejected then Refuse(b, r)
    else EnterMarket(cfg, Register(b, r), b.sequence + 1)
  }

  /** The answer to a placement: none when disconnected, else a number unless the client id was seen before. */
  function AckFor(b: Book, r: OrderRequest, rejected: bool): Option<OrderAck> {
    if !b.connected then None
    else if r.clientId in b.seen then Some(OrderAck(r.clientId, None, false))
    else Some(OrderAck(r.clientId, Some(b.sequence + 1), !rejected))
  }

  function CancelOrder(b: Book, id: nat): Book {
    if id in b.open then DoDrop(b, id, UserCancel) else b
  }

  function CancelFrom(b: Book, id: nat): Book
    decreases b.sequence + 1 - id
  {
    if id > b.sequence then b else CancelFrom(CancelOrder(b, id), id + 1)
  }

  function SetLatest(cfg: Config, b: Book, price: real): Book {
    b.(latest := price, positions := Refresh(b.positions, price, cfg.pointValue))
  }

  function MatchIfOpen(cfg: Config, b: Book, id: nat): (r: Book)
    ensures r.sequence == b.sequence
  {
    if id in b.open then MatchOrder(cfg, b, id, b.latest, false) else b
  }

  function MatchFrom(cfg: Config, b: Book, id: nat): Book
    decreases b.sequence + 1 - id
  {
    if id > b.sequence then b else MatchFrom(cfg, MatchIfOpen(cfg, b, id), id + 1)
  }

  datatype Action =
    | Place(request: OrderRequest, rejected: bool)
    | Cancel(id: nat)
    | CancelAll
    | Tick(price: real)
    | SetLimits(down: real, up: real)
    | Connect
    | Disconnect

  function Step(cfg: Config, b: Book, a: Action): Book {
    match a
    case Place(r, rejected) => PlaceOrder(cfg, b, r, rejected)
    case Cancel(id) => CancelOrder(b, id)
    case CancelAll => CancelFrom(b, 1)
    case Tick(price) => MatchFrom(cfg, SetLatest(cfg, b, price), 1)
    case SetLimits(down, up) => if down > up then b else b.(limits := Some((down, up)))
    case Connect => b.(connected := true)
    case Disconnect => b.(connected := false)
  }

  function Run(cfg: Config, b: Book, actions: seq<Action>): Book
    decreases |actions|
  {
    if actions == [] then b else Run(cfg, Step(cfg, b, actions[0]), actions[1..])
  }
}
