/** Specification of the one-sided scalping strategy: what each event does to it and what it answers. */
module ScalpRules {
  import opened Domain
  import opened StrategyBase

  datatype Setup = Setup(
    direction: Direction, trigger: real, quantity: int, tickSize: Quantity,
    takeProfitPoints: Option<int>, stopLossPoints: Option<int>,
    takeProfitPrice: Option<real>, stopLossPrice: Option<real>, trailingPoints: Option<int>,
    entryLimit: bool, takeProfitLimit: bool, stopLossLimit: bool)

  predicate PointsMode(p: Setup) {
    p.takeProfitPoints.Some? && p.stopLossPoints.Some?
  }

  predicate PriceMode(p: Setup) {
    p.takeProfitPrice.Some? && p.stopLossPrice.Some?
  }

  predicate Positive(points: Option<int>) {
    points.Some? ==> points.value > 0
  }

  predicate Aligned(price: real, tickSize: Quantity) {
    price > 0.0 && (price / tickSize as real).Floor as real == price / tickSize as real
  }

  function Ticks(ticks: int, tickSize: Quantity): real {
    ticks as real * tickSize as real
  }

  /** Aligned prices are the positive whole numbers of ticks. */
  lemma AlignedMeansWholeTicks(price: real, tickSize: Quantity)
    ensures Aligned(price, tickSize) <==> price > 0.0 && exists ticks: int :: price == Ticks(ticks, tickSize)
  {
    var share := price / tickSize as real;
    assert share * tickSize as real == price;
    if share.Floor as real == share {
      assert price == Ticks(share.Floor, tickSize);
    }
    if ticks: int :| price == Ticks(ticks, tickSize) {
      assert share == ticks as real;
    }
  }

  /** Whether a is strictly ahead of b for a position on side d. */
  predicate Ahead(d: Direction, a: real, b: real) {
    if d.Long? then a > b else a < b
  }

  /** The setups that construction does not refuse. */
  ghost predicate Accepts(p: Setup) {
    && p.quantity > 0 && p.trigger > 0.0
    && PointsMode(p) != PriceMode(p)
    && (p.takeProfitPoints.None? <==> p.stopLossPoints.None?)
    && (p.takeProfitPrice.None? <==> p.stopLossPrice.None?)
    && Positive(p.takeProfitPoints) && Positive(p.stopLossPoints) && Positive(p.trailingPoints)
    && (PriceMode(p) ==>
          && p.trailingPoints.None?
          && Aligned(p.takeProfitPrice.value, p.tickSize) && Aligned(p.stopLossPrice.value, p.tickSize)
          && Ahead(p.direction, p.takeProfitPrice.value, p.trigger)
          && Ahead(p.direction, p.trigger, p.stopLossPrice.value))
    && (!PriceMode(p) ==> !p.takeProfitLimit && !p.stopLossLimit)
  }

  type Params = p: Setup | Accepts(p)
    witness Setup(Long, 1.0, 1, 1, Some(1), Some(1), None, None, None, false, false, false)

  /** The strategy's fields; `moves` counts its state transitions and influences nothing. */
  datatype Scalp = Scalp(
    state: State, filled: nat, entryValue: real, entryPrice: Option<real>, best: Option<real>,
    latest: Option<real>, exitEmitted: bool, moves: nat)

  const FRESH_SCALP: Scalp := Scalp(Idle, 0, 0.0, None, None, None, false, 0)

  /** The state left behind, the signals returned, and whether the call ended in a strategy error. */
  datatype Reaction = Reaction(next: Scalp, signals: seq<Signal>, raised: bool)

  function Quiet(s: Scalp): Reaction {
    Reaction(s, [], false)
  }

  function Failed(s: Scalp): Reaction {
    Reaction(s, [], true)
  }

  function Move(s: Scalp, to: State): Reaction {
    if Legal(s.state, to) then Quiet(s.(state := to, moves := s.moves + 1)) else Failed(s)
  }

  // ---------------------------------------------------------------- exit levels

  function Offset(d: Direction, from: real, points: int): real {
    from + (d.Sign() * points) as real
  }

  predicate Reached(d: Direction, price: real, level: real) {
    if d.Long? then price >= level else price <= level
  }

  function StopPrice(p: Params, s: Scalp): Option<real> {
    if PriceMode(p) then p.stopLossPrice
    else if s.entryPrice.None? then None
    else if p.trailingPoints.Some? && s.best.Some? then Some(Offset(p.direction, s.best.value, -p.trailingPoints.value))
    else Some(Offset(p.direction, s.entryPrice.value, -p.stopLossPoints.value))
  }

  function TakeProfitLevel(p: Params, entry: real): real {
    if p.takeProfitPrice.Some? then p.takeProfitPrice.value else Offset(p.direction, entry, p.takeProfitPoints.value)
  }

  function Better(d: Direction, a: real, b: real): real {
    if d.Long? then (if b > a then b else a) else (if b < a then b else a)
  }

  function UpdateBest(p: Params, s: Scalp, price: real): Scalp {
    s.(best := Some(if s.best.None? then price else Better(p.direction, s.best.value, price)))
  }

  // ---------------------------------------------------------------- exits

  function ExitLimit(p: Params, s: Scalp, intent: Intent, forceMarket: bool): Option<real> {
    var limited := if intent.TakeProfit? then p.takeProfitLimit else p.stopLossLimit;
    if intent.ForceClose? || !limited || forceMarket then None
    else if intent.TakeProfit? then p.takeProfitPrice
    else StopPrice(p, s)
  }

  function EmitExit(p: Params, s: Scalp, intent: Intent, forceMarket: bool): Reaction {
    if s.exitEmitted || s.filled == 0 then Quiet(s)
    else
      var r := Move(s.(exitEmitted := true), ExitPending);
      if r.raised then r
      else r.(signals := [Signal(intent, p.direction.Opposite(), s.filled, ExitLimit(p, s, intent, forceMarket))])
  }

  predicate StopTriggered(p: Params, s: Scalp, price: real) {
    StopPrice(p, s).Some? && Reached(p.direction.Opposite(), price, StopPrice(p, s).value)
  }

  predicate ProfitTriggered(p: Params, s: Scalp, price: real) {
    s.entryPrice.Some? && Reached(p.direction, price, TakeProfitLevel(p, s.entryPrice.value))
  }

  function CheckExit(p: Params, before: Scalp, price: real, crossedOnFill: bool): Reaction {
    if before.exitEmitted || before.filled == 0 then Quiet(before)
    else
      var s := UpdateBest(p, before, price);
      if s.entryPrice.None? || StopPrice(p, s).None? then Failed(s)
      else if StopTriggered(p, s, price) then
        EmitExit(p, s, StopLoss, crossedOnFill && price != StopPrice(p, s).value)
      else if ProfitTriggered(p, s, price) then
        EmitExit(p, s, TakeProfit, crossedOnFill && price != TakeProfitLevel(p, s.entryPrice.value))
      else Quiet(s)
  }

  // ---------------------------------------------------------------- events

  datatype Input =
    | Arm
    | Cancel
    | Abort
    | Tick(price: real)
    | Fill(action: Direction, price: real, quantity: Quantity)
    | Reject
    | CloseNow

  function OnTick(p: Params, before: Scalp, price: real): Reaction {
    var s := before.(latest := Some(price));
    if Terminal(s.state) || s.state.ExitPending? then Quiet(s)
    else if s.filled > 0 then CheckExit(p, s, price, false)
    else if !s.state.Armed? || !Reached(p.direction, price, p.trigger) then Quiet(s)
    else
      var r := Move(s, EntryPending);
      r.(signals := [Signal(Entry, p.direction, p.quantity, if p.entryLimit then Some(p.trigger) else None)])
  }

  /** Books one entry fill: quantity, weighted average price and the best price seen. */
  function Accumulate(p: Params, s: Scalp, price: real, quantity: Quantity): Scalp {
    var value, filled := s.entryValue + price * quantity as real, s.filled + quantity;
    UpdateBest(p, s.(entryValue := value, filled := filled, entryPrice := Some(value / filled as real)),
               value / filled as real)
  }

  function Complete(p: Params, s: Scalp): Scalp {
    if s.filled == p.quantity then Move(s, InPosition).next else s
  }

  /** The checks that protect new exposure at once: at the fill price in price mode, then at the latest price. */
  function Protect(p: Params, s: Scalp, price: real): Reaction {
    var first := if PriceMode(p) then CheckExit(p, s, price, true) else Quiet(s);
    if first.raised || first.signals != [] || first.next.latest.None? then first
    else CheckExit(p, first.next, first.next.latest.value, false)
  }

  function OnFill(p: Params, s: Scalp, action: Direction, price: real, quantity: Quantity): Reaction {
    match s.state
    case EntryPending =>
      if action != p.direction || s.filled + quantity > p.quantity then Failed(s)
      else Protect(p, Complete(p, Accumulate(p, s, price, quantity)), price)
    case ExitPending =>
      if action != p.direction.Opposite() || quantity > s.filled then Failed(s)
      else
        var s1 := s.(filled := s.filled - quantity);
        if s1.filled == 0 then Move(s1, State.Closed) else Quiet(s1)
    case _ => if Terminal(s.state) then Quiet(s) else Failed(s)
  }

  function OnReject(s: Scalp): Reaction {
    match s.state
    case EntryPending => Move(s, Cancelled)
    case ExitPending => Move(s, Error)
    case _ => if Terminal(s.state) then Quiet(s) else Failed(s)
  }

  function OnForceClose(p: Params, s: Scalp): Reaction {
    if s.state.ExitPending? || Terminal(s.state) then Quiet(s)
    else if s.filled > 0 then EmitExit(p, s, ForceClose, false)
    else Move(s, Cancelled)
  }

  function OnAbort(s: Scalp): Reaction {
    if Terminal(s.state) then Quiet(s) else Move(s, Aborted)
  }

  function React(p: Params, s: Scalp, i: Input): Reaction {
    match i
    case Arm => Move(s, Armed)
    case Cancel => Move(s, Cancelled)
    case Abort => OnAbort(s)
    case Tick(price) => OnTick(p, s, price)
    case Fill(action, price, quantity) => OnFill(p, s, action, price, quantity)
    case Reject => OnReject(s)
    case CloseNow => OnForceClose(p, s)
  }
}
