/** The one-sided scalping strategy, event by event, proved against `ScalpRules`. */
module ScalpStrategy {
  import opened Domain
  import opened StrategyBase
  import opened ScalpRules

  datatype SetupError =
    | QuantityNotPositive
    | TriggerNotPositive
    | NotOneMode
    | PointsIncomplete
    | PricesIncomplete
    | TakeProfitNotPositive
    | StopLossNotPositive
    | TrailingWithPrices
    | PriceNotAligned
    | PricesOutOfOrder
    | TrailingNotPositive
    | LimitWithoutPrices

  method ValidatePrice(price: real, tickSize: Quantity) returns (ok: bool)
    ensures ok <==> Aligned(price, tickSize)
  {
    if price <= 0.0 {
      return false;
    }
    return (price / tickSize as real).Floor as real == price / tickSize as real;
  }

  method ValidateAbsolutePrices(d: Direction, trigger: real, takeProfit: real, stopLoss: real, tickSize: Quantity)
    returns (error: Option<SetupError>)
    ensures error.None? <==>
            && Aligned(takeProfit, tickSize) && Aligned(stopLoss, tickSize)
            && Ahead(d, takeProfit, trigger) && Ahead(d, trigger, stopLoss)
  {
    var ok := ValidatePrice(takeProfit, tickSize);
    if !ok {
      return Some(PriceNotAligned);
    }
    ok := ValidatePrice(stopLoss, tickSize);
    if !ok {
      return Some(PriceNotAligned);
    }
    ok := if d.Long? then stopLoss < trigger < takeProfit else takeProfit < trigger < stopLoss;
    return if ok then None else Some(PricesOutOfOrder);
  }

  /** The refusals in the order in which they are tested; together they leave exactly the accepted setups. */
  method Validate(setup: Setup) returns (error: Option<SetupError>)
    ensures error.None? <==> Accepts(setup)
  {
    if setup.quantity <= 0 {
      return Some(QuantityNotPositive);
    }
    if setup.trigger <= 0.0 {
      return Some(TriggerNotPositive);
    }
    var pointsMode := setup.takeProfitPoints.Some? && setup.stopLossPoints.Some?;
    var priceMode := setup.takeProfitPrice.Some? && setup.stopLossPrice.Some?;
    if pointsMode == priceMode {
      return Some(NotOneMode);
    }
    if setup.takeProfitPoints.None? != setup.stopLossPoints.None? {
      return Some(PointsIncomplete);
    }
    if setup.takeProfitPrice.None? != setup.stopLossPrice.None? {
      return Some(PricesIncomplete);
    }
    if setup.takeProfitPoints.Some? && setup.takeProfitPoints.value <= 0 {
      return Some(TakeProfitNotPositive);
    }
    if setup.stopLossPoints.Some? && setup.stopLossPoints.value <= 0 {
      return Some(StopLossNotPositive);
    }
    if priceMode {
      if setup.trailingPoints.Some? {
        return Some(TrailingWithPrices);
      }
      error := ValidateAbsolutePrices(setup.direction, setup.trigger, setup.takeProfitPrice.value,
                                      setup.stopLossPrice.value, setup.tickSize);
      if error.Some? {
        return;
      }
    }
    if setup.trailingPoints.Some? && setup.trailingPoints.value <= 0 {
      return Some(TrailingNotPositive);
    }
    if !priceMode && (setup.takeProfitLimit || setup.stopLossLimit) {
      return Some(LimitWithoutPrices);
    }
    return None;
  }

  /** Construction fails exactly for the setups that are refused, and else starts idle and flat. */
  method Construct(setup: Setup) returns (strategy: ScalpStrategy?, error: Option<SetupError>)
    ensures strategy != null <==> Accepts(setup)
    ensures error.None? <==> strategy != null
    ensures strategy != null ==> fresh(strategy) && strategy.p == setup && strategy.Value() == FRESH_SCALP
  {
    error := Validate(setup);
    strategy := null;
    if error.None? {
      strategy := new ScalpStrategy(setup);
    }
  }

  class ScalpStrategy {
    const p: Params
    var state: State
    var filledQuantity: nat
    var entryValue: real
    var entryPrice: Option<real>
    var bestPrice: Option<real>
    var latestPrice: Option<real>
    var exitSignalEmitted: bool
    ghost var moves: nat

    ghost function Value(): Scalp
      reads this
    {
      Scalp(state, filledQuantity, entryValue, entryPrice, bestPrice, latestPrice, exitSignalEmitted, moves)
    }

    constructor (p: Params)
      ensures this.p == p && Value() == FRESH_SCALP
    {
      this.p := p;
      state, filledQuantity, entryValue := Idle, 0, 0.0;
      entryPrice, bestPrice, latestPrice, exitSignalEmitted, moves := None, None, None, false, 0;
    }

    /** The only place where the state changes; refuses a transition that the table does not list. */
    method Transition(to: State) returns (raised: bool)
      modifies this`state, this`moves
      ensures Reaction(Value(), [], raised) == Move(old(Value()), to)
      ensures raised <==> to !in ValidTransitions(old(state))
    {
      if to !in ValidTransitions(state) {
        return true;
      }
      state, moves := to, moves + 1;
      return false;
    }

    function CurrentStop(): (stop: Option<real>)
      reads this
      ensures stop == StopPrice(p, Value())
    {
      if PriceMode(p) then p.stopLossPrice
      else if entryPrice.None? then None
      else if p.trailingPoints.Some? && bestPrice.Some? then
        Some(bestPrice.value - (p.direction.Sign() * p.trailingPoints.value) as real)
      else Some(entryPrice.value - (p.direction.Sign() * p.stopLossPoints.value) as real)
    }

    method UpdateBestPrice(price: real)
      modifies this`bestPrice
      ensures Value() == UpdateBest(p, old(Value()), price)
    {
      if bestPrice.None? {
        bestPrice := Some(price);
      } else if p.direction.Long? {
        bestPrice := Some(if price > bestPrice.value then price else bestPrice.value);
      } else {
        bestPrice := Some(if price < bestPrice.value then price else bestPrice.value);
      }
    }

    method ArmStrategy() returns (raised: bool)
      modifies this
      ensures Reaction(Value(), [], raised) == React(p, old(Value()), Arm)
    {
      raised := Transition(Armed);
    }

    method CancelStrategy() returns (raised: bool)
      modifies this
      ensures Reaction(Value(), [], raised) == React(p, old(Value()), Cancel)
    {
      raised := Transition(Cancelled);
    }

    method AbortStrategy()
      modifies this
      ensures Quiet(Value()) == React(p, old(Value()), Abort)
    {
      if !Terminal(state) {
        var raised := Transition(Aborted);
        assert !raised;
      }
    }

    method OnTick(price: real) returns (signals: seq<Signal>, raised: bool)
      modifies this
      ensures Reaction(Value(), signals, raised) == React(p, old(Value()), Tick(price))
    {
      latestPrice := Some(price);
      if Terminal(state) || state == ExitPending {
        return [], false;
      }
      if filledQuantity > 0 {
        signals, raised := CheckExit(price, false);
        return;
      }
      if state != Armed {
        return [], false;
      }
      var triggered := if p.direction.Long? then price >= p.trigger else price <= p.trigger;
      if !triggered {
        return [], false;
      }
      raised := Transition(EntryPending);
      signals := [Signal(Entry, p.direction, p.quantity, if p.entryLimit then Some(p.trigger) else None)];
    }

    method OnFill(action: Direction, price: real, quantity: Quantity) returns (signals: seq<Signal>, raised: bool)
      modifies this
      ensures Reaction(Value(), signals, raised) == React(p, old(Value()), Fill(action, price, quantity))
    {
      signals, raised := [], false;
      if state == EntryPending {
        if action != p.direction || filledQuantity + quantity > p.quantity {
          return [], true;
        }
        entryValue := entryValue + price * quantity as real;
        filledQuantity := filledQuantity + quantity;
        entryPrice := Some(entryValue / filledQuantity as real);
        UpdateBestPrice(entryPrice.value);
        if filledQuantity == p.quantity {
          var illegal := Transition(InPosition);
          assert !illegal;
        }
        assert Value() == Complete(p, Accumulate(p, old(Value()), price, quantity));
        if PriceMode(p) {
          signals, raised := CheckExit(price, true);
          if raised || signals != [] {
            return;
          }
        }
        if latestPrice.Some? {
          signals, raised := CheckExit(latestPrice.value, false);
        }
      } else if state == ExitPending {
        if action != p.direction.Opposite() || quantity > filledQuantity {
          return [], true;
        }
        filledQuantity := filledQuantity - quantity;
        if filledQuantity == 0 {
          raised := Transition(State.Closed);
        }
      } else if !Terminal(state) {
        return [], true;
      }
    }

    method OnReject() returns (raised: bool)
      modifies this
      ensures Reaction(Value(), [], raised) == React(p, old(Value()), Reject)
    {
      raised := false;
      if state == EntryPending {
        raised := Transition(Cancelled);
      } else if state == ExitPending {
        raised := Transition(Error);
      } else if !Terminal(state) {
        return true;
      }
    }

    method CloseOut() returns (signals: seq<Signal>, raised: bool)
      modifies this
      ensures Reaction(Value(), signals, raised) == React(p, old(Value()), CloseNow)
    {
      signals, raised := [], false;
      if state == ExitPending || Terminal(state) {
        return;
      }
      if filledQuantity > 0 {
        signals, raised := EmitExit(ForceClose, false);
      } else {
        raised := Transition(Cancelled);
      }
    }

    method CheckExit(price: real, crossedOnFill: bool) returns (signals: seq<Signal>, raised: bool)
      modifies this
      ensures Reaction(Value(), signals, raised) == ScalpRules.CheckExit(p, old(Value()), price, crossedOnFill)
    {
      signals, raised := [], false;
      if exitSignalEmitted || filledQuantity == 0 {
        return;
      }
      UpdateBestPrice(price);
      if entryPrice.None? {
        return [], true;
      }
      var stop := CurrentStop();
      if stop.None? {
        return [], true;
      }
      var takeProfit := TakeProfitLevel(p, entryPrice.value);
      var stopTriggered := if p.direction.Long? then price <= stop.value else price >= stop.value;
      var profitTriggered := if p.direction.Long? then price >= takeProfit else price <= takeProfit;
      if stopTriggered {
        signals, raised := EmitExit(StopLoss, crossedOnFill && price != stop.value);
      } else if profitTriggered {
        signals, raised := EmitExit(TakeProfit, crossedOnFill && price != takeProfit);
      }
    }

    method EmitExit(intent: Intent, forceMarket: bool) returns (signals: seq<Signal>, raised: bool)
      modifies this
      ensures Reaction(Value(), signals, raised) == ScalpRules.EmitExit(p, old(Value()), intent, forceMarket)
    {
      signals, raised := [], false;
      if exitSignalEmitted || filledQuantity == 0 {
        return;
      }
      exitSignalEmitted := true;
      raised := Transition(ExitPending);
      if raised {
        return;
      }
      var limited := if intent.TakeProfit? then p.takeProfitLimit else p.stopLossLimit;
      var limitPrice: Option<real> := None;
      if !intent.ForceClose? && limited && !forceMarket {
        limitPrice := if intent.TakeProfit? then p.takeProfitPrice else CurrentStop();
      }
      signals := [Signal(intent, p.direction.Opposite(), filledQuantity, limitPrice)];
    }
  }
}
