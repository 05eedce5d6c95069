/** The two-sided strategy over two mutable legs, proved against `OcoRules`. */
module OcoStrategy {
  import opened Domain
  import opened StrategyBase
  import opened ScalpRules
  import opened OcoRules
  import Scalping = ScalpStrategy

  datatype SetupError =
    | QuantityNotPositive
    | TriggersCrossed
    | PricesIncomplete
    | ModesMixed
    | LongLeg(error: Scalping.SetupError)
    | ShortLeg(error: Scalping.SetupError)

  function Given(price: Option<real>): nat {
    if price.Some? then 1 else 0
  }

  /** The composite's own refusals, then those of the long leg, then those of the short leg. */
  method Construct(setup: OcoSetup) returns (strategy: OcoStrategy?, error: Option<SetupError>)
    ensures strategy != null <==> AcceptsOco(setup)
    ensures error.None? <==> strategy != null
    ensures strategy != null ==>
              fresh(strategy) && strategy.p == setup && strategy.Valid() && strategy.Value() == FRESH_OCO
  {
    strategy := null;
    if setup.quantity <= 0 {
      return null, Some(QuantityNotPositive);
    }
    if setup.upper <= setup.lower {
      return null, Some(TriggersCrossed);
    }
    var count := Given(setup.longTakeProfit) + Given(setup.longStopLoss) + Given(setup.shortTakeProfit)
                 + Given(setup.shortStopLoss);
    var pointsGiven := setup.takeProfitPoints.Some? || setup.stopLossPoints.Some?;
    CountMeans(setup);
    if count != 0 && count != 4 {
      return null, Some(PricesIncomplete);
    }
    if count != 0 && pointsGiven {
      return null, Some(ModesMixed);
    }
    var long, longError := Scalping.Construct(LegSetup(setup, Long));
    if long == null {
      return null, Some(LongLeg(longError.value));
    }
    var short, shortError := Scalping.Construct(LegSetup(setup, Short));
    if short == null {
      return null, Some(ShortLeg(shortError.value));
    }
    strategy := new OcoStrategy(setup, long, short);
    error := None;
  }

  lemma CountMeans(o: OcoSetup)
    ensures var prices := [o.longTakeProfit, o.longStopLoss, o.shortTakeProfit, o.shortStopLoss];
            var count := Given(o.longTakeProfit) + Given(o.longStopLoss) + Given(o.shortTakeProfit)
                         + Given(o.shortStopLoss);
            && (count == 4 <==> forall x :: x in prices ==> x.Some?)
            && (count > 0 <==> exists x :: x in prices && x.Some?)
  {
    var prices := [o.longTakeProfit, o.longStopLoss, o.shortTakeProfit, o.shortStopLoss];
    assert prices[0] in prices && prices[1] in prices && prices[2] in prices && prices[3] in prices;
  }

  class OcoStrategy {
    const p: OcoParams
    const long: Scalping.ScalpStrategy
    const short: Scalping.ScalpStrategy
    var state: State
    var active: Scalping.ScalpStrategy?

    ghost predicate Valid()
      reads this
    {
      && long != short && long.p == LegSetup(p, Long) && short.p == LegSetup(p, Short)
      && (active == null || active == long || active == short)
    }

    ghost function Value(): Oco
      reads this, long, short
    {
      Oco(state, if active == null then None else if active == long then Some(Long) else Some(Short),
          long.Value(), short.Value())
    }

    /** Takes over two fresh legs. */
    constructor (p: OcoParams, long: Scalping.ScalpStrategy, short: Scalping.ScalpStrategy)
      requires long != short && long.p == LegSetup(p, Long) && short.p == LegSetup(p, Short)
      requires long.Value() == FRESH_SCALP && short.Value() == FRESH_SCALP
      ensures Valid() && this.p == p && this.long == long && this.short == short && Value() == FRESH_OCO
    {
      this.p, this.long, this.short := p, long, short;
      state, active := Idle, null;
    }

    method Transition(to: State) returns (raised: bool)
      modifies this`state
      ensures raised <==> !Legal(old(state), to)
      ensures state == if raised then old(state) else to
    {
      if to !in ValidTransitions(state) {
        return true;
      }
      state := to;
      return false;
    }

    method SyncActiveState(signals: seq<Signal>) returns (result: seq<Signal>, raised: bool)
      requires Valid()
      modifies this`state
      ensures Valid() && OcoReaction(Value(), result, raised) == Sync(old(Value()), signals)
    {
      result, raised := signals, false;
      if active != null && state != active.state {
        raised := Transition(active.state);
        if raised {
          result := [];
        }
      }
    }

    method ArmStrategy() returns (raised: bool)
      requires Valid()
      modifies this, long, short
      ensures Valid() && OcoReaction(Value(), [], raised) == OcoReact(p, old(Value()), Arm)
    {
      raised := long.ArmStrategy();
      if raised {
        return;
      }
      raised := short.ArmStrategy();
      if raised {
        return;
      }
      raised := Transition(Armed);
    }

    method CancelStrategy() returns (raised: bool)
      requires Valid()
      modifies this, long, short
      ensures Valid() && OcoReaction(Value(), [], raised) == OcoReact(p, old(Value()), Cancel)
    {
      if active == null {
        raised := long.CancelStrategy();
        if raised {
          return;
        }
        raised := short.CancelStrategy();
      } else {
        raised := active.CancelStrategy();
      }
      if raised {
        return;
      }
      raised := Transition(Cancelled);
    }

    method AbortStrategy() returns (raised: bool)
      requires Valid()
      modifies this, long, short
      ensures Valid() && OcoReaction(Value(), [], raised) == OcoReact(p, old(Value()), Abort)
    {
      long.AbortStrategy();
      short.AbortStrategy();
      raised := false;
      if !Terminal(state) {
        raised := Transition(Aborted);
      }
    }

    method OnTick(price: real) returns (signals: seq<Signal>, raised: bool)
      requires Valid()
      modifies this, long, short
      ensures Valid() && OcoReaction(Value(), signals, raised) == OcoReact(p, old(Value()), Tick(price))
    {
      if Terminal(state) || state == ExitPending {
        return [], false;
      }
      if active != null {
        signals, raised := active.OnTick(price);
        if raised {
          return [], true;
        }
        signals, raised := SyncActiveState(signals);
        return;
      }
      if state != Armed {
        return [], false;
      }
      signals, raised := ChooseLeg(price);
    }

    /** Offers the tick to the long leg, then to the short leg; the first to answer is kept. */
    method ChooseLeg(price: real) returns (signals: seq<Signal>, raised: bool)
      requires Valid() && active == null
      modifies this, long, short
      ensures Valid() && OcoReaction(Value(), signals, raised) == FirstTick(p, old(Value()), price)
    {
      signals, raised := long.OnTick(price);
      if raised {
        return [], true;
      }
      if signals != [] {
        active := long;
        raised := short.CancelStrategy();
      } else {
        signals, raised := short.OnTick(price);
        if raised {
          return [], true;
        }
        if signals != [] {
          active := short;
          raised := long.CancelStrategy();
        }
      }
      if raised {
        return [], true;
      }
      signals, raised := SyncActiveState(signals);
    }

    method OnFill(action: Direction, price: real, quantity: Quantity) returns (signals: seq<Signal>, raised: bool)
      requires Valid()
      modifies this, long, short
      ensures Valid()
      ensures OcoReaction(Value(), signals, raised) == OcoReact(p, old(Value()), Fill(action, price, quantity))
    {
      if active == null {
        return [], false;
      }
      signals, raised := active.OnFill(action, price, quantity);
      if raised {
        return [], true;
      }
      signals, raised := SyncActiveState(signals);
    }

    method OnReject() returns (signals: seq<Signal>, raised: bool)
      requires Valid()
      modifies this, long, short
      ensures Valid() && OcoReaction(Value(), signals, raised) == OcoReact(p, old(Value()), Reject)
    {
      if active == null {
        return [], false;
      }
      raised := active.OnReject();
      if raised {
        return [], true;
      }
      signals, raised := SyncActiveState([]);
    }

    method CloseOut() returns (signals: seq<Signal>, raised: bool)
      requires Valid()
      modifies this, long, short
      ensures Valid() && OcoReaction(Value(), signals, raised) == OcoReact(p, old(Value()), CloseNow)
    {
      if state == ExitPending || Terminal(state) {
        return [], false;
      }
      if active == null {
        signals, raised := long.CloseOut();
        if raised {
          return [], true;
        }
        signals, raised := short.CloseOut();
        if raised {
          return [], true;
        }
        raised := Transition(Cancelled);
        return [], raised;
      }
      signals, raised := active.CloseOut();
      if raised {
        return [], true;
      }
      signals, raised := SyncActiveState(signals);
    }
  }
}
