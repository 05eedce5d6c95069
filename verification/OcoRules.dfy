/** Specification of the two-sided strategy: two scalping legs of which the first to trigger is kept. */
module OcoRules {
  import opened Domain
  import opened StrategyBase
  import opened ScalpRules

  datatype OcoSetup = OcoSetup(
    upper: real, lower: real, quantity: int, tickSize: Quantity,
    takeProfitPoints: Option<int>, stopLossPoints: Option<int>,
    longTakeProfit: Option<real>, longStopLoss: Option<real>,
    shortTakeProfit: Option<real>, shortStopLoss: Option<real>,
    entryLimit: bool, takeProfitLimit: bool, stopLossLimit: bool)

  function LegSetup(o: OcoSetup, d: Direction): Setup {
    if d.Long? then
      Setup(Long, o.upper, o.quantity, o.tickSize, o.takeProfitPoints, o.stopLossPoints,
            o.longTakeProfit, o.longStopLoss, None, o.entryLimit, o.takeProfitLimit, o.stopLossLimit)
    else
      Setup(Short, o.lower, o.quantity, o.tickSize, o.takeProfitPoints, o.stopLossPoints,
            o.shortTakeProfit, o.shortStopLoss, None, o.entryLimit, o.takeProfitLimit, o.stopLossLimit)
  }

  ghost predicate AcceptsOco(o: OcoSetup) {
    var prices := [o.longTakeProfit, o.longStopLoss, o.shortTakeProfit, o.shortStopLoss];
    var all, any := (forall x :: x in prices ==> x.Some?), (exists x :: x in prices && x.Some?);
    && o.upper > o.lower
    && (any ==> all && o.takeProfitPoints.None? && o.stopLossPoints.None?)
    && Accepts(LegSetup(o, Long)) && Accepts(LegSetup(o, Short))
  }

  type OcoParams = o: OcoSetup | AcceptsOco(o)
    witness OcoSetup(2.0, 1.0, 1, 1, Some(1), Some(1), None, None, None, None, false, false, false)

  datatype Oco = Oco(state: State, active: Option<Direction>, long: Scalp, short: Scalp)

  const FRESH_OCO: Oco := Oco(Idle, None, FRESH_SCALP, FRESH_SCALP)

  datatype OcoReaction = OcoReaction(next: Oco, signals: seq<Signal>, raised: bool)

  function Leg(o: Oco, d: Direction): Scalp {
    if d.Long? then o.long else o.short
  }

  function WithLeg(o: Oco, d: Direction, s: Scalp): Oco {
    if d.Long? then o.(long := s) else o.(short := s)
  }

  function MoveOwn(o: Oco, to: State, signals: seq<Signal>): OcoReaction {
    if Legal(o.state, to) then OcoReaction(o.(state := to), signals, false) else OcoReaction(o, [], true)
  }

  /** After delegating: the composite state follows the active leg, by a legal transition only. */
  function Sync(o: Oco, signals: seq<Signal>): OcoReaction {
    if o.active.Some? && o.state != Leg(o, o.active.value).state then MoveOwn(o, Leg(o, o.active.value).state, signals)
    else OcoReaction(o, signals, false)
  }

  function Delegate(p: OcoParams, o: Oco, d: Direction, i: Input): OcoReaction {
    var r := React(LegSetup(p, d), Leg(o, d), i);
    if r.raised then OcoReaction(WithLeg(o, d, r.next), [], true) else Sync(WithLeg(o, d, r.next), r.signals)
  }

  /** One command to the long leg, then to the short leg, then to the composite itself. */
  function Command(p: OcoParams, o: Oco, i: Input, to: State): OcoReaction {
    var long := React(LegSetup(p, Long), o.long, i);
    var o1 := o.(long := long.next);
    if long.raised then OcoReaction(o1, [], true)
    else
      var short := React(LegSetup(p, Short), o.short, i);
      var o2 := o1.(short := short.next);
      if short.raised then OcoReaction(o2, [], true) else MoveOwn(o2, to, [])
  }

  function Choose(p: OcoParams, o: Oco, d: Direction, signals: seq<Signal>): OcoReaction {
    var o1 := o.(active := Some(d));
    var other := Move(Leg(o1, d.Opposite()), Cancelled);
    var o2 := WithLeg(o1, d.Opposite(), other.next);
    if other.raised then OcoReaction(o2, [], true) else Sync(o2, signals)
  }

  function FirstTick(p: OcoParams, o: Oco, price: real): OcoReaction {
    var long := OnTick(LegSetup(p, Long), o.long, price);
    var o1 := o.(long := long.next);
    if long.raised then OcoReaction(o1, [], true)
    else if long.signals != [] then Choose(p, o1, Long, long.signals)
    else
      var short := OnTick(LegSetup(p, Short), o.short, price);
      var o2 := o1.(short := short.next);
      if short.raised then OcoReaction(o2, [], true)
      else if short.signals != [] then Choose(p, o2, Short, short.signals)
      else OcoReaction(o2, [], false)
  }

  function OcoReact(p: OcoParams, o: Oco, i: Input): OcoReaction {
    match i
    case Arm => Command(p, o, Arm, Armed)
    case Cancel =>
      if o.active.None? then Command(p, o, Cancel, Cancelled)
      else
        var r := Move(Leg(o, o.active.value), Cancelled);
        var o1 := WithLeg(o, o.active.value, r.next);
        if r.raised then OcoReaction(o1, [], true) else MoveOwn(o1, Cancelled, [])
    case Abort =>
      var o1 := o.(long := OnAbort(o.long).next, short := OnAbort(o.short).next);
      if Terminal(o.state) then OcoReaction(o1, [], false) else MoveOwn(o1, Aborted, [])
    case Tick(price) =>
      if Terminal(o.state) || o.state.ExitPending? then OcoReaction(o, [], false)
      else if o.active.Some? then Delegate(p, o, o.active.value, i)
      else if !o.state.Armed? then OcoReaction(o, [], false)
      else FirstTick(p, o, price)
    case CloseNow =>
      if o.state.ExitPending? || Terminal(o.state) then OcoReaction(o, [], false)
      else if o.active.None? then Command(p, o, CloseNow, Cancelled)
      else Delegate(p, o, o.active.value, i)
    case _ =>
      if o.active.None? then OcoReaction(o, [], false) else Delegate(p, o, o.active.value, i)
  }
}
