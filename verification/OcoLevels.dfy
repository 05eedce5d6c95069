/** The two-sided strategy's answers in the terms of its own setup, whichever side triggers. */
module OcoLevels {
  import opened Domain
  import opened StrategyBase
  import opened ScalpRules
  import opened ScalpTheorems
  import opened ScalpLevels
  import opened OcoRules
  import opened OcoTheorems

  // ---------------------------------------------------------------- setups

  /** Both sides exit by the same distances. */
  predicate BothByPoints(o: OcoSetup) {
    && o.takeProfitPoints.Some? && o.takeProfitPoints.value >= 1
    && o.stopLossPoints.Some? && o.stopLossPoints.value >= 1
    && o.longTakeProfit.None? && o.longStopLoss.None? && o.shortTakeProfit.None? && o.shortStopLoss.None?
    && !o.takeProfitLimit && !o.stopLossLimit
  }

  /** Each side exits at its own prices, around its own trigger. */
  ghost predicate EachByPrices(o: OcoSetup) {
    && o.longTakeProfit.Some? && o.longStopLoss.Some? && o.shortTakeProfit.Some? && o.shortStopLoss.Some?
    && WholeTicks(o.longTakeProfit.value, o.tickSize) && WholeTicks(o.longStopLoss.value, o.tickSize)
    && WholeTicks(o.shortTakeProfit.value, o.tickSize) && WholeTicks(o.shortStopLoss.value, o.tickSize)
    && o.longStopLoss.value < o.upper < o.longTakeProfit.value
    && o.shortTakeProfit.value < o.lower < o.shortStopLoss.value
    && o.takeProfitPoints.None? && o.stopLossPoints.None?
  }

  /** The setups that construction accepts. */
  lemma OcoAcceptedExactlyWhen(o: OcoSetup)
    ensures AcceptsOco(o) <==> o.quantity >= 1 && 0.0 < o.lower < o.upper && (BothByPoints(o) || EachByPrices(o))
  {
    var prices := [o.longTakeProfit, o.longStopLoss, o.shortTakeProfit, o.shortStopLoss];
    assert prices[0] in prices && prices[1] in prices && prices[2] in prices && prices[3] in prices;
    AcceptedExactlyWhen(LegSetup(o, Long));
    AcceptedExactlyWhen(LegSetup(o, Short));
  }

  // ---------------------------------------------------------------- levels

  /** The stop price given for this side, or the stop distance against it from the entry. */
  function SideStop(p: OcoParams, d: Direction, entry: real): real {
    match d
    case Long => if p.longStopLoss.Some? then p.longStopLoss.value else entry - p.stopLossPoints.value as real
    case Short => if p.shortStopLoss.Some? then p.shortStopLoss.value else entry + p.stopLossPoints.value as real
  }

  /** The take-profit price given for this side, or the take-profit distance in its favour from the entry. */
  function SideProfit(p: OcoParams, d: Direction, entry: real): real {
    match d
    case Long => if p.longTakeProfit.Some? then p.longTakeProfit.value else entry + p.takeProfitPoints.value as real
    case Short => if p.shortTakeProfit.Some? then p.shortTakeProfit.value else entry - p.takeProfitPoints.value as real
  }

  function SideExit(p: OcoParams, d: Direction, held: nat, entry: real, price: real, onFill: bool): seq<Signal>
    requires held > 0
  {
    ExitBetween(d, SideStop(p, d, entry), SideProfit(p, d, entry), p.stopLossLimit, p.takeProfitLimit, held, price,
                onFill)
  }

  function SideEntry(p: OcoParams, d: Direction): Signal {
    match d
    case Long => Signal(Entry, Long, p.quantity, if p.entryLimit then Some(p.upper) else None)
    case Short => Signal(Entry, Short, p.quantity, if p.entryLimit then Some(p.lower) else None)
  }

  /** The side that a tick triggers. */
  function Triggered(p: OcoParams, price: real): Option<Direction> {
    if price >= p.upper then Some(Long) else if price <= p.lower then Some(Short) else None
  }

  /** An entry fill of the active side is checked at its price if the exits are prices, then at the latest price. */
  function AfterSideFill(p: OcoParams, d: Direction, s: Scalp, price: real, q: Quantity): seq<Signal>
    requires s.latest.Some?
  {
    var held, entry := s.filled + q, EntryAfter(s, price, q);
    var atFill := if p.longStopLoss.Some? then SideExit(p, d, held, entry, price, true) else [];
    if atFill != [] then atFill else SideExit(p, d, held, entry, s.latest.value, false)
  }

  /** The signals that the composite sends in answer to a call. */
  ghost function OcoEmits(p: OcoParams, o: Oco, i: Input): seq<Signal>
    requires Coupled(p, o)
  {
    match o.active
    case None =>
      if i.Tick? && o.state == Armed && Triggered(p, i.price).Some? then [SideEntry(p, Triggered(p, i.price).value)]
      else []
    case Some(d) =>
      var s := Leg(o, d);
      match i
      case Tick(price) => if Watching(s) then SideExit(p, d, s.filled, s.entryPrice.value, price, false) else []
      case Fill(_, price, q) =>
        if EntryFill(d, p.quantity, s, i) then AfterSideFill(p, d, s, price, q) else []
      case CloseNow =>
        if Watching(s) then [Signal(ForceClose, if d.Long? then Short else Long, s.filled, None)] else []
      case _ => []
  }

  /** The state in which it then is, if it sent these signals. */
  function OcoBecomes(p: OcoParams, o: Oco, i: Input, sent: seq<Signal>): State {
    match o.active
    case Some(d) => Becomes(d, p.quantity, Leg(o, d), i, sent)
    case None =>
      if sent != [] then EntryPending
      else if i == Arm && o.state == Idle then Armed
      else if i in {Cancel, CloseNow} && o.state in {Idle, Armed} then Cancelled
      else if i == Abort && o.state in {Idle, Armed} then Aborted
      else o.state
  }

  lemma LegLevels(p: OcoParams, d: Direction, held: nat, entry: real, best: real, price: real, onFill: bool)
    requires held > 0
    ensures ExitAt(LegSetup(p, d), held, entry, best, price, onFill) == SideExit(p, d, held, entry, price, onFill)
  {
    PricesGoTogether(p);
  }

  /** The prices of both sides are given together, or none is. */
  lemma PricesGoTogether(p: OcoParams)
    ensures p.longStopLoss.Some? == p.shortStopLoss.Some? == p.longTakeProfit.Some? == p.shortTakeProfit.Some?
    ensures p.longStopLoss.None? ==> p.stopLossPoints.Some? && p.takeProfitPoints.Some?
  {
    var prices := [p.longTakeProfit, p.longStopLoss, p.shortTakeProfit, p.shortStopLoss];
    assert prices[0] in prices && prices[1] in prices && prices[2] in prices && prices[3] in prices;
  }

  lemma LegFill(p: OcoParams, d: Direction, s: Scalp, price: real, q: Quantity)
    requires s.latest.Some?
    ensures AfterEntryFill(LegSetup(p, d), s, price, q) == AfterSideFill(p, d, s, price, q)
  {
    var held, entry := s.filled + q, EntryAfter(s, price, q);
    var best := BestOf(d, s.best, entry);
    PricesGoTogether(p);
    LegLevels(p, d, held, entry, best, price, true);
    LegLevels(p, d, held, entry, BestOf(d, Some(best), s.latest.value), s.latest.value, false);
  }

  lemma LegEmits(p: OcoParams, o: Oco, i: Input)
    requires Coupled(p, o) && o.active.Some?
    ensures OcoEmits(p, o, i) == Emits(LegSetup(p, o.active.value), Leg(o, o.active.value), i)
  {
    var d, s := o.active.value, Leg(o, o.active.value);
    match i
    case Tick(price) =>
      if Watching(s) {
        LegLevels(p, d, s.filled, s.entryPrice.value, BestOf(d, s.best, price), price, false);
      }
    case Fill(_, price, q) => if EntryFill(d, p.quantity, s, i) { LegFill(p, d, s, price, q); }
    case _ =>
  }

  lemma ActiveAnswers(p: OcoParams, o: Oco, i: Input)
    requires Coupled(p, o) && o.active.Some?
    ensures var r := OcoReact(p, o, i);
            && r.signals == OcoEmits(p, o, i) && r.next.state == OcoBecomes(p, o, i, r.signals)
            && r.next.active == o.active
  {
    ActiveStep(p, o, i);
    LegEmits(p, o, i);
    StepAnswers(LegSetup(p, o.active.value), Leg(o, o.active.value), i);
  }

  lemma WaitingAnswers(p: OcoParams, o: Oco, i: Input)
    requires Coupled(p, o) && o.active.None?
    ensures var r := OcoReact(p, o, i);
            && r.signals == OcoEmits(p, o, i) && r.next.state == OcoBecomes(p, o, i, r.signals)
            && r.next.active == (if r.signals == [] then None else Triggered(p, i.price))
  {
    if i.Tick? && o.state.Armed? { ArmedTickAnswers(p, o, i.price); } else { WaitingCallAnswers(p, o, i); }
  }

  lemma ArmedTickAnswers(p: OcoParams, o: Oco, price: real)
    requires Coupled(p, o) && o.active.None? && o.state.Armed?
    ensures var r := OcoReact(p, o, Tick(price));
            && r.signals == OcoEmits(p, o, Tick(price)) && r.next.state == OcoBecomes(p, o, Tick(price), r.signals)
            && r.next.active == Triggered(p, price)
  {
    WaitingTick(p, o, price, Long);
    WaitingTick(p, o, price, Short);
    ArmedTick(LegSetup(p, Long), o.long, price);
    ArmedTick(LegSetup(p, Short), o.short, price);
  }

  lemma WaitingCallAnswers(p: OcoParams, o: Oco, i: Input)
    requires Coupled(p, o) && o.active.None? && !(i.Tick? && o.state.Armed?)
    ensures var r := OcoReact(p, o, i);
            r.signals == [] && r.next.state == OcoBecomes(p, o, i, []) && r.next.active.None?
  {
    WaitingCommand(p, o, i, Long);
    StepAnswers(LegSetup(p, Long), o.long, i);
  }

  /**
    In every run the composite answers a call with exactly these signals, and commits itself to the side that the
    price has reached.
   */
  lemma OcoAnswersExactly(p: OcoParams, inputs: seq<Input>, i: Input)
    ensures Coupled(p, OcoRun(p, FRESH_OCO, inputs))
    ensures var o := OcoRun(p, FRESH_OCO, inputs);
            var r := OcoReact(p, o, i);
            && r.signals == OcoEmits(p, o, i) && r.next.state == OcoBecomes(p, o, i, r.signals)
            && r.next.active == if o.active.None? && r.signals != [] then Triggered(p, i.price) else o.active
  {
    FreshCoupled(p);
    RunCouples(p, FRESH_OCO, inputs);
    var o := OcoRun(p, FRESH_OCO, inputs);
    if o.active.Some? { ActiveAnswers(p, o, i); } else { WaitingAnswers(p, o, i); }
  }
}
