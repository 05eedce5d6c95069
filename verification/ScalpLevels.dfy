/** The strategy's answers in plain prices: which call emits which signal, and which state it leads to. */
module ScalpLevels {
  import opened Domain
  import opened StrategyBase
  import opened ScalpRules
  import opened ScalpTheorems

  // ---------------------------------------------------------------- setups

  /** Exits by distance: both are given, and positive; a trailing distance may be; no exit has a price or a limit. */
  predicate ByPoints(p: Setup) {
    && p.takeProfitPoints.Some? && p.takeProfitPoints.value >= 1
    && p.stopLossPoints.Some? && p.stopLossPoints.value >= 1
    && (p.trailingPoints.None? || p.trailingPoints.value >= 1)
    && p.takeProfitPrice.None? && p.stopLossPrice.None? && !p.takeProfitLimit && !p.stopLossLimit
  }

  /** Exits at prices: whole ticks, with the trigger strictly between them on the right side; no distance is given. */
  ghost predicate ByPrices(p: Setup) {
    && p.takeProfitPrice.Some? && p.stopLossPrice.Some?
    && WholeTicks(p.takeProfitPrice.value, p.tickSize) && WholeTicks(p.stopLossPrice.value, p.tickSize)
    && (if p.direction.Long? then p.stopLossPrice.value < p.trigger < p.takeProfitPrice.value
        else p.takeProfitPrice.value < p.trigger < p.stopLossPrice.value)
    && p.takeProfitPoints.None? && p.stopLossPoints.None? && p.trailingPoints.None?
  }

  ghost predicate WholeTicks(price: real, tickSize: Quantity) {
    price > 0.0 && exists ticks: int :: price == Ticks(ticks, tickSize)
  }

  /** The setups that construction accepts. */
  lemma AcceptedExactlyWhen(p: Setup)
    ensures Accepts(p) <==> p.quantity >= 1 && p.trigger > 0.0 && (ByPoints(p) || ByPrices(p))
  {
    if PriceMode(p) {
      AlignedMeansWholeTicks(p.takeProfitPrice.value, p.tickSize);
      AlignedMeansWholeTicks(p.stopLossPrice.value, p.tickSize);
    }
  }

  // ---------------------------------------------------------------- levels

  /** The best price since the entry, for a position on side d. */
  function BestOf(d: Direction, seen: Option<real>, price: real): real {
    if seen.None? then price
    else if d.Long? then (if seen.value >= price then seen.value else price)
    else (if seen.value <= price then seen.value else price)
  }

  /** The given stop price, or the trailing distance behind the best price, or the stop distance behind the entry. */
  function StopLevel(p: Setup, entry: real, best: real): real
    requires p.stopLossPrice.Some? || p.stopLossPoints.Some?
  {
    if p.stopLossPrice.Some? then p.stopLossPrice.value
    else if p.trailingPoints.Some? then
      if p.direction.Long? then best - p.trailingPoints.value as real else best + p.trailingPoints.value as real
    else
      if p.direction.Long? then entry - p.stopLossPoints.value as real else entry + p.stopLossPoints.value as real
  }

  /** The given take-profit price, or the take-profit distance ahead of the entry. */
  function ProfitLevel(p: Setup, entry: real): real
    requires p.takeProfitPrice.Some? || p.takeProfitPoints.Some?
  {
    if p.takeProfitPrice.Some? then p.takeProfitPrice.value
    else if p.direction.Long? then entry + p.takeProfitPoints.value as real
    else entry - p.takeProfitPoints.value as real
  }

  /**
    The exit of a position on side d between two levels: at or past the stop first, then at or past the take profit.
    A limit exit is sent at its level, unless the entry fill itself jumped past that level.
   */
  function ExitBetween(d: Direction, stop: real, profit: real, stopLimit: bool, profitLimit: bool, held: nat,
                       price: real, onFill: bool): seq<Signal>
    requires held > 0
  {
    var away := if d.Long? then Short else Long;
    if (if d.Long? then price <= stop else price >= stop) then
      [Signal(StopLoss, away, held, if stopLimit && !(onFill && price != stop) then Some(stop) else None)]
    else if (if d.Long? then price >= profit else price <= profit) then
      [Signal(TakeProfit, away, held, if profitLimit && !(onFill && price != profit) then Some(profit) else None)]
    else []
  }

  function ExitAt(p: Params, held: nat, entry: real, best: real, price: real, onFill: bool): seq<Signal>
    requires held > 0
  {
    ExitBetween(p.direction, StopLevel(p, entry, best), ProfitLevel(p, entry), p.stopLossLimit, p.takeProfitLimit,
                held, price, onFill)
  }

  lemma LevelsAgree(p: Params, s: Scalp)
    requires s.entryPrice.Some? && s.best.Some?
    ensures StopPrice(p, s) == Some(StopLevel(p, s.entryPrice.value, s.best.value))
    ensures TakeProfitLevel(p, s.entryPrice.value) == ProfitLevel(p, s.entryPrice.value)
  {
  }

  lemma EmittedExit(p: Params, s: Scalp, intent: Intent, forceMarket: bool)
    requires Exposed(s.state) && s.filled > 0 && !s.exitEmitted && intent in {StopLoss, TakeProfit}
    requires s.entryPrice.Some? && s.best.Some?
    ensures var r, profit := EmitExit(p, s, intent, forceMarket), ProfitLevel(p, s.entryPrice.value);
            var level := if intent == TakeProfit then profit else StopLevel(p, s.entryPrice.value, s.best.value);
            var limited := if intent == TakeProfit then p.takeProfitLimit else p.stopLossLimit;
            && r.signals == [Signal(intent, p.direction.Opposite(), s.filled,
                                    if limited && !forceMarket then Some(level) else None)]
            && r.next == s.(exitEmitted := true, state := ExitPending, moves := s.moves + 1) && !r.raised
  {
    LevelsAgree(p, s);
  }

  lemma CheckExitsAt(p: Params, s: Scalp, price: real, onFill: bool)
    requires Exposed(s.state) && s.filled > 0 && !s.exitEmitted && s.entryPrice.Some?
    ensures var best, r := BestOf(p.direction, s.best, price), CheckExit(p, s, price, onFill);
            && r.signals == ExitAt(p, s.filled, s.entryPrice.value, best, price, onFill) && !r.raised
            && r.next == s.(best := Some(best), exitEmitted := r.signals != [], moves := r.next.moves,
                            state := if r.signals == [] then s.state else ExitPending)
  {
    var s1, entry := UpdateBest(p, s, price), s.entryPrice.value;
    LevelsAgree(p, s1);
    EmittedExit(p, s1, StopLoss, onFill && price != StopLevel(p, entry, s1.best.value));
    EmittedExit(p, s1, TakeProfit, onFill && price != ProfitLevel(p, entry));
  }

  // ---------------------------------------------------------------- every call

  /** The answer to new exposure: checked at the fill price if the exits are prices, then at the latest price. */
  function Guarded(p: Params, held: nat, entry: real, best: real, price: real, latest: real): seq<Signal>
    requires held > 0
  {
    var atFill := if p.takeProfitPrice.Some? then ExitAt(p, held, entry, best, price, true) else [];
    if atFill != [] then atFill
    else ExitAt(p, held, entry, BestOf(p.direction, Some(best), latest), latest, false)
  }

  /** The best price remembered after these checks. */
  function GuardedBest(p: Params, held: nat, entry: real, best: real, price: real, latest: real): real
    requires held > 0
  {
    var atFill := BestOf(p.direction, Some(best), price);
    if p.takeProfitPrice.None? then BestOf(p.direction, Some(best), latest)
    else if ExitAt(p, held, entry, best, price, true) != [] then atFill
    else BestOf(p.direction, Some(atFill), latest)
  }

  /** The average entry price after one more fill. */
  function EntryAfter(s: Scalp, price: real, q: Quantity): real {
    (s.entryValue + price * q as real) / (s.filled + q) as real
  }

  function AfterEntryFill(p: Params, s: Scalp, price: real, q: Quantity): seq<Signal>
    requires s.latest.Some?
  {
    var entry := EntryAfter(s, price, q);
    Guarded(p, s.filled + q, entry, BestOf(p.direction, s.best, entry), price, s.latest.value)
  }

  function BestAfterFill(p: Params, s: Scalp, price: real, q: Quantity): real
    requires s.latest.Some?
  {
    var entry := EntryAfter(s, price, q);
    GuardedBest(p, s.filled + q, entry, BestOf(p.direction, s.best, entry), price, s.latest.value)
  }

  /** Contracts are held and no exit has been sent. */
  predicate Watching(s: Scalp) {
    s.state in {EntryPending, InPosition} && s.filled > 0
  }

  /** An entry fill in the right direction that does not exceed the order. */
  predicate EntryFill(d: Direction, quantity: int, s: Scalp, i: Input) {
    i.Fill? && s.state == EntryPending && i.action == d && s.filled + i.quantity <= quantity
  }

  /** The signals that a sound strategy sends in answer to a call. */
  ghost function Emits(p: Params, s: Scalp, i: Input): seq<Signal>
    requires Sound(p, s)
  {
    match i
    case Tick(price) =>
      if Watching(s) then
        ExitAt(p, s.filled, s.entryPrice.value, BestOf(p.direction, s.best, price), price, false)
      else if s.state == Armed && (if p.direction.Long? then price >= p.trigger else price <= p.trigger) then
        [Signal(Entry, p.direction, p.quantity, if p.entryLimit then Some(p.trigger) else None)]
      else []
    case Fill(_, price, q) => if EntryFill(p.direction, p.quantity, s, i) then AfterEntryFill(p, s, price, q) else []
    case CloseNow =>
      if Watching(s) then [Signal(ForceClose, if p.direction.Long? then Short else Long, s.filled, None)] else []
    case _ => []
  }

  /** The state in which it then is, if it sent these signals. */
  function Becomes(d: Direction, quantity: int, s: Scalp, i: Input, sent: seq<Signal>): State {
    if s.state in {State.Closed, Cancelled, Aborted, Error} then s.state
    else if sent != [] then (if sent[0].intent == Entry then EntryPending else ExitPending)
    else match i
      case Arm => if s.state == Idle then Armed else s.state
      case Cancel => if s.state in {Idle, Armed, EntryPending} then Cancelled else s.state
      case Abort => Aborted
      case Tick(_) => s.state
      case Fill(action, _, q) =>
        if EntryFill(d, quantity, s, i) && s.filled + q == quantity then InPosition
        else if s.state == ExitPending && action != d && q == s.filled then State.Closed
        else s.state
      case Reject =>
        if s.state == EntryPending then Cancelled else if s.state == ExitPending then Error else s.state
      case CloseNow => if s.state == ExitPending then s.state else Cancelled
  }

  /** The best price it then remembers: of the average entry prices and of all prices that were checked. */
  ghost function Remembers(p: Params, s: Scalp, i: Input): Option<real>
    requires Sound(p, s)
  {
    if i.Tick? && Watching(s) then Some(BestOf(p.direction, s.best, i.price))
    else if EntryFill(p.direction, p.quantity, s, i) then Some(BestAfterFill(p, s, i.price, i.quantity))
    else s.best
  }

  /** The contracts it then holds. */
  function Keeps(d: Direction, quantity: int, s: Scalp, i: Input): int {
    if EntryFill(d, quantity, s, i) then s.filled + i.quantity
    else if i.Fill? && s.state == ExitPending && i.action != d && i.quantity <= s.filled then
      s.filled - i.quantity
    else s.filled
  }

  lemma ProtectAnswers(p: Params, s: Scalp, price: real)
    requires Exposed(s.state) && s.filled > 0 && !s.exitEmitted && s.entryPrice.Some? && s.best.Some? && s.latest.Some?
    ensures var r, entry, best, latest := Protect(p, s, price), s.entryPrice.value, s.best.value, s.latest.value;
            && r.signals == Guarded(p, s.filled, entry, best, price, latest)
            && r.next.best == Some(GuardedBest(p, s.filled, entry, best, price, latest))
            && r.next.state == (if r.signals == [] then s.state else ExitPending)
            && r.next.filled == s.filled && r.next.latest == s.latest
  {
    if PriceMode(p) {
      CheckExitsAt(p, s, price, true);
      var first := CheckExit(p, s, price, true);
      if first.signals == [] { CheckExitsAt(p, first.next, s.latest.value, false); }
    } else {
      CheckExitsAt(p, s, s.latest.value, false);
    }
  }

  lemma EntryFillAnswers(p: Params, s: Scalp, price: real, q: Quantity)
    requires Sound(p, s) && s.state.EntryPending? && s.filled + q <= p.quantity
    ensures var r, i := OnFill(p, s, p.direction, price, q), Fill(p.direction, price, q);
            && r.signals == AfterEntryFill(p, s, price, q)
            && r.next.state == Becomes(p.direction, p.quantity, s, i, r.signals)
            && r.next.filled == s.filled + q && r.next.latest == s.latest
            && r.next.best == Some(BestAfterFill(p, s, price, q))
  {
    AccumulatedSo(p, s, price, q, Complete(p, Accumulate(p, s, price, q)));
    FilledSo(p, s, price, q, Complete(p, Accumulate(p, s, price, q)), OnFill(p, s, p.direction, price, q));
  }

  /** The strategy with the fill booked. */
  predicate Booked(p: Params, s: Scalp, price: real, q: Quantity, s1: Scalp) {
    var entry := EntryAfter(s, price, q);
    && s1.filled == s.filled + q && s1.entryPrice == Some(entry) && s1.best == Some(BestOf(p.direction, s.best, entry))
    && s1.latest == s.latest && !s1.exitEmitted
    && s1.state == if s.filled + q == p.quantity then InPosition else EntryPending
  }

  lemma AccumulatedSo(p: Params, s: Scalp, price: real, q: Quantity, s1: Scalp)
    requires s.state.EntryPending? && !s.exitEmitted && s1 == Complete(p, Accumulate(p, s, price, q))
    ensures Booked(p, s, price, q, s1)
  {
  }

  lemma FilledSo(p: Params, s: Scalp, price: real, q: Quantity, s1: Scalp, r: Reaction)
    requires s.state.EntryPending? && s.filled + q <= p.quantity && s.latest.Some?
    requires Booked(p, s, price, q, s1) && r == Protect(p, s1, price)
    ensures && r.signals == AfterEntryFill(p, s, price, q)
            && r.next.state == Becomes(p.direction, p.quantity, s, Fill(p.direction, price, q), r.signals)
            && r.next.filled == s.filled + q && r.next.latest == s.latest
            && r.next.best == Some(BestAfterFill(p, s, price, q))
  {
    ProtectAnswers(p, s1, price);
  }

  lemma TickAnswers(p: Params, s: Scalp, price: real)
    requires Sound(p, s)
    ensures var r := OnTick(p, s, price);
            && r.signals == Emits(p, s, Tick(price))
            && r.next.state == Becomes(p.direction, p.quantity, s, Tick(price), r.signals)
            && r.next.filled == s.filled && r.next.latest == Some(price)
            && r.next.best == Remembers(p, s, Tick(price))
  {
    if Watching(s) { CheckExitsAt(p, s.(latest := Some(price)), price, false); }
  }

  /** The strategy answers every call of every run with exactly these signals, this state and this many contracts. */
  lemma AnswersExactly(p: Params, inputs: seq<Input>, i: Input)
    ensures Sound(p, Follow(p, FRESH_HISTORY, inputs).s)
    ensures var s := Follow(p, FRESH_HISTORY, inputs).s;
            var r := React(p, s, i);
            && r.signals == Emits(p, s, i) && r.next.state == Becomes(p.direction, p.quantity, s, i, r.signals)
            && r.next.filled == Keeps(p.direction, p.quantity, s, i) && r.next.best == Remembers(p, s, i)
            && r.next.latest == if i.Tick? then Some(i.price) else s.latest
  {
    FreshAccounts(p);
    FollowAccounts(p, FRESH_HISTORY, inputs);
    StepAnswers(p, Follow(p, FRESH_HISTORY, inputs).s, i);
  }

  lemma StepAnswers(p: Params, s: Scalp, i: Input)
    requires Sound(p, s)
    ensures var r := React(p, s, i);
            && r.signals == Emits(p, s, i) && r.next.state == Becomes(p.direction, p.quantity, s, i, r.signals)
            && r.next.filled == Keeps(p.direction, p.quantity, s, i) && r.next.best == Remembers(p, s, i)
            && r.next.latest == if i.Tick? then Some(i.price) else s.latest
  {
    match i
    case Tick(price) => TickAnswers(p, s, price);
    case Fill(_, price, q) => if EntryFill(p.direction, p.quantity, s, i) { EntryFillAnswers(p, s, price, q); }
    case _ =>
  }

  // ---------------------------------------------------------------- the trailing stop over many ticks

  function TicksAt(prices: seq<real>): (inputs: seq<Input>)
    ensures |inputs| == |prices|
  {
    seq(|prices|, k requires 0 <= k < |prices| => Tick(prices[k]))
  }

  /** The best price of all, the first one included. */
  function BestOver(d: Direction, seen: real, prices: seq<real>): real
    decreases |prices|
  {
    if prices == [] then seen else BestOver(d, BestOf(d, Some(seen), prices[0]), prices[1..])
  }

  /** It is one of them, and none is better. */
  lemma {:induction false} BestOverIsBest(d: Direction, seen: real, prices: seq<real>)
    ensures BestOver(d, seen, prices) == seen || BestOver(d, seen, prices) in prices
    ensures if d.Long? then seen <= BestOver(d, seen, prices) else seen >= BestOver(d, seen, prices)
    ensures forall x :: x in prices ==>
              if d.Long? then x <= BestOver(d, seen, prices) else x >= BestOver(d, seen, prices)
    decreases |prices|
  {
    if prices != [] {
      BestOverIsBest(d, BestOf(d, Some(seen), prices[0]), prices[1..]);
      assert forall x :: x in prices <==> x == prices[0] || x in prices[1..];
    }
  }

  lemma {:induction false} BestOverOneMore(d: Direction, seen: real, prices: seq<real>, price: real)
    ensures BestOver(d, seen, prices + [price]) == BestOf(d, Some(BestOver(d, seen, prices)), price)
    decreases |prices|
  {
    if prices != [] {
      assert (prices + [price])[1..] == prices[1..] + [price];
      BestOverOneMore(d, BestOf(d, Some(seen), prices[0]), prices[1..], price);
    } else {
      assert BestOver(d, BestOf(d, Some(seen), price), [price][1..]) == BestOf(d, Some(seen), price);
    }
  }

  /** While a full position is only watched, the best of all prices since the entry is remembered. */
  lemma {:induction false} WatchedPositionTrails(p: Params, h: History, prices: seq<real>)
    requires Accounts(p, h) && h.s.state == InPosition && Follow(p, h, TicksAt(prices)).s.state == InPosition
    ensures var s := Follow(p, h, TicksAt(prices)).s;
            h.s.best.Some? && s.best == Some(BestOver(p.direction, h.s.best.value, prices))
    decreases |prices|
  {
    if prices != [] {
      var h1 := Record(p, h, Tick(prices[0]));
      assert TicksAt(prices)[0] == Tick(prices[0]) && TicksAt(prices)[1..] == TicksAt(prices[1..]);
      RecordAccounts(p, h, Tick(prices[0]));
      CheckExitsAt(p, h.s.(latest := Some(prices[0])), prices[0], false);
      if h1.s.state != InPosition { RankRises(p, h1, TicksAt(prices[1..])); }
      WatchedPositionTrails(p, h1, prices[1..]);
    }
  }

  lemma {:induction false} RankRises(p: Params, h: History, inputs: seq<Input>)
    requires Accounts(p, h)
    ensures Rank(Follow(p, h, inputs).s.state) >= Rank(h.s.state)
    decreases |inputs|
  {
    if inputs != [] {
      RecordAccounts(p, h, inputs[0]);
      StepAnswers(p, h.s, inputs[0]);
      RankRises(p, Record(p, h, inputs[0]), inputs[1..]);
    }
  }

  /**
    A full position with a trailing stop, watched over any number of ticks, stops out on the next one exactly when
    it is the trailing distance away from the best price since the entry.
   */
  lemma TrailingExitsExactlyWhen(p: Params, h: History, prices: seq<real>, price: real)
    requires Accounts(p, h) && h.s.state == InPosition && p.trailingPoints.Some?
    requires Follow(p, h, TicksAt(prices)).s.state == InPosition
    ensures h.s.best.Some?
    ensures var best := BestOver(p.direction, h.s.best.value, prices + [price]);
            var sent := React(p, Follow(p, h, TicksAt(prices)).s, Tick(price)).signals;
            (sent != [] && sent[0].intent == StopLoss)
            <==> if p.direction.Long? then price <= best - p.trailingPoints.value as real
                 else price >= best + p.trailingPoints.value as real
  {
    WatchedPositionTrails(p, h, prices);
    FollowAccounts(p, h, TicksAt(prices));
    StepAnswers(p, Follow(p, h, TicksAt(prices)).s, Tick(price));
    BestOverOneMore(p.direction, h.s.best.value, prices, price);
  }
}
