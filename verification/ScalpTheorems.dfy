/** Whole-run theorems about the scalping strategy. */
module ScalpTheorems {
  import opened Domain
  import opened StrategyBase
  import opened ScalpRules

  // ---------------------------------------------------------------- state and protection

  /** What each state says about quantities and fields. */
  ghost predicate Shape(p: Params, s: Scalp) {
    && s.moves <= Rank(s.state)
    && (s.filled > 0 ==> s.entryPrice.Some? && s.best.Some?)
    && match s.state
       case EntryPending =>
         && s.filled < p.quantity && !s.exitEmitted && s.latest.Some?
         && (s.filled == 0 ==> s.entryValue == 0.0 && s.entryPrice.None? && s.best.None?)
       case InPosition => s.filled == p.quantity && !s.exitEmitted && s.latest.Some?
       case ExitPending => 0 < s.filled <= p.quantity && s.exitEmitted
       case Closed => s.filled == 0 && s.exitEmitted
       case Cancelled => s.filled < p.quantity && !s.exitEmitted
       case Aborted => s.filled <= p.quantity
       case Error => 0 < s.filled <= p.quantity && s.exitEmitted
       case _ => s == FRESH_SCALP.(state := s.state, latest := s.latest, moves := s.moves)
  }

  /** The price lies strictly between the stop and the take-profit level. */
  predicate Bracketed(p: Params, s: Scalp, price: real) {
    && s.entryPrice.Some? && StopPrice(p, s).Some?
    && Ahead(p.direction, price, StopPrice(p, s).value)
    && Ahead(p.direction, TakeProfitLevel(p, s.entryPrice.value), price)
  }

  /** No exposure without an exit order lies outside its bracket at the latest price. */
  ghost predicate Protected(p: Params, s: Scalp) {
    Exposed(s.state) && s.filled > 0 ==> s.latest.Some? && Bracketed(p, s, s.latest.value)
  }

  /** The calls the strategy answers with an error. */
  predicate Refuses(p: Params, s: Scalp, i: Input) {
    match i
    case Arm => !s.state.Idle?
    case Cancel => s.state !in {Idle, Armed, EntryPending}
    case Reject => s.state in {Idle, Armed, InPosition}
    case Fill(action, _, q) =>
      if s.state.EntryPending? then action != p.direction || s.filled + q > p.quantity
      else if s.state.ExitPending? then action == p.direction || q > s.filled
      else !Terminal(s.state)
    case _ => false
  }

  ghost predicate Sound(p: Params, s: Scalp) {
    Shape(p, s) && Protected(p, s)
  }

  /**
    A check emits an exit, for the whole quantity, exactly when the price has left the bracket; on the side it
    left.
   */
  lemma CheckProtects(p: Params, s: Scalp, price: real, crossed: bool)
    requires Exposed(s.state) && s.filled > 0 && !s.exitEmitted && s.entryPrice.Some?
    ensures var r := CheckExit(p, s, price, crossed);
            && !r.raised
            && (r.signals == [] <==> Bracketed(p, UpdateBest(p, s, price), price))
            && (r.signals != [] ==>
                  if r.signals[0].intent.StopLoss? then StopTriggered(p, UpdateBest(p, s, price), price)
                  else ProfitTriggered(p, UpdateBest(p, s, price), price))
            && (r.signals == [] ==> r.next == UpdateBest(p, s, price) && Bracketed(p, r.next, price))
            && (r.signals != [] ==>
                  && r.next == UpdateBest(p, s, price).(exitEmitted := true, state := ExitPending, moves := s.moves + 1)
                  && |r.signals| == 1 && r.signals[0].intent in {StopLoss, TakeProfit}
                  && r.signals[0].quantity == s.filled && r.signals[0].action == p.direction.Opposite())
  {
  }

  lemma ProtectProtects(p: Params, s: Scalp, price: real)
    requires Exposed(s.state) && s.filled > 0 && !s.exitEmitted && s.entryPrice.Some? && s.latest.Some?
    ensures var r := Protect(p, s, price);
            && !r.raised && r.next.filled == s.filled && r.next.entryPrice == s.entryPrice
            && r.next.entryValue == s.entryValue
            && r.next.latest == s.latest && r.next.best.Some?
            && (s.best.Some? ==> !Ahead(p.direction, s.best.value, r.next.best.value))
            && (r.signals == [] ==> r.next.state == s.state && r.next.moves == s.moves && !r.next.exitEmitted
                                    && Bracketed(p, r.next, s.latest.value))
            && (r.signals != [] ==>
                  && r.next.state.ExitPending? && r.next.exitEmitted && r.next.moves == s.moves + 1
                  && |r.signals| == 1 && r.signals[0].intent in {StopLoss, TakeProfit}
                  && r.signals[0].quantity == s.filled && r.signals[0].action == p.direction.Opposite())
  {
    if PriceMode(p) {
      CheckProtects(p, s, price, true);
      var first := CheckExit(p, s, price, true);
      if first.signals == [] { CheckProtects(p, first.next, s.latest.value, false); }
    } else {
      CheckProtects(p, s, s.latest.value, false);
    }
  }

  lemma FillIsSound(p: Params, s: Scalp, action: Direction, price: real, q: Quantity)
    requires Sound(p, s)
    ensures var r := OnFill(p, s, action, price, q);
            && Sound(p, r.next) && (r.raised <==> Refuses(p, s, Fill(action, price, q))) && (r.raised ==> r.next == s)
  {
    if s.state.EntryPending? && !Refuses(p, s, Fill(action, price, q)) {
      ProtectProtects(p, Complete(p, Accumulate(p, s, price, q)), price);
    }
  }

  lemma TickIsSound(p: Params, s: Scalp, price: real)
    requires Sound(p, s)
    ensures Sound(p, OnTick(p, s, price).next) && !OnTick(p, s, price).raised
  {
    if Exposed(s.state) && s.filled > 0 {
      CheckProtects(p, s.(latest := Some(price)), price, false);
    }
  }

  /**
    Every call keeps the strategy sound: exposure stays bracketed, quantities fit the state, and an error
    is raised exactly by the calls listed in `Refuses` and changes nothing.
   */
  lemma StepIsSound(p: Params, s: Scalp, i: Input)
    requires Sound(p, s)
    ensures var r := React(p, s, i);
            && Sound(p, r.next) && (r.raised <==> Refuses(p, s, i)) && (r.raised ==> r.next == s)
  {
    match i
    case Tick(price) => TickIsSound(p, s, price);
    case Fill(action, price, q) => FillIsSound(p, s, action, price, q);
    case _ =>
  }

  // ---------------------------------------------------------------- one entry, one exit

  /** A strategy together with what it has emitted and what it has accepted. */
  datatype History = History(
    s: Scalp, entries: seq<Signal>, exits: seq<Signal>, bought: nat, sold: nat, cost: real)

  const FRESH_HISTORY: History := History(FRESH_SCALP, [], [], 0, 0, 0.0)

  function Record(p: Params, h: History, i: Input): History {
    Answered(h, i, React(p, h.s, i))
  }

  function Answered(h: History, i: Input, r: Reaction): History {
    var entry := r.signals != [] && r.signals[0].intent.Entry?;
    var booked := if i.Fill? && !r.raised then i.quantity else 0;
    var bought := if h.s.state.EntryPending? then booked else 0;
    History(
      r.next,
      if entry then h.entries + r.signals else h.entries,
      if entry then h.exits else h.exits + r.signals,
      h.bought + bought,
      h.sold + if h.s.state.ExitPending? then booked else 0,
      h.cost + if bought > 0 then i.price * bought as real else 0.0)
  }

  function Follow(p: Params, h: History, inputs: seq<Input>): History
    decreases |inputs|
  {
    if inputs == [] then h else Follow(p, Record(p, h, inputs[0]), inputs[1..])
  }

  function EntrySignal(p: Params): Signal {
    Signal(Entry, p.direction, p.quantity, if p.entryLimit then Some(p.trigger) else None)
  }

  /** One entry signal before anything is bought, one exit signal for everything bought. */
  ghost predicate Accounts(p: Params, h: History) {
    && Sound(p, h.s)
    && h.entries == (if Rank(h.s.state) < 2 || (h.entries == [] && Terminal(h.s.state)) then [] else [EntrySignal(p)])
    && (h.bought > 0 ==> h.entries != [] && h.s.entryPrice == Some(h.cost / h.bought as real))
    && (h.s.exitEmitted <==> h.exits != [])
    && |h.exits| <= 1
    && (h.exits != [] ==> h.exits[0].quantity == h.bought && h.exits[0].action == p.direction.Opposite())
    && (h.exits == [] ==> h.sold == 0)
    && h.sold <= h.bought <= p.quantity && h.s.filled == h.bought - h.sold
    && (h.s.state.EntryPending? ==> h.s.entryValue == h.cost)
    && (h.bought == 0 ==> h.cost == 0.0)
  }

  /** What an accepted entry fill worth so much leaves behind. */
  ghost predicate Bought(p: Params, s: Scalp, r: Reaction, q: Quantity, value: real) {
    && r.next.filled == s.filled + q && r.next.entryValue == s.entryValue + value
    && r.next.entryPrice == Some(r.next.entryValue / r.next.filled as real)
    && (r.signals == [] ==> Exposed(r.next.state) && !r.next.exitEmitted)
    && (r.signals != [] ==>
          && r.next.state.ExitPending? && r.next.exitEmitted && |r.signals| == 1 && !r.signals[0].intent.Entry?
          && r.signals[0].quantity == r.next.filled && r.signals[0].action == p.direction.Opposite())
  }

  lemma EntryFillBuys(p: Params, s: Scalp, price: real, q: Quantity)
    requires Sound(p, s) && s.state.EntryPending? && s.filled + q <= p.quantity
    ensures Bought(p, s, OnFill(p, s, p.direction, price, q), q, price * q as real)
  {
    ProtectProtects(p, Complete(p, Accumulate(p, s, price, q)), price);
  }

  lemma BoughtAccounts(p: Params, h: History, i: Input, r: Reaction)
    requires Accounts(p, h) && h.s.state.EntryPending? && Sound(p, r.next) && !r.raised
    requires i.Fill? && Bought(p, h.s, r, i.quantity, i.price * i.quantity as real)
    ensures Accounts(p, Answered(h, i, r))
  {
    var value := i.price * i.quantity as real;
    assert Answered(h, i, r)
        == History(r.next, h.entries, h.exits + r.signals, h.bought + i.quantity, h.sold, h.cost + value);
    assert h.exits == [] && h.sold == 0;
  }

  lemma EntryFillAccounts(p: Params, h: History, price: real, q: Quantity)
    requires Accounts(p, h) && h.s.state.EntryPending? && h.s.filled + q <= p.quantity
    ensures Accounts(p, Record(p, h, Fill(p.direction, price, q)))
  {
    FillIsSound(p, h.s, p.direction, price, q);
    EntryFillBuys(p, h.s, price, q);
    BoughtAccounts(p, h, Fill(p.direction, price, q), OnFill(p, h.s, p.direction, price, q));
  }

  lemma TickAccounts(p: Params, h: History, price: real)
    requires Accounts(p, h)
    ensures Accounts(p, Record(p, h, Tick(price)))
  {
    StepIsSound(p, h.s, Tick(price));
    if Exposed(h.s.state) && h.s.filled > 0 {
      CheckProtects(p, h.s.(latest := Some(price)), price, false);
    }
  }

  lemma OtherAccounts(p: Params, h: History, i: Input)
    requires Accounts(p, h) && !i.Tick? && !(i.Fill? && h.s.state.EntryPending?)
    ensures Accounts(p, Record(p, h, i))
  {
    StepIsSound(p, h.s, i);
  }

  lemma RecordAccounts(p: Params, h: History, i: Input)
    requires Accounts(p, h)
    ensures Accounts(p, Record(p, h, i))
  {
    if i.Tick? {
      TickAccounts(p, h, i.price);
    } else if !(i.Fill? && h.s.state.EntryPending?) {
      OtherAccounts(p, h, i);
    } else if !Refuses(p, h.s, i) {
      EntryFillAccounts(p, h, i.price, i.quantity);
    }
  }

  lemma {:induction false} FollowAccounts(p: Params, h: History, inputs: seq<Input>)
    requires Accounts(p, h)
    ensures Accounts(p, Follow(p, h, inputs))
    decreases |inputs|
  {
    if inputs != [] {
      RecordAccounts(p, h, inputs[0]);
      FollowAccounts(p, Record(p, h, inputs[0]), inputs[1..]);
    }
  }

  lemma FreshAccounts(p: Params)
    ensures Accounts(p, FRESH_HISTORY)
  {
  }

  /**
    One entry, one exit: whatever events arrive, at most one entry and one exit signal are emitted, the exit
    is for exactly what was bought, and the open quantity is what was bought less what was sold.
   */
  lemma OneEntryOneExit(p: Params, inputs: seq<Input>)
    ensures var h := Follow(p, FRESH_HISTORY, inputs);
            && |h.entries| <= 1 && |h.exits| <= 1
            && (h.entries != [] ==> h.entries[0] == EntrySignal(p))
            && (h.exits != [] ==> h.exits[0].quantity == h.bought > 0 && h.exits[0].action == p.direction.Opposite())
            && (h.bought > 0 ==> h.entries != [] && h.s.entryPrice == Some(h.cost / h.bought as real))
            && h.s.filled == h.bought - h.sold && 0 <= h.sold <= h.bought <= p.quantity
            && (h.sold > 0 ==> h.exits != [])
  {
    FreshAccounts(p);
    FollowAccounts(p, FRESH_HISTORY, inputs);
    ExitsAreReal(p, FRESH_HISTORY, inputs);
  }

  /** An exit signal is never for nothing. */
  lemma {:induction false} ExitsAreReal(p: Params, h: History, inputs: seq<Input>)
    requires Accounts(p, h) && (h.exits != [] ==> h.bought > 0)
    ensures Follow(p, h, inputs).exits != [] ==> Follow(p, h, inputs).bought > 0
    decreases |inputs|
  {
    if inputs != [] {
      RecordAccounts(p, h, inputs[0]);
      StepIsSound(p, h.s, inputs[0]);
      ExitsAreReal(p, Record(p, h, inputs[0]), inputs[1..]);
    }
  }

  /** The live states fix the quantity, and no run makes more than five transitions. */
  lemma StatesFixQuantity(p: Params, inputs: seq<Input>)
    ensures var s := Follow(p, FRESH_HISTORY, inputs).s;
            && (s.state in {Idle, Armed, State.Closed} ==> s.filled == 0)
            && (s.state.EntryPending? ==> s.filled < p.quantity)
            && (s.state.InPosition? ==> s.filled == p.quantity)
            && (s.state.ExitPending? ==> 0 < s.filled <= p.quantity)
            && s.moves <= Rank(s.state) <= LAST_RANK
  {
    FreshAccounts(p);
    FollowAccounts(p, FRESH_HISTORY, inputs);
  }

  /** No unprotected exposure: until an exit is emitted, the latest price is strictly inside the bracket. */
  lemma NoUnprotectedExposure(p: Params, inputs: seq<Input>)
    ensures var h := Follow(p, FRESH_HISTORY, inputs);
            h.s.filled > 0 && Exposed(h.s.state) ==>
              h.exits == [] && h.s.latest.Some? && Bracketed(p, h.s, h.s.latest.value)
  {
    FreshAccounts(p);
    FollowAccounts(p, FRESH_HISTORY, inputs);
  }

  /**
    Cancelling, or a reject, after a partial entry fill ends the strategy with contracts it no longer
    protects: exactly then does a cancelled strategy still hold a position.
   */
  lemma CancelledMayHold(p: Params, inputs: seq<Input>, i: Input)
    requires i in {Cancel, Reject}
    ensures var s := Follow(p, FRESH_HISTORY, inputs).s;
            var s' := React(p, s, i).next;
            !Terminal(s.state) && s'.state.Cancelled? && s'.filled > 0 <==> s.state.EntryPending? && s.filled > 0
  {
    FreshAccounts(p);
    FollowAccounts(p, FRESH_HISTORY, inputs);
  }

  /** One contract bought at the trigger keeps the strategy waiting for the rest of its entry. */
  lemma FirstContractWaits(p: Params, s: Scalp)
    requires p.quantity > 1 && s.(moves := 0) == FRESH_SCALP.(state := EntryPending, latest := Some(p.trigger))
    ensures var r := React(p, s, Fill(p.direction, p.trigger, 1));
            !r.raised && r.signals == [] && r.next.state.EntryPending? && r.next.filled == 1
  {
    assert p.trigger * 1 as real == p.trigger && (0.0 + p.trigger) / 1 as real == p.trigger;
  }

  /** Armed, triggered, filled in part, cancelled. */
  lemma CancelStrands(p: Params) returns (inputs: seq<Input>)
    requires p.quantity > 1
    ensures var s := Follow(p, FRESH_HISTORY, inputs).s; s.state.Cancelled? && s.filled == 1
  {
    var fill := Fill(p.direction, p.trigger, 1);
    var h1 := Record(p, FRESH_HISTORY, Arm);
    var h2 := Record(p, h1, Tick(p.trigger));
    var h3 := Record(p, h2, fill);
    FirstContractWaits(p, h2.s);
    inputs := [Arm, Tick(p.trigger), fill, Cancel];
    assert inputs[1..] == [Tick(p.trigger), fill, Cancel] && inputs[1..][1..] == [fill, Cancel];
    assert [fill, Cancel][1..] == [Cancel] && [Cancel][1..] == [];
    assert Follow(p, h3, [Cancel]) == Follow(p, Record(p, h3, Cancel), []);
    assert Follow(p, h2, [fill, Cancel]) == Follow(p, h3, [Cancel]);
    assert Follow(p, h1, inputs[1..]) == Follow(p, h2, inputs[1..][1..]);
  }

  /** A setup can end cancelled with contracts still held exactly when its entry is for more than one. */
  lemma CanStrandExactlyWhen(p: Params)
    ensures (exists inputs :: var s := Follow(p, FRESH_HISTORY, inputs).s; s.state.Cancelled? && s.filled > 0)
            <==> p.quantity > 1
  {
    forall inputs
      ensures var s := Follow(p, FRESH_HISTORY, inputs).s; s.state.Cancelled? ==> s.filled < p.quantity
    {
      FreshAccounts(p);
      FollowAccounts(p, FRESH_HISTORY, inputs);
    }
    if p.quantity > 1 { var inputs := CancelStrands(p); }
  }

  // ---------------------------------------------------------------- stop and take profit exclude each other

  /** Not both levels are reached by a check at this price. */
  predicate Exclusive(p: Params, s: Scalp, price: real) {
    var t := UpdateBest(p, s, price);
    !(StopTriggered(p, t, price) && ProfitTriggered(p, t, price))
  }

  lemma TickExclusive(p: Params, s: Scalp, price: real)
    requires Sound(p, s) && Exposed(s.state) && s.filled > 0
    ensures Exclusive(p, s, price)
  {
  }

  lemma FillExclusive(p: Params, s: Scalp, price: real, q: Quantity)
    requires Sound(p, s) && s.state.EntryPending? && s.filled + q <= p.quantity
    ensures var t := Complete(p, Accumulate(p, s, price, q));
            (PriceMode(p) ==> Exclusive(p, t, price)) && Exclusive(p, t, s.latest.value)
  {
  }

  /** On no check of any run are the stop and the take profit triggered together. */
  lemma NeverBoth(p: Params, inputs: seq<Input>, price: real, q: Quantity)
    ensures var s := Follow(p, FRESH_HISTORY, inputs).s;
            && (Exposed(s.state) && s.filled > 0 ==> Exclusive(p, s.(latest := Some(price)), price))
            && (s.state.EntryPending? && s.filled + q <= p.quantity ==>
                  var t := Complete(p, Accumulate(p, s, price, q));
                  s.latest.Some? && (PriceMode(p) ==> Exclusive(p, t, price)) && Exclusive(p, t, s.latest.value))
  {
    FreshAccounts(p);
    FollowAccounts(p, FRESH_HISTORY, inputs);
    var s := Follow(p, FRESH_HISTORY, inputs).s;
    if Exposed(s.state) && s.filled > 0 { TickExclusive(p, s, price); }
    if s.state.EntryPending? && s.filled + q <= p.quantity { FillExclusive(p, s, price, q); }
  }

  // ---------------------------------------------------------------- limit exits

  /** Whether a price lies strictly past the level of this exit. */
  predicate Past(p: Params, intent: Intent, price: real, level: real) {
    Ahead(if intent.TakeProfit? then p.direction else p.direction.Opposite(), price, level)
  }

  /**
    An exit carries a limit price only in price mode and only at its own level, never on a forced close,
    and never when the entry fill itself was already past that level.
   */
  lemma LimitExits(p: Params, s: Scalp, i: Input)
    requires Sound(p, s)
    ensures var r := React(p, s, i);
            r.signals != [] && !r.signals[0].intent.Entry? && r.signals[0].limitPrice.Some? ==>
              && PriceMode(p) && r.signals[0].intent in {TakeProfit, StopLoss}
              && r.signals[0].limitPrice == (if r.signals[0].intent.TakeProfit? then p.takeProfitPrice
                                             else p.stopLossPrice)
              && (i.Fill? ==> !Past(p, r.signals[0].intent, i.price, r.signals[0].limitPrice.value))
  {
    if i.Fill? && s.state.EntryPending? && !Refuses(p, s, i) {
      LimitAfterFill(p, Complete(p, Accumulate(p, s, i.price, i.quantity)), i.price);
    }
  }

  lemma LimitAfterFill(p: Params, s: Scalp, price: real)
    requires Exposed(s.state) && s.filled > 0 && !s.exitEmitted && s.entryPrice.Some? && s.latest.Some?
    ensures var r := Protect(p, s, price);
            r.signals != [] && r.signals[0].limitPrice.Some? ==>
              && PriceMode(p) && r.signals[0].intent in {TakeProfit, StopLoss}
              && r.signals[0].limitPrice == (if r.signals[0].intent.TakeProfit? then p.takeProfitPrice
                                             else p.stopLossPrice)
              && !Past(p, r.signals[0].intent, price, r.signals[0].limitPrice.value)
  {
  }

  // ---------------------------------------------------------------- trailing stop

  lemma StepNeverLoosens(p: Params, s: Scalp, i: Input)
    requires Sound(p, s) && p.trailingPoints.Some? && s.filled > 0 && s.entryPrice.Some? && s.best.Some?
    ensures var s' := React(p, s, i).next;
            && s'.entryPrice.Some? && s'.best.Some? && StopPrice(p, s').Some?
            && !Ahead(p.direction, StopPrice(p, s).value, StopPrice(p, s').value)
  {
    if i.Fill? && s.state.EntryPending? && !Refuses(p, s, i) {
      ProtectProtects(p, Complete(p, Accumulate(p, s, i.price, i.quantity)), i.price);
    }
  }

  /** While contracts are held, a trailing stop never moves against the position. */
  lemma {:induction false} TrailingNeverLoosens(p: Params, h: History, inputs: seq<Input>)
    requires Accounts(p, h) && p.trailingPoints.Some? && h.s.filled > 0
    requires Follow(p, h, inputs).s.filled > 0
    ensures StopPrice(p, h.s).Some? && StopPrice(p, Follow(p, h, inputs).s).Some?
    ensures !Ahead(p.direction, StopPrice(p, h.s).value, StopPrice(p, Follow(p, h, inputs).s).value)
    decreases |inputs|
  {
    if inputs != [] {
      StepNeverLoosens(p, h.s, inputs[0]);
      RecordAccounts(p, h, inputs[0]);
      if Record(p, h, inputs[0]).s.filled == 0 {
        StaysFlat(p, Record(p, h, inputs[0]), inputs[1..]);
      }
      TrailingNeverLoosens(p, Record(p, h, inputs[0]), inputs[1..]);
    }
  }

  /** Once something was bought and everything is sold, the strategy stays flat. */
  lemma {:induction false} StaysFlat(p: Params, h: History, inputs: seq<Input>)
    requires Accounts(p, h) && h.bought > 0 && h.s.filled == 0
    ensures Follow(p, h, inputs).s.filled == 0
    decreases |inputs|
  {
    if inputs != [] {
      RecordAccounts(p, h, inputs[0]);
      StaysFlat(p, Record(p, h, inputs[0]), inputs[1..]);
    }
  }
}
