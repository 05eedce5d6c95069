/** The engine's own ledger: positions, daily profit and the count of exposure-opening orders. */
module PositionTracker {
  import opened Domain
  import opened FifoLedger

  /** An order is identified by its client id, or by the broker number when that is missing or empty. */
  datatype EntryKey = ByClient(clientId: string) | ByBroker(brokerOrderId: nat)

  function KeyOf(f: FillEvent): EntryKey {
    if f.clientId.Some? && f.clientId.value != "" then ByClient(f.clientId.value) else ByBroker(f.brokerOrderId)
  }

  datatype TrackerState = TrackerState(
    ledger: Ledger, latest: Option<real>, tradeCount: int, counted: set<EntryKey>, restored: bool)

  const EMPTY: TrackerState := TrackerState(Ledger([], 0.0), None, 0, {}, false)

  function BookFill(t: TrackerState, f: FillEvent, pv: int): TrackerState {
    var ledger := Apply(t.ledger, f.action, f.quantity, f.price, pv);
    if Residual(t.ledger.lots, f.action, f.quantity) > 0 && KeyOf(f) !in t.counted then
      t.(ledger := ledger, counted := t.counted + {KeyOf(f)}, tradeCount := t.tradeCount + 1)
    else
      t.(ledger := ledger)
  }

  datatype Snapshot = Snapshot(
    direction: Option<Direction>, quantity: nat, averagePrice: real, unrealizedPoints: real, unrealizedNtd: real)

  /** Unrealized profit at the latest price, zero before any price is known. */
  function Unrealized(t: TrackerState, pv: int): real {
    if t.latest.None? then 0.0 else Value(t.ledger.lots, t.latest.value, pv)
  }

  datatype Difference =
    | SeveralBrokerPositions(count: nat)
    | BrokerIsFlat(internalQuantity: nat)
    | DirectionDiffers
    | QuantityDiffers
    | AverageDiffers

  const AVERAGE_TOLERANCE: real := 0.000000001

  /** What it means for the broker's report to confirm the engine's position. */
  ghost predicate Agrees(lots: seq<Lot>, broker: seq<Position>) {
    if lots == [] then broker == []
    else
      && |broker| == 1
      && broker[0].direction == lots[0].direction
      && broker[0].quantity == Total(lots)
      && -AVERAGE_TOLERANCE <= Average(lots) - broker[0].averagePrice <= AVERAGE_TOLERANCE
  }

  class PositionTracker {
    const pointValue: int
    var lots: seq<Lot>
    var latestPrice: Option<real>
    var realizedPnlNtd: real
    var tradeCount: int
    var countedEntries: set<EntryKey>
    var dailyRestored: bool

    ghost function State(): TrackerState
      reads this
    {
      TrackerState(Ledger(lots, realizedPnlNtd), latestPrice, tradeCount, countedEntries, dailyRestored)
    }

    constructor (pointValue: int)
      ensures State() == EMPTY && this.pointValue == pointValue
    {
      this.pointValue := pointValue;
      lots, latestPrice, realizedPnlNtd := [], None, 0.0;
      tradeCount, countedEntries, dailyRestored := 0, {}, false;
    }

    method OnFill(fill: FillEvent)
      modifies this
      ensures State() == BookFill(old(State()), fill, pointValue)
    {
      var remaining: nat := fill.quantity;
      var opens := false;
      ghost var booked := Apply(State().ledger, fill.action, fill.quantity, fill.price, pointValue);
      ghost var residual := Residual(lots, fill.action, fill.quantity);
      while lots != [] && lots[0].direction != fill.action && remaining > 0
        invariant Apply(Ledger(lots, realizedPnlNtd), fill.action, remaining, fill.price, pointValue) == booked
        invariant Residual(lots, fill.action, remaining) == residual
        invariant unchanged(`latestPrice) && unchanged(`tradeCount) && unchanged(`countedEntries)
                  && unchanged(`dailyRestored)
        decreases remaining
      {
        var lot := lots[0];
        var closed := Min(lot.quantity, remaining);
        OneTurn(Ledger(lots, realizedPnlNtd), fill.action, remaining, fill.price, pointValue);
        realizedPnlNtd := realizedPnlNtd + ClosePnl(lot, closed, fill.price, pointValue);
        remaining := remaining - closed;
        if closed == lot.quantity {
          lots := lots[1..];
        } else {
          lots := lots[0 := lot.(quantity := lot.quantity - closed)];
          assert lots == ShrinkHead([lot] + lots[1..], closed);
        }
      }
      if remaining > 0 {
        lots := lots + [Lot(fill.action, remaining, fill.price)];
        opens := true;
      }
      var key := KeyOf(fill);
      if opens && key !in countedEntries {
        countedEntries := countedEntries + {key};
        tradeCount := tradeCount + 1;
      }
    }

    method OnTick(price: real)
      modifies this`latestPrice
      ensures State() == old(State()).(latest := Some(price))
    {
      latestPrice := Some(price);
    }

    /** The snapshot agrees with the net position and with the lot-by-lot valuation. */
    method TakeSnapshot() returns (s: Snapshot)
      requires OneSided(lots)
      ensures s.quantity == Abs(Net(lots))
      ensures s.direction == if Net(lots) > 0 then Some(Long) else if Net(lots) < 0 then Some(Short) else None
      ensures lots != [] ==> s.averagePrice == Average(lots)
      ensures s.unrealizedNtd == Unrealized(State(), pointValue) == s.unrealizedPoints * pointValue as real
    {
      if lots == [] {
        return Snapshot(None, 0, 0.0, 0.0, 0.0);
      }
      NetIsSignedTotal(lots);
      var quantity, average, direction := Total(lots), Average(lots), lots[0].direction;
      var points := 0.0;
      if latestPrice.Some? {
        points := (latestPrice.value - average) * direction.Sign() as real * quantity as real;
        AverageValuation(lots, latestPrice.value, pointValue);
        assert direction.Sign() as real * quantity as real == Signed(direction, quantity) as real;
        assert points == Signed(direction, quantity) as real * (latestPrice.value - average);
      }
      s := Snapshot(Some(direction), quantity, average, points, points * pointValue as real);
    }

    method TotalPnl() returns (total: real)
      requires OneSided(lots)
      ensures latestPrice.Some? ==> total == Equity(State().ledger, pointValue, latestPrice.value)
      ensures latestPrice.None? ==> total == realizedPnlNtd
    {
      var s := TakeSnapshot();
      total := realizedPnlNtd + s.unrealizedNtd;
    }

    method ResetDaily()
      modifies this
      ensures State() == StartDay(old(State()))
    {
      realizedPnlNtd, tradeCount, countedEntries := 0.0, 0, {};
    }

    /** Restores persisted totals; refused for a negative count and on any second attempt. */
    method RestoreDaily(realized: real, count: int) returns (ok: bool)
      modifies this
      ensures ok <==> count >= 0 && !old(dailyRestored)
      ensures var s := old(State());
              State() == if ok then s.(ledger := s.ledger.(realized := realized), tradeCount := count, restored := true)
                         else s
    {
      if count < 0 || dailyRestored {
        return false;
      }
      realizedPnlNtd, tradeCount, dailyRestored := realized, count, true;
      return true;
    }

    /** No difference is reported exactly when the broker confirms the position. */
    method Reconcile(broker: seq<Position>) returns (differences: seq<Difference>)
      requires OneSided(lots)
      ensures differences == [] <==> Agrees(lots, broker)
      ensures |broker| > 1 ==> SeveralBrokerPositions(|broker|) in differences
      ensures |broker| != 1 && lots != [] ==> BrokerIsFlat(Total(lots)) in differences
      ensures |broker| == 1 && lots == [] ==> DirectionDiffers in differences && QuantityDiffers in differences
      ensures |broker| == 1 && lots != [] ==>
                && (DirectionDiffers in differences <==> broker[0].direction != lots[0].direction)
                && (QuantityDiffers in differences <==> broker[0].quantity != Abs(Net(lots)))
                && (AverageDiffers in differences <==>
                      var gap := 1000000000.0 * (broker[0].averagePrice - Average(lots)); gap > 1.0 || gap < -1.0)
    {
      var internal := TakeSnapshot();
      if lots != [] { NetIsSignedTotal(lots); }
      differences := [];
      if |broker| > 1 {
        differences := differences + [SeveralBrokerPositions(|broker|)];
      }
      if |broker| != 1 {
        if internal.quantity != 0 {
          differences := differences + [BrokerIsFlat(internal.quantity)];
        }
        return;
      }
      if internal.direction != Some(broker[0].direction) {
        differences := differences + [DirectionDiffers];
      }
      if internal.quantity != broker[0].quantity {
        differences := differences + [QuantityDiffers];
      }
      var gap := internal.averagePrice - broker[0].averagePrice;
      if (if gap < 0.0 then -gap else gap) > AVERAGE_TOLERANCE {
        differences := differences + [AverageDiffers];
      }
    }
  }

  // ---------------------------------------------------------------- histories

  function StartDay(t: TrackerState): TrackerState {
    t.(ledger := t.ledger.(realized := 0.0), tradeCount := 0, counted := {})
  }

  /** The tracker fed a whole history of fills. */
  function BookAll(fills: seq<FillEvent>, pv: int): TrackerState {
    if fills == [] then EMPTY
    else BookFill(BookAll(fills[..|fills| - 1], pv), fills[|fills| - 1], pv)
  }

  lemma {:induction false} BookAllIsReplay(fills: seq<FillEvent>, pv: int)
    ensures BookAll(fills, pv).ledger == Replay(fills, pv)
  {
    if fills != [] {
      BookAllIsReplay(fills[..|fills| - 1], pv);
    }
  }

  datatype Happening = Filled(fill: FillEvent) | Ticked(price: real) | NewDay

  function Live(hs: seq<Happening>, pv: int): TrackerState {
    if hs == [] then EMPTY
    else
      var before := Live(hs[..|hs| - 1], pv);
      match hs[|hs| - 1]
      case Filled(f) => BookFill(before, f, pv)
      case Ticked(p) => before.(latest := Some(p))
      case NewDay => StartDay(before)
  }

  /** Realized profit taken off the books by the daily resets so far. */
  function Banked(hs: seq<Happening>, pv: int): real {
    if hs == [] then 0.0
    else
      Banked(hs[..|hs| - 1], pv)
      + if hs[|hs| - 1].NewDay? then Live(hs[..|hs| - 1], pv).ledger.realized else 0.0
  }

  function FillsIn(hs: seq<Happening>): seq<FillEvent> {
    if hs == [] then []
    else FillsIn(hs[..|hs| - 1]) + if hs[|hs| - 1].Filled? then [hs[|hs| - 1].fill] else []
  }

  lemma {:induction false} ApplyShift(l: Ledger, r: real, action: Direction, q: nat, price: real, pv: int)
    ensures Apply(l.(realized := l.realized + r), action, q, price, pv)
            == var a := Apply(l, action, q, price, pv); a.(realized := a.realized + r)
    decreases q
  {
    if Blocked(l.lots, action, q) {
      var next := CloseHead(l, q, price, pv);
      assert CloseHead(l.(realized := l.realized + r), q, price, pv) == next.(realized := next.realized + r);
      ApplyShift(next, r, action, q - Closed(l.lots, q), price, pv);
    }
  }

  lemma BankedShift(l: Ledger, bank: real, whole: Ledger, f: FillEvent, pv: int)
    requires l.lots == whole.lots && l.realized + bank == whole.realized
    ensures var a, b := Apply(l, f.action, f.quantity, f.price, pv), Apply(whole, f.action, f.quantity, f.price, pv);
            a.lots == b.lots && a.realized + bank == b.realized
  {
    ApplyShift(l, bank, f.action, f.quantity, f.price, pv);
  }

  /** Resetting the day only moves realized profit into the bank; it never touches the lots. */
  lemma {:induction false} ResetsConserve(hs: seq<Happening>, pv: int)
    ensures Live(hs, pv).ledger.lots == Replay(FillsIn(hs), pv).lots
    ensures Live(hs, pv).ledger.realized + Banked(hs, pv) == Replay(FillsIn(hs), pv).realized
  {
    if hs != [] {
      var before, last := hs[..|hs| - 1], hs[|hs| - 1];
      ResetsConserve(before, pv);
      if last.Filled? {
        var f, fills := last.fill, FillsIn(before);
        assert (fills + [f])[..|fills|] == fills;
        BankedShift(Live(before, pv).ledger, Banked(before, pv), Replay(fills, pv), f, pv);
      } else {
        assert FillsIn(hs) == FillsIn(before);
      }
    }
  }

  /** Over any number of days, banked plus current total profit is the cash flow of all fills at the latest price. */
  lemma ProfitAcrossDays(hs: seq<Happening>, pv: int)
    requires Live(hs, pv).latest.Some?
    ensures var t := Live(hs, pv);
            Banked(hs, pv) + t.ledger.realized + Unrealized(t, pv) == CashFlow(FillsIn(hs), t.latest.value, pv)
  {
    ResetsConserve(hs, pv);
    MarkToMarket(FillsIn(hs), pv, Live(hs, pv).latest.value);
  }

  /** A fill opens exposure exactly when it exceeds the opposite position. */
  lemma OpensExactlyWhen(lots: seq<Lot>, action: Direction, q: nat)
    requires OneSided(lots)
    ensures Residual(lots, action, q) > 0 <==> q > 0 && Signed(action, Net(lots)) + q > 0
  {
    ResidualMeaning(lots, action, q);
    if lots != [] { NetIsSignedTotal(lots); }
  }

  lemma ResidualSplits(l: Ledger, action: Direction, q1: Quantity, q2: Quantity, price: real, pv: int)
    requires OneSided(l.lots)
    ensures Residual(l.lots, action, q1 + q2) > 0
            <==> Residual(l.lots, action, q1) > 0 || Residual(Apply(l, action, q1, price, pv).lots, action, q2) > 0
  {
    var mid := Apply(l, action, q1, price, pv);
    ApplyOneSided(l, action, q1, price, pv);
    ApplyNet(l, action, q1, price, pv);
    OpensExactlyWhen(l.lots, action, q1 + q2);
    OpensExactlyWhen(l.lots, action, q1);
    OpensExactlyWhen(mid.lots, action, q2);
  }

  /** A fill changes the ledger, and counts its order if it opens exposure for the first time. */
  lemma BooksAs(t: TrackerState, f: FillEvent, pv: int)
    ensures var t', counts := BookFill(t, f, pv), Residual(t.ledger.lots, f.action, f.quantity) > 0;
            && t'.ledger == Apply(t.ledger, f.action, f.quantity, f.price, pv)
            && t'.counted == (if counts then t.counted + {KeyOf(f)} else t.counted)
            && t'.tradeCount == (if counts && KeyOf(f) !in t.counted then t.tradeCount + 1 else t.tradeCount)
  {
  }

  /** One fill of q1 + q2 and two fills of q1 then q2 leave the same contracts, profit and trade count. */
  lemma SplitReport(t: TrackerState, f: FillEvent, q1: Quantity, q2: Quantity, pv: int)
    requires f.quantity == q1 + q2 && OneSided(t.ledger.lots)
    ensures var whole := BookFill(t, f, pv);
            var parts := BookFill(BookFill(t, f.(quantity := q1), pv), f.(quantity := q2), pv);
            && AsUnits(whole.ledger) == AsUnits(parts.ledger)
            && whole.tradeCount == parts.tradeCount && whole.counted == parts.counted
  {
    var first := BookFill(t, f.(quantity := q1), pv);
    BooksAs(t, f, pv);
    BooksAs(t, f.(quantity := q1), pv);
    BooksAs(first, f.(quantity := q2), pv);
    SplitFill(t.ledger, f.action, q1, q2, f.price, pv);
    ResidualSplits(t.ledger, f.action, q1, q2, f.price, pv);
  }

  // ---------------------------------------------------------------- the daily trade count

  /** The orders of which a fill since the day began was larger than the opposite position it met. */
  function OpenedToday(hs: seq<Happening>): set<EntryKey> {
    if hs == [] then {}
    else
      var before := hs[..|hs| - 1];
      match hs[|hs| - 1]
      case NewDay => {}
      case Ticked(_) => OpenedToday(before)
      case Filled(f) =>
        var net := NetFlow(FillsIn(before));
        if (if f.action.Long? then net + f.quantity > 0 else net - f.quantity < 0) then OpenedToday(before) + {KeyOf(f)}
        else OpenedToday(before)
  }

  /** In every history the trade count is the number of different orders that opened exposure on the day. */
  lemma {:induction false} TradesAreOrdersThatOpened(hs: seq<Happening>, pv: int)
    ensures Live(hs, pv).counted == OpenedToday(hs) && Live(hs, pv).tradeCount == |OpenedToday(hs)|
  {
    if hs != [] {
      var before, last := hs[..|hs| - 1], hs[|hs| - 1];
      TradesAreOrdersThatOpened(before, pv);
      if last.Filled? {
        var t, f := Live(before, pv), last.fill;
        ResetsConserve(before, pv);
        MarkToMarket(FillsIn(before), pv, 0.0);
        BooksAs(t, f, pv);
        OpensExactlyWhen(t.ledger.lots, f.action, f.quantity);
      }
    }
  }
}
