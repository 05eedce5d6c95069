/**
  The first-in-first-out lot ledger kept, in two separate copies, by the position tracker and by the
  paper gateway. `Apply` is the specification both of their loops are proved against; the rest of the
  module says what that specification means.
 */
module FifoLedger {
  import opened Domain

  datatype Lot = Lot(direction: Direction, quantity: Quantity, price: real)

  /** Open lots, oldest first, and realized profit in NTD. */
  datatype Ledger = Ledger(lots: seq<Lot>, realized: real)

  /** Signed size of q contracts. */
  function Signed(d: Direction, q: int): int {
    if d.Long? then q else -q
  }

  /** Money made by e contracts (negative when short) while the price moves from one level to another. */
  function Gain(e: int, from: real, to: real, pointValue: int): real {
    e as real * (to - from) * pointValue as real
  }

  predicate Blocked(lots: seq<Lot>, action: Direction, q: nat) {
    lots != [] && lots[0].direction != action && q > 0
  }

  function Closed(lots: seq<Lot>, q: nat): (c: nat)
    requires lots != []
    ensures c <= q && (q > 0 ==> c > 0)
  {
    Min(lots[0].quantity, q)
  }

  function ClosePnl(lot: Lot, closed: nat, price: real, pointValue: int): real {
    Gain(Signed(lot.direction, closed), lot.price, price, pointValue)
  }

  function ShrinkHead(lots: seq<Lot>, closed: nat): seq<Lot>
    requires lots != [] && closed <= lots[0].quantity
  {
    if closed == lots[0].quantity then lots[1..]
    else [lots[0].(quantity := lots[0].quantity - closed)] + lots[1..]
  }

  /** One turn of the closing loop: take what the oldest lot can give and realize its profit. */
  function CloseHead(l: Ledger, q: nat, price: real, pointValue: int): Ledger
    requires l.lots != []
  {
    var closed := Closed(l.lots, q);
    Ledger(ShrinkHead(l.lots, closed), l.realized + ClosePnl(l.lots[0], closed, price, pointValue))
  }

  /** Close against the oldest opposite lots first, then open a new lot with what is left. */
  function Apply(l: Ledger, action: Direction, q: nat, price: real, pointValue: int): Ledger
    decreases q
  {
    if Blocked(l.lots, action, q) then
      Apply(CloseHead(l, q, price, pointValue), action, q - Closed(l.lots, q), price, pointValue)
    else if q > 0 then
      l.(lots := l.lots + [Lot(action, q, price)])
    else
      l
  }

  /** One turn of the loop leaves what the whole fill comes to as it was. */
  lemma OneTurn(l: Ledger, action: Direction, q: nat, price: real, pv: int)
    requires Blocked(l.lots, action, q)
    ensures var l', q' := CloseHead(l, q, price, pv), q - Closed(l.lots, q);
            && Apply(l', action, q', price, pv) == Apply(l, action, q, price, pv)
            && Residual(l'.lots, action, q') == Residual(l.lots, action, q)
  {
  }

  /** What a fill has left to open once every opposite lot it meets is used up. */
  function Residual(lots: seq<Lot>, action: Direction, q: nat): nat
    decreases q
  {
    if Blocked(lots, action, q) then
      Residual(ShrinkHead(lots, Closed(lots, q)), action, q - Closed(lots, q))
    else
      q
  }

  // ---------------------------------------------------------------- aggregates

  ghost predicate OneSided(lots: seq<Lot>) {
    forall i, j :: 0 <= i < |lots| && 0 <= j < |lots| ==> lots[i].direction == lots[j].direction
  }

  function Total(lots: seq<Lot>): nat {
    if lots == [] then 0 else lots[0].quantity + Total(lots[1..])
  }

  function Cost(lots: seq<Lot>): real {
    if lots == [] then 0.0 else lots[0].price * lots[0].quantity as real + Cost(lots[1..])
  }

  function Net(lots: seq<Lot>): int {
    if lots == [] then 0 else Signed(lots[0].direction, lots[0].quantity) + Net(lots[1..])
  }

  /** Unrealized profit of the lots at mark price p, lot by lot. */
  function Value(lots: seq<Lot>, p: real, pv: int): real {
    if lots == [] then 0.0
    else Gain(Signed(lots[0].direction, lots[0].quantity), lots[0].price, p, pv) + Value(lots[1..], p, pv)
  }

  function Average(lots: seq<Lot>): real
    requires lots != []
  {
    Cost(lots) / Total(lots) as real
  }

  lemma {:induction false} TotalPositive(lots: seq<Lot>)
    ensures lots != [] ==> Total(lots) > 0
  {
  }

  lemma {:induction false} AppendLot(lots: seq<Lot>, lot: Lot, p: real, pv: int)
    ensures Net(lots + [lot]) == Net(lots) + Signed(lot.direction, lot.quantity)
    ensures Total(lots + [lot]) == Total(lots) + lot.quantity
    ensures Value(lots + [lot], p, pv)
            == Value(lots, p, pv) + Gain(Signed(lot.direction, lot.quantity), lot.price, p, pv)
  {
    if lots == [] {
      assert lots + [lot] == [lot];
      assert [lot][1..] == [];
    } else {
      AppendLot(lots[1..], lot, p, pv);
      assert (lots + [lot])[1..] == lots[1..] + [lot];
    }
  }

  /** On one-sided lots the net position is the total size with the common sign. */
  lemma {:induction false} NetIsSignedTotal(lots: seq<Lot>)
    requires OneSided(lots) && lots != []
    ensures Net(lots) == Signed(lots[0].direction, Total(lots))
    ensures Abs(Net(lots)) == Total(lots) > 0
  {
    if |lots| == 1 {
      assert lots[1..] == [];
    } else {
      NetIsSignedTotal(lots[1..]);
    }
  }

  /** Valuing the whole position at its average price equals valuing it lot by lot. */
  lemma {:induction false} AverageValuation(lots: seq<Lot>, p: real, pv: int)
    requires OneSided(lots) && lots != []
    ensures Gain(Signed(lots[0].direction, Total(lots)), Average(lots), p, pv) == Value(lots, p, pv)
  {
    TotalPositive(lots);
    CostForm(lots, lots[0].direction, p, pv);
    var t, avg := Total(lots) as real, Average(lots);
    assert avg * t == Cost(lots);
    assert t * (p - avg) == p * t - Cost(lots);
    assert Signed(lots[0].direction, Total(lots)) as real * (p - avg)
        == Signed(lots[0].direction, 1) as real * (p * t - Cost(lots));
  }

  lemma {:induction false} CostForm(lots: seq<Lot>, d: Direction, p: real, pv: int)
    requires forall i :: 0 <= i < |lots| ==> lots[i].direction == d
    ensures Value(lots, p, pv) == Signed(d, 1) as real * (p * Total(lots) as real - Cost(lots)) * pv as real
  {
    if lots != [] {
      CostForm(lots[1..], d, p, pv);
      var q, rest := lots[0].quantity as real, p * Total(lots[1..]) as real - Cost(lots[1..]);
      var head := p * q - lots[0].price * q;
      assert p * Total(lots) as real == p * q + p * Total(lots[1..]) as real;
      assert p * Total(lots) as real - Cost(lots) == head + rest;
      assert Signed(d, lots[0].quantity) as real * (p - lots[0].price) == Signed(d, 1) as real * head;
    }
  }

  // ---------------------------------------------------------------- one fill

  lemma GainAdds(a: int, b: int, from: real, to: real, pv: int)
    ensures Gain(a + b, from, to, pv) == Gain(a, from, to, pv) + Gain(b, from, to, pv)
  {
  }

  lemma ShrinkHeadTotals(lots: seq<Lot>, closed: nat, p: real, pv: int)
    requires lots != [] && closed <= lots[0].quantity
    ensures Net(ShrinkHead(lots, closed)) == Net(lots) - Signed(lots[0].direction, closed)
    ensures Total(ShrinkHead(lots, closed)) == Total(lots) - closed
    ensures Value(ShrinkHead(lots, closed), p, pv)
            == Value(lots, p, pv) - Gain(Signed(lots[0].direction, closed), lots[0].price, p, pv)
  {
    if closed < lots[0].quantity {
      var rest := lots[0].(quantity := lots[0].quantity - closed);
      assert ([rest] + lots[1..])[1..] == lots[1..];
      GainAdds(Signed(rest.direction, rest.quantity), Signed(rest.direction, closed), rest.price, p, pv);
    }
  }

  /** A fill moves the net position by exactly its signed size. */
  lemma {:induction false} ApplyNet(l: Ledger, action: Direction, q: nat, price: real, pv: int)
    ensures Net(Apply(l, action, q, price, pv).lots) == Net(l.lots) + Signed(action, q)
    decreases q
  {
    if Blocked(l.lots, action, q) {
      ShrinkHeadTotals(l.lots, Closed(l.lots, q), 0.0, 1);
      ApplyNet(CloseHead(l, q, price, pv), action, q - Closed(l.lots, q), price, pv);
    } else if q > 0 {
      AppendLot(l.lots, Lot(action, q, price), 0.0, 1);
    }
  }

  /** Lots never hold both directions at once. */
  lemma {:induction false} ApplyOneSided(l: Ledger, action: Direction, q: nat, price: real, pv: int)
    requires OneSided(l.lots)
    ensures OneSided(Apply(l, action, q, price, pv).lots)
    decreases q
  {
    if Blocked(l.lots, action, q) {
      ApplyOneSided(CloseHead(l, q, price, pv), action, q - Closed(l.lots, q), price, pv);
    }
  }

  /** Realized plus unrealized profit at mark price p. */
  function Equity(l: Ledger, pv: int, p: real): real {
    l.realized + Value(l.lots, p, pv)
  }

  /**
    Mark-to-market step: at every mark price, realized plus unrealized profit moves by the cash flow of
    the fill alone, however the lots happen to be consumed.
   */
  lemma {:induction false} ApplyMarkToMarket(l: Ledger, action: Direction, q: nat, price: real, pv: int, p: real)
    ensures Equity(Apply(l, action, q, price, pv), pv, p)
            == Equity(l, pv, p) + Gain(Signed(action, q), price, p, pv)
    decreases q
  {
    if Blocked(l.lots, action, q) {
      var closed := Closed(l.lots, q);
      CloseHeadEquity(l, q, price, pv, p);
      ApplyMarkToMarket(CloseHead(l, q, price, pv), action, q - closed, price, pv, p);
      GainAdds(Signed(action, q - closed), Signed(action, closed), price, p, pv);
    } else if q > 0 {
      AppendLot(l.lots, Lot(action, q, price), p, pv);
    } else {
      assert Gain(0, price, p, pv) == 0.0;
    }
  }

  lemma CloseHeadEquity(l: Ledger, q: nat, price: real, pv: int, p: real)
    requires l.lots != []
    ensures Equity(CloseHead(l, q, price, pv), pv, p)
            == Equity(l, pv, p) + Gain(Signed(l.lots[0].direction.Opposite(), Closed(l.lots, q)), price, p, pv)
  {
  }

  /** A fill opens exposure exactly by the part that exceeds the opposite position it meets. */
  lemma {:induction false} ResidualMeaning(lots: seq<Lot>, action: Direction, q: nat)
    requires OneSided(lots)
    ensures Residual(lots, action, q)
            == if lots != [] && lots[0].direction != action then Max(0, q - Total(lots)) else q
    decreases q
  {
    TotalPositive(lots);
    if Blocked(lots, action, q) {
      ShrinkHeadTotals(lots, Closed(lots, q), 0.0, 1);
      ResidualMeaning(ShrinkHead(lots, Closed(lots, q)), action, q - Closed(lots, q));
    }
  }

  // ---------------------------------------------------------------- histories of fills

  /** The ledger reached from flat by a history of fills, in order. */
  function Replay(fills: seq<FillEvent>, pv: int): Ledger {
    if fills == [] then Ledger([], 0.0)
    else
      var f := fills[|fills| - 1];
      Apply(Replay(fills[..|fills| - 1], pv), f.action, f.quantity, f.price, pv)
  }

  function NetFlow(fills: seq<FillEvent>): int {
    if fills == [] then 0
    else
      var f := fills[|fills| - 1];
      NetFlow(fills[..|fills| - 1]) + Signed(f.action, f.quantity)
  }

  /** Sum of signed size times distance from the fill price to the mark. */
  function CashFlow(fills: seq<FillEvent>, p: real, pv: int): real {
    if fills == [] then 0.0
    else
      var f := fills[|fills| - 1];
      CashFlow(fills[..|fills| - 1], p, pv) + Gain(Signed(f.action, f.quantity), f.price, p, pv)
  }

  /** The mark-to-market identity over every fill history and every mark price. */
  lemma {:induction false} MarkToMarket(fills: seq<FillEvent>, pv: int, p: real)
    ensures Equity(Replay(fills, pv), pv, p) == CashFlow(fills, p, pv)
    ensures Net(Replay(fills, pv).lots) == NetFlow(fills)
    ensures OneSided(Replay(fills, pv).lots)
  {
    if fills != [] {
      var f, before := fills[|fills| - 1], fills[..|fills| - 1];
      MarkToMarket(before, pv, p);
      ApplyMarkToMarket(Replay(before, pv), f.action, f.quantity, f.price, pv, p);
      ApplyNet(Replay(before, pv), f.action, f.quantity, f.price, pv);
      ApplyOneSided(Replay(before, pv), f.action, f.quantity, f.price, pv);
    }
  }

  ghost function Without(fills: seq<FillEvent>, i: nat): seq<FillEvent>
    requires i < |fills|
  {
    fills[..i] + fills[i + 1..]
  }

  lemma {:induction false} FlowsWithout(fills: seq<FillEvent>, i: nat, p: real, pv: int)
    requires i < |fills|
    ensures NetFlow(fills) == NetFlow(Without(fills, i)) + Signed(fills[i].action, fills[i].quantity)
    ensures CashFlow(fills, p, pv)
            == CashFlow(Without(fills, i), p, pv)
              + Gain(Signed(fills[i].action, fills[i].quantity), fills[i].price, p, pv)
    decreases |fills|
  {
    var n := |fills| - 1;
    if i == n {
      assert Without(fills, i) == fills[..n];
    } else {
      var rest := Without(fills, i);
      FlowsWithout(fills[..n], i, p, pv);
      assert rest[..n - 1] == Without(fills[..n], i);
      assert rest[n - 1] == fills[n];
    }
  }

  lemma MultisetWithout(fills: seq<FillEvent>, i: nat)
    requires i < |fills|
    ensures multiset(Without(fills, i)) == multiset(fills) - multiset{fills[i]}
  {
    assert fills == fills[..i] + ([fills[i]] + fills[i + 1..]);
  }

  /** Neither the cash flow nor the net flow depends on the order in which the fills arrive. */
  lemma {:induction false} FlowsArePermutable(a: seq<FillEvent>, b: seq<FillEvent>, p: real, pv: int)
    requires multiset(a) == multiset(b)
    ensures NetFlow(a) == NetFlow(b) && CashFlow(a, p, pv) == CashFlow(b, p, pv)
    decreases |a|
  {
    if a == [] {
      assert |multiset(b)| == 0;
    } else {
      assert a[0] in multiset(b);
      var i :| 0 <= i < |b| && b[i] == a[0];
      FlowsWithout(a, 0, p, pv);
      FlowsWithout(b, i, p, pv);
      MultisetWithout(a, 0);
      MultisetWithout(b, i);
      FlowsArePermutable(Without(a, 0), Without(b, i), p, pv);
    }
  }

  /** Net position and total profit are the same whatever order the same fills are booked in. */
  lemma OrderIndependence(a: seq<FillEvent>, b: seq<FillEvent>, pv: int, p: real)
    requires multiset(a) == multiset(b)
    ensures Net(Replay(a, pv).lots) == Net(Replay(b, pv).lots)
    ensures Equity(Replay(a, pv), pv, p) == Equity(Replay(b, pv), pv, p)
  {
    MarkToMarket(a, pv, p);
    MarkToMarket(b, pv, p);
    FlowsArePermutable(a, b, p, pv);
  }

  /** One-sided lots are gone exactly when their net position is zero. */
  lemma FlatMeansNoLots(lots: seq<Lot>)
    requires OneSided(lots)
    ensures Net(lots) == 0 <==> lots == []
  {
    if lots != [] { NetIsSignedTotal(lots); }
  }

  /** Histories that end flat realize the same profit in every order. */
  lemma FlatHistoriesRealizeTheSame(a: seq<FillEvent>, b: seq<FillEvent>, pv: int)
    requires multiset(a) == multiset(b) && NetFlow(a) == 0
    ensures Replay(a, pv).lots == Replay(b, pv).lots == []
    ensures Replay(a, pv).realized == Replay(b, pv).realized
  {
    MarkToMarket(a, pv, 0.0);
    MarkToMarket(b, pv, 0.0);
    FlowsArePermutable(a, b, 0.0, pv);
    FlatMeansNoLots(Replay(a, pv).lots);
    FlatMeansNoLots(Replay(b, pv).lots);
  }

  lemma GainsDiffer(e: int, from: real, other: real, to: real, pv: int)
    requires e != 0 && pv != 0
    ensures Gain(e, from, to, pv) == Gain(e, other, to, pv) <==> from == other
  {
    assert Gain(e, from, to, pv) - Gain(e, other, to, pv) == (other - from) * (e as real * pv as real);
    if from != other {
      assert e as real * pv as real != 0.0;
    }
  }

  /**
    Histories that end holding contracts realize the same profit exactly when they hold them at the same
    average price.
   */
  lemma RealizedAgreesExactlyWhen(a: seq<FillEvent>, b: seq<FillEvent>, pv: int)
    requires multiset(a) == multiset(b) && NetFlow(a) != 0 && pv != 0
    ensures Replay(a, pv).lots != [] && Replay(b, pv).lots != []
    ensures Replay(a, pv).realized == Replay(b, pv).realized
            <==> Average(Replay(a, pv).lots) == Average(Replay(b, pv).lots)
  {
    var x, y := Replay(a, pv).lots, Replay(b, pv).lots;
    OrderIndependence(a, b, pv, 0.0);
    MarkToMarket(a, pv, 0.0);
    MarkToMarket(b, pv, 0.0);
    FlatMeansNoLots(x);
    FlatMeansNoLots(y);
    NetIsSignedTotal(x);
    NetIsSignedTotal(y);
    AverageValuation(x, 0.0, pv);
    AverageValuation(y, 0.0, pv);
    GainsDiffer(Net(x), Average(x), Average(y), 0.0, pv);
  }

  /** The split between realized and unrealized profit does depend on the order. */
  lemma RealizedDependsOnOrder() returns (a: seq<FillEvent>, b: seq<FillEvent>)
    ensures multiset(a) == multiset(b) && Replay(a, 10).realized != Replay(b, 10).realized
  {
    var x := FillEvent(Some("x"), 1, "TMFR1", Long, 100.0, 1);
    var y := FillEvent(Some("y"), 2, "TMFR1", Long, 200.0, 1);
    var z := FillEvent(Some("z"), 3, "TMFR1", Short, 300.0, 1);
    a, b := [x, y, z], [y, x, z];
    ThreeFills(x, y, z);
    ThreeFills(y, x, z);
  }

  lemma ThreeFills(x: FillEvent, y: FillEvent, z: FillEvent)
    requires x.action == y.action == Long && z.action == Short && x.quantity == y.quantity == z.quantity == 1
    ensures Replay([x, y, z], 10).realized == Gain(1, x.price, z.price, 10)
  {
    assert [x, y, z][..2] == [x, y] && [x, y][..1] == [x] && [x][..0] == [];
    var lx, ly := Lot(Long, 1, x.price), Lot(Long, 1, y.price);
    assert Replay([x], 10) == Ledger([lx], 0.0);
    assert Replay([x, y], 10) == Ledger([lx, ly], 0.0);
    var l := Ledger([lx, ly], 0.0);
    assert CloseHead(l, 1, z.price, 10) == Ledger([ly], Gain(1, x.price, z.price, 10));
    assert Replay([x, y, z], 10) == Apply(l, Short, 1, z.price, 10);
  }

  // ---------------------------------------------------------------- the unit-by-unit queue

  /** One contract in the queue, the finest possible lot. */
  datatype Unit = Unit(direction: Direction, price: real)

  datatype UnitLedger = UnitLedger(queue: seq<Unit>, realized: real)

  function Copies(u: Unit, n: nat): seq<Unit> {
    seq(n, _ => u)
  }

  function Units(lots: seq<Lot>): seq<Unit> {
    if lots == [] then [] else Copies(Unit(lots[0].direction, lots[0].price), lots[0].quantity) + Units(lots[1..])
  }

  function AsUnits(l: Ledger): UnitLedger {
    UnitLedger(Units(l.lots), l.realized)
  }

  /** Trading a single contract: match the head of the queue if it is opposite, else join the tail. */
  function TradeUnit(u: UnitLedger, action: Direction, price: real, pv: int): UnitLedger {
    if u.queue != [] && u.queue[0].direction != action then
      UnitLedger(u.queue[1..], u.realized + ClosePnl(Lot(u.queue[0].direction, 1, u.queue[0].price), 1, price, pv))
    else
      u.(queue := u.queue + [Unit(action, price)])
  }

  function TradeUnits(u: UnitLedger, action: Direction, n: nat, price: real, pv: int): UnitLedger
    decreases n
  {
    if n == 0 then u
    else TradeUnits(TradeUnit(u, action, price, pv), action, n - 1, price, pv)
  }

  lemma {:induction false} TradeUnitsSplit(u: UnitLedger, action: Direction, m: nat, n: nat, price: real, pv: int)
    ensures TradeUnits(u, action, m + n, price, pv)
            == TradeUnits(TradeUnits(u, action, m, price, pv), action, n, price, pv)
    decreases m
  {
    if m > 0 {
      TradeUnitsSplit(TradeUnit(u, action, price, pv), action, m - 1, n, price, pv);
    }
  }

  lemma {:induction false} JoinTail(u: UnitLedger, action: Direction, n: nat, price: real, pv: int)
    requires forall i :: 0 <= i < |u.queue| ==> u.queue[i].direction == action
    ensures TradeUnits(u, action, n, price, pv) == u.(queue := u.queue + Copies(Unit(action, price), n))
    decreases n
  {
    if n == 0 {
      assert u.queue + Copies(Unit(action, price), 0) == u.queue;
    } else {
      JoinTail(TradeUnit(u, action, price, pv), action, n - 1, price, pv);
      assert [Unit(action, price)] + Copies(Unit(action, price), n - 1) == Copies(Unit(action, price), n);
      assert (u.queue + [Unit(action, price)]) + Copies(Unit(action, price), n - 1)
          == u.queue + ([Unit(action, price)] + Copies(Unit(action, price), n - 1));
    }
  }

  lemma {:induction false} MatchHead(u: UnitLedger, action: Direction, lot: Lot, n: nat, rest: seq<Unit>, price: real,
                                     pv: int)
    requires lot.direction != action && u.queue == Copies(Unit(lot.direction, lot.price), n) + rest
    ensures TradeUnits(u, action, n, price, pv) == UnitLedger(rest, u.realized + ClosePnl(lot, n, price, pv))
    decreases n
  {
    var one := Unit(lot.direction, lot.price);
    if n == 0 {
      assert u.queue == rest;
    } else {
      assert u.queue[0] == one;
      assert u.queue[1..] == Copies(one, n - 1) + rest;
      MatchHead(TradeUnit(u, action, price, pv), action, lot, n - 1, rest, price, pv);
      GainAdds(Signed(lot.direction, n - 1), Signed(lot.direction, 1), lot.price, price, pv);
    }
  }

  lemma {:induction false} UnitsAppend(lots: seq<Lot>, lot: Lot)
    ensures Units(lots + [lot]) == Units(lots) + Copies(Unit(lot.direction, lot.price), lot.quantity)
  {
    if lots == [] {
      assert [lot][1..] == [] && lots + [lot] == [lot];
    } else {
      UnitsAppend(lots[1..], lot);
      assert (lots + [lot])[1..] == lots[1..] + [lot];
    }
  }

  lemma {:induction false} UnitsDirection(lots: seq<Lot>, d: Direction)
    requires forall i :: 0 <= i < |lots| ==> lots[i].direction == d
    ensures forall i :: 0 <= i < |Units(lots)| ==> Units(lots)[i].direction == d
  {
    if lots != [] {
      UnitsDirection(lots[1..], d);
    }
  }

  lemma UnitsShrink(lots: seq<Lot>, closed: nat)
    requires lots != [] && closed <= lots[0].quantity
    ensures Units(lots) == Copies(Unit(lots[0].direction, lots[0].price), closed) + Units(ShrinkHead(lots, closed))
  {
  }

  /** The lot loop computes exactly what trading the fill one contract at a time would. */
  lemma {:induction false} ApplyRefinesUnits(l: Ledger, action: Direction, q: nat, price: real, pv: int)
    requires OneSided(l.lots)
    ensures AsUnits(Apply(l, action, q, price, pv)) == TradeUnits(AsUnits(l), action, q, price, pv)
    decreases q
  {
    if Blocked(l.lots, action, q) {
      var closed := Closed(l.lots, q);
      var after := CloseHead(l, q, price, pv);
      UnitsShrink(l.lots, closed);
      MatchHead(AsUnits(l), action, l.lots[0], closed, Units(after.lots), price, pv);
      TradeUnitsSplit(AsUnits(l), action, closed, q - closed, price, pv);
      ApplyRefinesUnits(after, action, q - closed, price, pv);
    } else if q > 0 {
      UnitsDirection(l.lots, action);
      JoinTail(AsUnits(l), action, q, price, pv);
      UnitsAppend(l.lots, Lot(action, q, price));
    }
  }

  /** Splitting a fill in two leaves the same contracts queued and the same profit realized. */
  lemma SplitFill(l: Ledger, action: Direction, q1: nat, q2: nat, price: real, pv: int)
    requires OneSided(l.lots)
    ensures AsUnits(Apply(l, action, q1 + q2, price, pv))
            == AsUnits(Apply(Apply(l, action, q1, price, pv), action, q2, price, pv))
  {
    ApplyRefinesUnits(l, action, q1 + q2, price, pv);
    ApplyRefinesUnits(l, action, q1, price, pv);
    ApplyOneSided(l, action, q1, price, pv);
    ApplyRefinesUnits(Apply(l, action, q1, price, pv), action, q2, price, pv);
    TradeUnitsSplit(AsUnits(l), action, q1, q2, price, pv);
  }
}
