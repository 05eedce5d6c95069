/**
  The risk limit, exactly: whatever happens after the last entry, the position stays within the limit if and
  only if on either side there is room for all that the entries at work can still fill; and so an entry is
  harmless exactly when there is room for it before it is sent.
 */
module RiskExact {
  import opened Domain
  import opened FifoLedger
  import opened MatchingEngine
  import opened GatewayHistory
  import opened PositionTracker
  import opened RiskManager
  import opened RiskBound
  import opened CloseEffects

  // ---------------------------------------------------------------- everything that may follow

  function After(cfg: Config, w: World, run: seq<RiskBound.Happening>): World
    decreases |run|
  {
    if run == [] then w else After(cfg, WorldStep(cfg, w, run[0]), run[1..])
  }

  /** No entry, and no other symbol. */
  predicate Closes(a: Action, symbol: string) {
    a.Place? ==> a.request.symbol == symbol && a.request.intent.CloseOnly()
  }

  ghost predicate WithoutEntries(run: seq<RiskBound.Happening>, symbol: string) {
    forall i :: 0 <= i < |run| && run[i].Do? ==> Closes(run[i].action, symbol)
  }

  /** Whatever follows, short of another entry, the position stays within the limit. */
  ghost predicate Stays(cfg: Config, limit: int, w: World, symbol: string) {
    forall run :: WithoutEntries(run, symbol) ==> Abs(NetOf(After(cfg, w, run).book, symbol)) <= limit
  }

  lemma {:induction false} FollowsAdmissibly(cfg: Config, l: Limits, w: World, run: seq<RiskBound.Happening>,
                                             symbol: string)
    requires WithoutEntries(run, symbol)
    ensures Reaches(cfg, l, w, run, After(cfg, w, run), symbol)
    decreases |run|
  {
    if run != [] { FollowsAdmissibly(cfg, l, WorldStep(cfg, w, run[0]), run[1..], symbol); }
  }

  /** There is room at the broker for all that the entries at work can still fill. */
  predicate Roomy(cfg: Config, l: Limits, b: Book, symbol: string) {
    AllRoomy(cfg, l, b.open, b.sequence, NetOf(b, symbol))
  }

  /** Room is enough: the trade count does not matter to the position. */
  lemma RoomSuffices(cfg: Config, l: Limits, w: World, symbol: string)
    requires Tracked(cfg, w.book, w.tracker, symbol) && Roomy(cfg, l, w.book, symbol)
    ensures Stays(cfg, l.maxPosition, w, symbol)
  {
    var wide := l.(maxTrades := w.tracker.tradeCount + Uncounted(w.book.open, w.tracker.counted, w.book.sequence) + 1);
    assert w.book.open - {} == w.book.open;
    assert RiskBound.Within(cfg, wide, w.book, w.tracker, symbol);
    forall run | WithoutEntries(run, symbol)
      ensures Abs(NetOf(After(cfg, w, run).book, symbol)) <= l.maxPosition
    {
      FollowsAdmissibly(cfg, wide, w, run, symbol);
      RunWithin(cfg, wide, w, run, After(cfg, w, run), symbol);
    }
  }

  // ---------------------------------------------------------------- runs of the broker alone

  ghost predicate OnlyCloses(actions: seq<Action>, symbol: string) {
    forall i :: 0 <= i < |actions| ==> Closes(actions[i], symbol)
  }

  function Exposure(b: Book, symbol: string, d: Direction): int {
    Signed(d, NetOf(b, symbol))
  }

  /** These requests, without another entry, bring the broker from b to so much exposure on side d. */
  ghost predicate Leads(cfg: Config, b: Book, actions: seq<Action>, symbol: string, d: Direction, exposure: int) {
    OnlyCloses(actions, symbol) && Exposure(Run(cfg, b, actions), symbol, d) == exposure
  }

  lemma FirstThen(cfg: Config, b: Book, a: Action, rest: seq<Action>, symbol: string, d: Direction, exposure: int)
    returns (all: seq<Action>)
    requires Closes(a, symbol) && Leads(cfg, Step(cfg, b, a), rest, symbol, d, exposure)
    ensures Leads(cfg, b, all, symbol, d, exposure)
  {
    all := [a] + rest;
    assert all[0] == a && all[1..] == rest;
  }

  const IDLE := Context(0, true, false, 0, 0.0, 0, None, None)

  function Lift(actions: seq<Action>): seq<RiskBound.Happening> {
    if actions == [] then [] else [Do(actions[0], IDLE)] + Lift(actions[1..])
  }

  lemma {:induction false} LiftedRuns(cfg: Config, w: World, actions: seq<Action>, symbol: string)
    requires OnlyCloses(actions, symbol)
    ensures WithoutEntries(Lift(actions), symbol) && After(cfg, w, Lift(actions)).book == Run(cfg, w.book, actions)
    decreases |actions|
  {
    if actions != [] {
      var next := WorldStep(cfg, w, Do(actions[0], IDLE));
      LiftedRuns(cfg, next, actions[1..], symbol);
      assert Lift(actions)[1..] == Lift(actions[1..]);
    }
  }

  // ---------------------------------------------------------------- ticks that fill everything on one side

  /** A tick at this price reaches the order, and the daily limits allow the trade. */
  predicate Touches(cfg: Config, limits: Option<(real, real)>, r: OrderRequest, price: real) {
    (r.priceType.LMT? ==> Crossed(r, price)) && MatchingEngine.Within(limits, OrderPrice(cfg, r, price))
  }

  predicate IsEntry(p: Pending, d: Direction) {
    p.request.intent.Entry? && p.request.action == d
  }

  ghost predicate AllTouched(cfg: Config, limits: Option<(real, real)>, open: map<nat, Pending>, d: Direction,
                             price: real) {
    forall id :: id in open && IsEntry(open[id], d) ==> Touches(cfg, limits, open[id].request, price)
  }

  /** Only entries on side d are open, and this price reaches them all. */
  ghost predicate OneSide(cfg: Config, b: Book, symbol: string, d: Direction, price: real) {
    && Steady(cfg, b) && OneSymbol(b.open, symbol) && AllTouched(cfg, b.limits, b.open, d, price)
    && forall id :: id in b.open ==> IsEntry(b.open[id], d)
  }

  /** Exposure on side d with all that can still be added to it. */
  function Potential(cfg: Config, b: Book, symbol: string, d: Direction): int {
    Exposure(b, symbol, d) + Load(cfg, b.open, d, b.sequence)
  }

  function OneTick(cfg: Config, p: Pending): (n: nat)
    ensures n <= p.remaining && (Reach(cfg, p.request.tif, p.remaining) > 0 ==> n > 0)
  {
    if p.request.tif.ROD? then Liquid(cfg, p.remaining) else Reach(cfg, p.request.tif, p.remaining)
  }

  /** A touched entry fills what one match allows, and what it can still fill shrinks by just that. */
  lemma TickDecision(cfg: Config, b: Book, p: Pending, d: Direction)
    requires IsEntry(p, d) && Touches(cfg, b.limits, p.request, b.latest)
    ensures var o, n := Decide(cfg, b, p, b.latest, false), OneTick(cfg, p);
            && !o.Rest? && (if o.Trade? then o.quantity else 0) == n
            && Share(cfg, p, d) - n
               == if o.Trade? && o.leftover.None? && n < p.remaining
                  then Share(cfg, p.(remaining := p.remaining - n, filled := p.filled + n), d) else 0
  {
  }

  /** One match keeps the potential, leaves every other order alone, and fills what the order can. */
  ghost predicate Fills(cfg: Config, b: Book, b': Book, id: nat, symbol: string, d: Direction)
    requires id in b.open
  {
    && OneSide(cfg, b', symbol, d, b.latest) && SameMarket(b, b') && b'.sequence == b.sequence
    && (forall k :: k in b.open && k != id ==> k in b'.open && b'.open[k] == b.open[k])
    && b'.open.Keys <= b.open.Keys
    && Potential(cfg, b', symbol, d) == Potential(cfg, b, symbol, d)
    && Exposure(b', symbol, d) == Exposure(b, symbol, d) + OneTick(cfg, b.open[id])
  }

  lemma TrimmedLoad(cfg: Config, b: Book, id: nat, o: Outcome, d: Direction)
    requires Steady(cfg, b) && id in b.open && IsEntry(b.open[id], d) && !o.Rest? && Sound(cfg, b, b.open[id], o)
    ensures var p := b.open[id];
            var n := if o.Trade? then o.quantity else 0;
            var left := if o.Trade? && o.leftover.None? && n < p.remaining
                        then Share(cfg, p.(remaining := p.remaining - n, filled := p.filled + n), d) else 0;
            var open' := if o.Trade? && o.leftover.None? then Trim(b.open, id, o.quantity) else b.open - {id};
            Load(cfg, open', d, b.sequence) == Load(cfg, b.open, d, b.sequence) - Share(cfg, p, d) + left
  {
    LoadWithout(cfg, b.open, d, b.sequence, id);
    if o.Trade? && o.leftover.None? && o.quantity < b.open[id].remaining {
      LoadWith(cfg, b.open, d, b.sequence, id, Trim(b.open, id, o.quantity)[id]);
    }
  }

  lemma MatchFills(cfg: Config, b: Book, id: nat, symbol: string, d: Direction)
    requires OneSide(cfg, b, symbol, d, b.latest) && id in b.open
    ensures Fills(cfg, b, MatchIfOpen(cfg, b, id), id, symbol, d)
  {
    var o := Decide(cfg, b, b.open[id], b.latest, false);
    DecideIsSound(cfg, b, b.open[id], b.latest, false);
    TickDecision(cfg, b, b.open[id], d);
    PerformEffect(cfg, b, id, o);
    PerformLeaves(cfg, b, id, o);
    TrimmedLoad(cfg, b, id, o, d);
    FillsFrom(cfg, b, id, o, symbol, d, MatchIfOpen(cfg, b, id));
  }

  lemma FillsFrom(cfg: Config, b: Book, id: nat, o: Outcome, symbol: string, d: Direction, b': Book)
    requires OneSide(cfg, b, symbol, d, b.latest) && id in b.open && Sound(cfg, b, b.open[id], o) && !o.Rest?
    requires Cached(b', cfg.pointValue) && SameMarket(b, b') && b'.sequence == b.sequence
    requires Exposure(b', symbol, d) == Exposure(b, symbol, d) + OneTick(cfg, b.open[id])
    requires b'.open == if o.Trade? && o.leftover.None? then Trim(b.open, id, o.quantity) else b.open - {id}
    requires Load(cfg, b'.open, d, b.sequence) == Load(cfg, b.open, d, b.sequence) - OneTick(cfg, b.open[id])
    ensures Fills(cfg, b, b', id, symbol, d)
  {
  }

  lemma {:induction false} MatchFromFills(cfg: Config, b: Book, id: nat, symbol: string, d: Direction)
    requires OneSide(cfg, b, symbol, d, b.latest)
    ensures var b' := MatchFrom(cfg, b, id);
            && OneSide(cfg, b', symbol, d, b.latest) && SameMarket(b, b')
            && Potential(cfg, b', symbol, d) == Potential(cfg, b, symbol, d)
            && Exposure(b', symbol, d) >= Exposure(b, symbol, d)
    decreases b.sequence + 1 - id
  {
    if id <= b.sequence {
      if id in b.open { MatchFills(cfg, b, id, symbol, d); }
      MatchFromFills(cfg, MatchIfOpen(cfg, b, id), id + 1, symbol, d);
    }
  }

  lemma {:induction false} MatchFromGains(cfg: Config, b: Book, id: nat, k: nat, symbol: string, d: Direction)
    requires OneSide(cfg, b, symbol, d, b.latest) && id <= k && k in b.open && Share(cfg, b.open[k], d) > 0
    ensures Exposure(MatchFrom(cfg, b, id), symbol, d) > Exposure(b, symbol, d)
    decreases b.sequence + 1 - id
  {
    var next := MatchIfOpen(cfg, b, id);
    if id in b.open { MatchFills(cfg, b, id, symbol, d); }
    if id == k {
      MatchFromFills(cfg, next, id + 1, symbol, d);
    } else {
      MatchFromGains(cfg, next, id + 1, k, symbol, d);
    }
  }

  lemma {:induction false} SomeShare(cfg: Config, open: map<nat, Pending>, d: Direction, upto: nat) returns (k: nat)
    requires Load(cfg, open, d, upto) > 0
    ensures 1 <= k <= upto && k in open && Share(cfg, open[k], d) > 0
  {
    if upto in open && Share(cfg, open[upto], d) > 0 { k := upto; } else { k := SomeShare(cfg, open, d, upto - 1); }
  }

  /** A tick at a price that reaches all entries on the one side that works: something of them is filled. */
  lemma TickFills(cfg: Config, b: Book, symbol: string, d: Direction, price: real)
    requires OneSide(cfg, b, symbol, d, price) && Load(cfg, b.open, d, b.sequence) > 0
    ensures var b' := Step(cfg, b, Tick(price));
            && OneSide(cfg, b', symbol, d, price)
            && Potential(cfg, b', symbol, d) == Potential(cfg, b, symbol, d)
            && Exposure(b', symbol, d) > Exposure(b, symbol, d)
  {
    var b1 := SetLatest(cfg, b, price);
    var k := SomeShare(cfg, b.open, d, b.sequence);
    assert OneSide(cfg, b1, symbol, d, price);
    MatchFromFills(cfg, b1, 1, symbol, d);
    MatchFromGains(cfg, b1, 1, k, symbol, d);
  }

  /** Ticks alone make the entries fill all that they can still fill. */
  lemma {:induction false} FillUp(cfg: Config, b: Book, symbol: string, d: Direction, price: real)
    returns (actions: seq<Action>)
    requires OneSide(cfg, b, symbol, d, price)
    ensures Leads(cfg, b, actions, symbol, d, Potential(cfg, b, symbol, d))
    decreases Load(cfg, b.open, d, b.sequence)
  {
    if Load(cfg, b.open, d, b.sequence) == 0 {
      actions := [];
    } else {
      TickFills(cfg, b, symbol, d, price);
      var rest := FillUp(cfg, Step(cfg, b, Tick(price)), symbol, d, price);
      actions := FirstThen(cfg, b, Tick(price), rest, symbol, d, Potential(cfg, b, symbol, d));
    }
  }

  // ---------------------------------------------------------------- closes that come first

  /** The worst that can follow on side d: all that is held against it is closed, then everything there fills. */
  function Worst(cfg: Config, b: Book, symbol: string, d: Direction): int {
    Max(0, Exposure(b, symbol, d)) + Load(cfg, b.open, d, b.sequence)
  }

  function CloseOne(symbol: string, d: Direction, id: string): OrderRequest {
    Order(symbol, d, 1, None, MKP, IOC, Emergency, id, "")
  }

  ghost predicate Set(cfg: Config, b: Book, symbol: string, d: Direction, price: real) {
    OneSide(cfg, b, symbol, d, price) && b.connected && Marketable(cfg, b, CloseOne(symbol, d, ""))
  }

  /** One contract held against side d can be closed. */
  lemma CloseOneMore(cfg: Config, b: Book, symbol: string, d: Direction, price: real) returns (a: Action, b': Book)
    requires Set(cfg, b, symbol, d, price) && Exposure(b, symbol, d) < 0
    ensures Closes(a, symbol) && b' == Step(cfg, b, a)
    ensures Set(cfg, b', symbol, d, price) && Exposure(b', symbol, d) == Exposure(b, symbol, d) + 1
    ensures Worst(cfg, b', symbol, d) == Worst(cfg, b, symbol, d)
  {
    var n := LongerThanAll(b.seen);
    var r := CloseOne(symbol, d, seq(n, _ => 'x'));
    a, b' := Place(r, false), PlaceOrder(cfg, b, r, false);
    CachedNet(b, cfg.pointValue, symbol);
    CloseOrderEffect(cfg, b, r);
    ClosedMore(cfg, b, symbol, d, price, r, b');
  }

  lemma ClosedMore(cfg: Config, b: Book, symbol: string, d: Direction, price: real, r: OrderRequest, b': Book)
    requires Set(cfg, b, symbol, d, price) && Exposure(b, symbol, d) < 0
    requires r == CloseOne(symbol, d, r.clientId) && ClosedBy(cfg, b, r, b') && Closable(b, r) > 0
    ensures Set(cfg, b', symbol, d, price) && Exposure(b', symbol, d) == Exposure(b, symbol, d) + 1
    ensures Worst(cfg, b', symbol, d) == Worst(cfg, b, symbol, d)
  {
    assert Marketable(cfg, b, r);
    assert b.sequence + 1 !in b.open;
  }

  lemma {:induction false} CloseThenFill(cfg: Config, b: Book, symbol: string, d: Direction, price: real)
    returns (actions: seq<Action>)
    requires Set(cfg, b, symbol, d, price)
    ensures Leads(cfg, b, actions, symbol, d, Worst(cfg, b, symbol, d))
    decreases Max(0, -Exposure(b, symbol, d))
  {
    if Exposure(b, symbol, d) >= 0 {
      actions := FillUp(cfg, b, symbol, d, price);
    } else {
      var a, b' := CloseOneMore(cfg, b, symbol, d, price);
      var rest := CloseThenFill(cfg, b', symbol, d, price);
      actions := FirstThen(cfg, b, a, rest, symbol, d, Worst(cfg, b, symbol, d));
    }
  }

  // ---------------------------------------------------------------- clearing the way

  ghost predicate SetButForOthers(cfg: Config, b: Book, symbol: string, d: Direction, price: real) {
    && Steady(cfg, b) && OneSymbol(b.open, symbol) && AllTouched(cfg, b.limits, b.open, d, price)
    && b.connected && Marketable(cfg, b, CloseOne(symbol, d, ""))
  }

  lemma {:induction false} CancelOthersFirst(cfg: Config, b: Book, symbol: string, d: Direction, price: real)
    returns (actions: seq<Action>)
    requires SetButForOthers(cfg, b, symbol, d, price)
    ensures Leads(cfg, b, actions, symbol, d, Worst(cfg, b, symbol, d))
    decreases |b.open|
  {
    if j :| j in b.open && !IsEntry(b.open[j], d) {
      var b' := CancelOrder(b, j);
      assert |b'.open.Keys| < |b.open.Keys| by { assert b'.open.Keys == b.open.Keys - {j}; }
      LoadWithout(cfg, b.open, d, b.sequence, j);
      var rest := CancelOthersFirst(cfg, b', symbol, d, price);
      actions := FirstThen(cfg, b, Cancel(j), rest, symbol, d, Worst(cfg, b, symbol, d));
    } else {
      actions := CloseThenFill(cfg, b, symbol, d, price);
    }
  }

  /** Bounds on the market and on the limit prices of all open orders. */
  lemma {:induction false} PriceBounds(open: map<nat, Pending>, market: real, upto: nat) returns (low: real, high: real)
    ensures low <= market <= high
    ensures forall id :: id in open && 1 <= id <= upto && open[id].request.priceType.LMT? ==>
              low <= open[id].request.price.value <= high
  {
    if upto == 0 {
      low, high := market, market;
    } else {
      low, high := PriceBounds(open, market, upto - 1);
      if upto in open && open[upto].request.priceType.LMT? {
        var p := open[upto].request.price.value;
        low, high := if p < low then p else low, if p > high then p else high;
      }
    }
  }

  /** Daily limits that contain these bounds and the slippage reach every entry on side d at its end of the bounds. */
  lemma WideEnough(cfg: Config, r: OrderRequest, low: real, high: real, d: Direction, slip: real)
    requires low <= high && slip == Abs(cfg.slippageTicks * cfg.tickSize) as real
    requires r.action == d && (r.priceType.LMT? ==> low <= r.price.value <= high)
    ensures Touches(cfg, Some((low - slip, high + slip)), r, if d.Long? then low else high)
  {
    SlipBounds(cfg, d, slip);
  }

  lemma SlipBounds(cfg: Config, d: Direction, slip: real)
    requires slip == Abs(cfg.slippageTicks * cfg.tickSize) as real
    ensures -slip <= (d.Sign() * cfg.slippageTicks * cfg.tickSize) as real <= slip
  {
    assert Long.Sign() * cfg.slippageTicks * cfg.tickSize == cfg.slippageTicks * cfg.tickSize;
    assert Short.Sign() * cfg.slippageTicks * cfg.tickSize == -(cfg.slippageTicks * cfg.tickSize);
  }

  /** From any book: widen the daily limits, connect, cancel the other orders, close, and tick. */
  lemma WorstIsReached(cfg: Config, b: Book, symbol: string, d: Direction) returns (actions: seq<Action>)
    requires Steady(cfg, b) && OneSymbol(b.open, symbol)
    ensures Leads(cfg, b, actions, symbol, d, Worst(cfg, b, symbol, d))
  {
    var low, high := PriceBounds(b.open, b.latest, b.sequence);
    var slip, price := Abs(cfg.slippageTicks * cfg.tickSize) as real, if d.Long? then low else high;
    var limits := (low - slip, high + slip);
    var b1 := Step(cfg, b, SetLimits(limits.0, limits.1));
    var b2 := Step(cfg, b1, Connect);
    forall id | id in b2.open && IsEntry(b2.open[id], d)
      ensures Touches(cfg, Some(limits), b2.open[id].request, price)
    {
      WideEnough(cfg, b2.open[id].request, low, high, d, slip);
    }
    SlipBounds(cfg, d, slip);
    assert SetButForOthers(cfg, b2, symbol, d, price);
    var rest := CancelOthersFirst(cfg, b2, symbol, d, price);
    var more := FirstThen(cfg, b1, Connect, rest, symbol, d, Worst(cfg, b, symbol, d));
    actions := FirstThen(cfg, b, SetLimits(limits.0, limits.1), more, symbol, d, Worst(cfg, b, symbol, d));
  }

  // ---------------------------------------------------------------- exactly when the limit holds

  lemma RoomIsNeeded(cfg: Config, l: Limits, w: World, symbol: string, d: Direction)
    requires Tracked(cfg, w.book, w.tracker, symbol) && Stays(cfg, l.maxPosition, w, symbol)
    ensures RoomFor(Exposure(w.book, symbol, d), Load(cfg, w.book.open, d, w.book.sequence), l.maxPosition)
  {
    assert After(cfg, w, []) == w && WithoutEntries([], symbol);
    var actions := WorstIsReached(cfg, w.book, symbol, d);
    LiftedRuns(cfg, w, actions, symbol);
    assert Abs(NetOf(After(cfg, w, Lift(actions)).book, symbol)) <= l.maxPosition;
  }

  /**
    From any world in which broker and tracker agree: whatever fills, closes, cancels, ticks, limit changes and
    new days follow, the position stays within the limit if and only if on either side there is room for what
    is held and all that the entries at work can still fill.
   */
  lemma StaysExactlyWhen(cfg: Config, l: Limits, w: World, symbol: string)
    requires Tracked(cfg, w.book, w.tracker, symbol)
    ensures Stays(cfg, l.maxPosition, w, symbol) <==> Roomy(cfg, l, w.book, symbol)
  {
    if Stays(cfg, l.maxPosition, w, symbol) {
      RoomIsNeeded(cfg, l, w, symbol, Long);
      RoomIsNeeded(cfg, l, w, symbol, Short);
    } else if Roomy(cfg, l, w.book, symbol) {
      RoomSuffices(cfg, l, w, symbol);
    }
  }

  /** Broker and tracker still agree once an entry has been sent, whether or not there is room for it. */
  lemma EntryArrives(cfg: Config, l: Limits, w: World, h: RiskBound.Happening, symbol: string)
    requires Tracked(cfg, w.book, w.tracker, symbol)
    requires h.Do? && h.action.Place? && h.action.request.intent.Entry? && h.action.request.symbol == symbol
    ensures var w' := WorldStep(cfg, w, h); Tracked(cfg, w'.book, w'.tracker, symbol)
  {
    var r, b := h.action.request, w.book;
    var wide := l.(
      maxTrades := w.tracker.tradeCount + Uncounted(b.open, w.tracker.counted, b.sequence) + 1,
      maxPosition := Abs(NetOf(b, symbol)) + r.quantity + Load(cfg, b.open, Long, b.sequence)
                     + Load(cfg, b.open, Short, b.sequence));
    assert b.open - {} == b.open;
    assert RiskBound.Within(cfg, wide, b, w.tracker, symbol) && Enterable(cfg, wide, b, r, w.tracker);
    PlaceKept(cfg, wide, b, r, h.action.rejected, symbol, w.tracker);
  }

  /**
    Where the position stays within the limit, it still does once an entry has been sent and taken if and only
    if there was room for the entry before.
   */
  lemma EntryIsSafeExactlyWhen(cfg: Config, l: Limits, w: World, h: RiskBound.Happening, symbol: string)
    requires Tracked(cfg, w.book, w.tracker, symbol) && Stays(cfg, l.maxPosition, w, symbol)
    requires h.Do? && h.action.Place? && h.action.request.intent.Entry? && h.action.request.symbol == symbol
    requires !h.action.rejected
    ensures Stays(cfg, l.maxPosition, WorldStep(cfg, w, h), symbol) <==> HasRoom(cfg, l, w.book, h.action.request)
  {
    var r, w' := h.action.request, WorldStep(cfg, w, h);
    EntryArrives(cfg, l, w, h, symbol);
    StaysExactlyWhen(cfg, l, w, symbol);
    StaysExactlyWhen(cfg, l, w', symbol);
    if Accepts(w.book, r) {
      EntryLands(cfg, w.book, r);
      LandedRoomy(cfg, l, w.book, r, w'.book);
    }
  }
}
