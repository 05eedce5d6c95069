/**
  Why `RiskBound.LimitsHold` asks entries to leave room: without that clause runs of the paper broker from its
  start exceed the position limit, by a resting reversal or by two entries at work, whatever the limits are.
 */
module RiskEscape {
  import opened Domain
  import opened FifoLedger
  import opened MatchingEngine
  import opened GatewayHistory
  import Tracker = PositionTracker
  import opened RiskManager
  import opened RiskBound
  import opened RiskExact
  import opened CloseEffects

  /** A run of which the risk check approves every entry. */
  ghost predicate ReachesChecked(cfg: Config, l: Limits, w: World, run: seq<Happening>, w': World, symbol: string)
    decreases |run|
  {
    if run == [] then w == w'
    else Checked(l, w, run[0], symbol) && ReachesChecked(cfg, l, WorldStep(cfg, w, run[0]), run[1..], w', symbol)
  }

  lemma OneMore(cfg: Config, l: Limits, w: World, h: Happening, rest: seq<Happening>, w': World, symbol: string)
    requires Checked(l, w, h, symbol) && ReachesChecked(cfg, l, WorldStep(cfg, w, h), rest, w', symbol)
    ensures ReachesChecked(cfg, l, w, [h] + rest, w', symbol)
  {
    assert ([h] + rest)[1..] == rest;
  }

  lemma {:induction false} FollowsChecked(cfg: Config, l: Limits, w: World, run: seq<Happening>, symbol: string)
    requires WithoutEntries(run, symbol)
    ensures ReachesChecked(cfg, l, w, run, After(cfg, w, run), symbol)
    decreases |run|
  {
    if run != [] { FollowsChecked(cfg, l, WorldStep(cfg, w, run[0]), run[1..], symbol); }
  }

  const SYMBOL := "TMFR1"

  function ShortEntry(n: Quantity): OrderRequest {
    Order(SYMBOL, Short, n, None, MKP, IOC, Entry, "a", "")
  }

  /** A limit order to buy below the market, good for the day. */
  function Bid(n: Quantity, id: string): OrderRequest {
    Order(SYMBOL, Long, n, Some(90.0), LMT, ROD, Entry, id, "")
  }

  /** A snapshot in which nothing but position and count could hold an entry back. */
  function Snapshot(l: Limits, w: World): Context {
    Context(0, true, false, Net(w.tracker.ledger.lots), 1.0 - l.maxDailyLoss, w.tracker.tradeCount, None, None)
  }

  function Send(l: Limits, w: World, r: OrderRequest): Happening {
    Do(Place(r, false), Snapshot(l, w))
  }

  lemma SnapshotApproves(l: Limits, w: World, r: OrderRequest)
    requires r.intent.Entry? && r.symbol == SYMBOL && w.tracker.tradeCount < l.maxTrades
    requires Abs(Net(w.tracker.ledger.lots) + Signed(r.action, r.quantity)) <= l.maxPosition
    ensures Checked(l, w, Send(l, w, r), SYMBOL)
  {
  }

  /** The run connects, sends these two entries, and no other. */
  ghost predicate Sends(run: seq<Happening>, first: OrderRequest, second: OrderRequest) {
    && |run| > 2 && run[0].Do? && run[0].action == Connect
    && run[1].Do? && run[1].action == Place(first, false)
    && run[2].Do? && run[2].action == Place(second, false)
    && WithoutEntries(run[3..], SYMBOL)
  }

  predicate Quoted(b: Book) {
    b.connected && b.limits.None? && b.latest == 100.0
  }

  /** A bid is taken and rests; all of it can still fill. */
  lemma BidRests(cfg: Config, l: Limits, w: World, n: Quantity, id: string)
    requires Tracked(cfg, w.book, w.tracker, SYMBOL) && Quoted(w.book) && id !in w.book.seen
    ensures var w' := WorldStep(cfg, w, Send(l, w, Bid(n, id)));
            && Tracked(cfg, w'.book, w'.tracker, SYMBOL) && Quoted(w'.book)
            && w'.book.seen == w.book.seen + {id} && NetOf(w'.book, SYMBOL) == NetOf(w.book, SYMBOL)
            && Load(cfg, w'.book.open, Long, w'.book.sequence) == Load(cfg, w.book.open, Long, w.book.sequence) + n
  {
    var r, w' := Bid(n, id), WorldStep(cfg, w, Send(l, w, Bid(n, id)));
    EntryLands(cfg, w.book, r);
    WholeLater(cfg, w.book, r);
    LandedLoad(cfg, w.book, r, w'.book, Long);
    EntryArrives(cfg, l, w, Send(l, w, r), SYMBOL);
  }

  lemma WholeAtOnce(cfg: Config, b: Book, r: OrderRequest)
    requires cfg.maxFill.None? && b.limits.None? && r.priceType.MKP? && r.tif.IOC?
    ensures AtOnce(cfg, b, r) == r.quantity && Lasting(cfg, b, r) == 0
  {
  }

  lemma WholeLater(cfg: Config, b: Book, r: OrderRequest)
    requires r.priceType.LMT? && r.tif.ROD? && !Crossed(r, b.latest)
    ensures AtOnce(cfg, b, r) == 0 && Lasting(cfg, b, r) == r.quantity
  {
  }

  /** From any world without a position on the long side, entries at work there can all be made to fill. */
  lemma FromLoad(cfg: Config, l: Limits, w: World) returns (run: seq<Happening>, end: World)
    requires Tracked(cfg, w.book, w.tracker, SYMBOL) && NetOf(w.book, SYMBOL) <= 0
    ensures ReachesChecked(cfg, l, w, run, end, SYMBOL) && WithoutEntries(run, SYMBOL)
    ensures NetOf(end.book, SYMBOL) == Load(cfg, w.book.open, Long, w.book.sequence)
  {
    var actions := WorstIsReached(cfg, w.book, SYMBOL, Long);
    LiftedRuns(cfg, w, actions, SYMBOL);
    run, end := Lift(actions), After(cfg, w, Lift(actions));
    FollowsChecked(cfg, l, w, run, SYMBOL);
  }

  // ---------------------------------------------------------------- a reversal

  lemma ShortLands(cfg: Config, b: Book, n: Quantity)
    requires cfg.maxFill.None? && b == NewBook(100.0).(connected := true)
    ensures var b' := PlaceOrder(cfg, b, ShortEntry(n), false);
            && Quoted(b') && b'.seen == {"a"} && b'.open == map[] && Signed(Short, NetOf(b', SYMBOL)) == n
  {
    EntryLands(cfg, b, ShortEntry(n));
    WholeAtOnce(cfg, b, ShortEntry(n));
  }

  lemma ShortFits(cfg: Config, l: Limits, w: World)
    requires cfg.maxFill.None? && w == World(NewBook(100.0).(connected := true), Tracker.EMPTY)
    ensures RiskBound.Within(cfg, l, w.book, w.tracker, SYMBOL)
    ensures Enterable(cfg, l, w.book, ShortEntry(l.maxPosition), w.tracker)
  {
    WholeAtOnce(cfg, w.book, ShortEntry(l.maxPosition));
    assert w.book.open - {} == w.book.open;
  }

  /** The world after the short entry, which every limit allows. */
  lemma AfterShort(cfg: Config, l: Limits, w1: World, w2: World)
    requires cfg.maxFill.None? && w1 == World(NewBook(100.0).(connected := true), Tracker.EMPTY)
    requires w2 == WorldStep(cfg, w1, Send(l, w1, ShortEntry(l.maxPosition)))
    ensures Checked(l, w1, Send(l, w1, ShortEntry(l.maxPosition)), SYMBOL)
    ensures Tracked(cfg, w2.book, w2.tracker, SYMBOL) && w2.tracker.tradeCount <= 1
    ensures Quoted(w2.book) && w2.book.seen == {"a"} && w2.book.open == map[]
    ensures Signed(Short, NetOf(w2.book, SYMBOL)) == l.maxPosition
  {
    var once := l.(maxTrades := 1);
    ShortLands(cfg, w1.book, l.maxPosition);
    SnapshotApproves(l, w1, ShortEntry(l.maxPosition));
    SnapshotApproves(once, w1, ShortEntry(l.maxPosition));
    ShortFits(cfg, once, w1);
    StepWithin(cfg, once, w1, Send(l, w1, ShortEntry(l.maxPosition)), SYMBOL);
  }

  lemma FromShort(cfg: Config, l: Limits, w: World) returns (run: seq<Happening>, end: World)
    requires l.maxTrades > 1 && Tracked(cfg, w.book, w.tracker, SYMBOL) && w.tracker.tradeCount <= 1
    requires Quoted(w.book) && w.book.seen == {"a"} && w.book.open == map[]
    requires Signed(Short, NetOf(w.book, SYMBOL)) == l.maxPosition
    ensures ReachesChecked(cfg, l, w, run, end, SYMBOL) && NetOf(end.book, SYMBOL) == 2 * l.maxPosition
    ensures run != [] && run[0] == Send(l, w, Bid(2 * l.maxPosition, "b")) && WithoutEntries(run[1..], SYMBOL)
  {
    var h := Send(l, w, Bid(2 * l.maxPosition, "b"));
    SnapshotApproves(l, w, Bid(2 * l.maxPosition, "b"));
    BidRests(cfg, l, w, 2 * l.maxPosition, "b");
    NothingAtWork(cfg, w.book.open, Long, {}, w.book.sequence);
    var rest;
    rest, end := FromLoad(cfg, l, WorldStep(cfg, w, h));
    OneMore(cfg, l, w, h, rest, end, SYMBOL);
    run := [h] + rest;
    assert run[1..] == rest;
  }

  /**
    For all limits that allow two trades: the check approves every entry of this run, whose first entry is
    within the limit; its second, a resting reversal, is the last, and the run ends at twice the position limit.
   */
  lemma LimitEscapedByReversal(cfg: Config, l: Limits) returns (run: seq<Happening>, w: World)
    requires cfg.maxFill.None? && l.maxTrades > 1
    ensures ReachesChecked(cfg, l, World(NewBook(100.0), Tracker.EMPTY), run, w, SYMBOL)
    ensures Abs(NetOf(w.book, SYMBOL)) == 2 * l.maxPosition > l.maxPosition
    ensures Sends(run, ShortEntry(l.maxPosition), Bid(2 * l.maxPosition, "b"))
  {
    var start := World(NewBook(100.0), Tracker.EMPTY);
    var connect := Do(Connect, Snapshot(l, start));
    var w1 := WorldStep(cfg, start, connect);
    var h := Send(l, w1, ShortEntry(l.maxPosition));
    AfterShort(cfg, l, w1, WorldStep(cfg, w1, h));
    var rest;
    rest, w := FromShort(cfg, l, WorldStep(cfg, w1, h));
    OneMore(cfg, l, w1, h, rest, w, SYMBOL);
    OneMore(cfg, l, start, connect, [h] + rest, w, SYMBOL);
    run := [connect] + ([h] + rest);
    assert run[3..] == rest[1..];
  }

  // ---------------------------------------------------------------- two entries at work

  lemma FromOneBid(cfg: Config, l: Limits, w: World) returns (run: seq<Happening>, end: World)
    requires Tracked(cfg, w.book, w.tracker, SYMBOL) && Quoted(w.book) && w.book.seen == {"a"}
    requires NetOf(w.book, SYMBOL) == 0 && w.tracker.tradeCount == 0
    requires Load(cfg, w.book.open, Long, w.book.sequence) == l.maxPosition
    ensures ReachesChecked(cfg, l, w, run, end, SYMBOL) && NetOf(end.book, SYMBOL) == 2 * l.maxPosition
    ensures run != [] && run[0] == Send(l, w, Bid(l.maxPosition, "b")) && WithoutEntries(run[1..], SYMBOL)
  {
    var h := Send(l, w, Bid(l.maxPosition, "b"));
    SnapshotApproves(l, w, Bid(l.maxPosition, "b"));
    BidRests(cfg, l, w, l.maxPosition, "b");
    var rest;
    rest, end := FromLoad(cfg, l, WorldStep(cfg, w, h));
    OneMore(cfg, l, w, h, rest, end, SYMBOL);
    run := [h] + rest;
    assert run[1..] == rest;
  }

  /** The first bid leaves the tracker as it was. */
  lemma AfterBid(cfg: Config, l: Limits, w1: World, w2: World)
    requires w1 == World(NewBook(100.0).(connected := true), Tracker.EMPTY)
    requires w2 == WorldStep(cfg, w1, Send(l, w1, Bid(l.maxPosition, "a")))
    ensures Tracked(cfg, w2.book, w2.tracker, SYMBOL) && Quoted(w2.book) && w2.book.seen == {"a"}
    ensures NetOf(w2.book, SYMBOL) == 0 && w2.tracker.tradeCount == 0
    ensures Load(cfg, w2.book.open, Long, w2.book.sequence) == l.maxPosition
  {
    BidRests(cfg, l, w1, l.maxPosition, "a");
    BidUncounted(cfg, w1.book, Bid(l.maxPosition, "a"), w1.tracker);
  }

  lemma BidUncounted(cfg: Config, b: Book, r: OrderRequest, t: Tracker.TrackerState)
    requires Quoted(b) && b.log == Start && r.priceType.LMT? && r.tif.ROD? && !Crossed(r, b.latest)
             && r.clientId !in b.seen
    ensures Track(t, b.log, PlaceOrder(cfg, b, r, false).log, cfg.pointValue) == t
  {
  }

  /**
    For all limits: two entries, each within the limit, the second approved while the first rests, and the run
    ends at twice the position limit.
   */
  lemma LimitEscapedByTwoEntries(cfg: Config, l: Limits) returns (run: seq<Happening>, w: World)
    ensures ReachesChecked(cfg, l, World(NewBook(100.0), Tracker.EMPTY), run, w, SYMBOL)
    ensures Abs(NetOf(w.book, SYMBOL)) == 2 * l.maxPosition > l.maxPosition
    ensures Sends(run, Bid(l.maxPosition, "a"), Bid(l.maxPosition, "b"))
  {
    var start := World(NewBook(100.0), Tracker.EMPTY);
    var connect := Do(Connect, Snapshot(l, start));
    var w1 := WorldStep(cfg, start, connect);
    var h := Send(l, w1, Bid(l.maxPosition, "a"));
    AfterBid(cfg, l, w1, WorldStep(cfg, w1, h));
    var rest;
    rest, w := FromOneBid(cfg, l, WorldStep(cfg, w1, h));
    OneMore(cfg, l, w1, h, rest, w, SYMBOL);
    OneMore(cfg, l, start, connect, [h] + rest, w, SYMBOL);
    run := [connect] + ([h] + rest);
    assert run[3..] == rest[1..];
  }

  // ---------------------------------------------------------------- the trade count

  /** Two bids for one contract each rest, flat and uncounted. */
  ghost predicate TwoBids(cfg: Config, w: World) {
    && Tracked(cfg, w.book, w.tracker, SYMBOL) && w.book.limits.None? && w.book.sequence == 2
    && w.book.open == map[1 := Pending(Bid(1, "a"), 1, 1, 0), 2 := Pending(Bid(1, "b"), 2, 1, 0)]
    && w.tracker.ledger.lots == [] && w.tracker.tradeCount == 0 && w.tracker.counted == {}
  }

  /** A tick below its price fills a bid for one contract whole. */
  lemma BidFills(cfg: Config, b: Book, id: nat)
    requires id in b.open && b.latest == 80.0 && b.limits.None?
    requires b.open[id].remaining == 1 && b.open[id].request == Bid(1, b.open[id].request.clientId)
    ensures MatchIfOpen(cfg, b, id) == DoFill(cfg, b, id, 1, 90.0)
  {
    assert Liquid(cfg, 1) == 1;
  }

  /** A buy that meets no short lot opens exposure, so a new order counts. */
  lemma BuyCounts(t: Tracker.TrackerState, f: FillEvent, pv: int)
    requires f.action.Long? && f.quantity == 1 && (t.ledger.lots == [] || t.ledger.lots[0].direction.Long?)
    requires Tracker.KeyOf(f) !in t.counted
    ensures var t' := Tracker.BookFill(t, f, pv);
            && t'.tradeCount == t.tradeCount + 1 && t'.counted == t.counted + {Tracker.KeyOf(f)}
            && t'.ledger.lots == t.ledger.lots + [Lot(Long, 1, f.price)]
  {
  }

  function FilledBid(b: Book, id: nat): Event
    requires id in b.open
  {
    Event.Filled(b.open[id].request, id, 90.0, 1)
  }

  /** A tick at 80 fills both. */
  lemma TickFillsBoth(cfg: Config, b: Book, b1: Book, b2: Book)
    requires b.latest == 80.0 && b.limits.None? && b.sequence == 2
    requires b.open == map[1 := Pending(Bid(1, "a"), 1, 1, 0), 2 := Pending(Bid(1, "b"), 2, 1, 0)]
    requires b1 == DoFill(cfg, b, 1, 1, 90.0) && 2 in b1.open && b2 == DoFill(cfg, b1, 2, 1, 90.0)
    ensures MatchFrom(cfg, b, 1) == b2 && b2.log == Then(Then(b.log, FilledBid(b, 1)), FilledBid(b, 2))
  {
    FillFrame(cfg, b, 1, 1, 90.0);
    FillFrame(cfg, b1, 2, 1, 90.0);
    BidFills(cfg, b, 1);
    BidFills(cfg, b1, 2);
    NothingLeft(cfg, b2, 3);
    assert MatchFrom(cfg, b1, 2) == MatchFrom(cfg, b2, 3);
    assert MatchFrom(cfg, b, 1) == MatchFrom(cfg, b1, 2);
  }

  lemma BothFill(cfg: Config, w: World, ctx: Context)
    requires TwoBids(cfg, w)
    ensures WorldStep(cfg, w, Do(Tick(80.0), ctx)).tracker.tradeCount == 2
  {
    TickLogsBoth(cfg, w.book);
    BothCount(w.tracker, w.book.log, FilledBid(w.book, 1), FilledBid(w.book, 2), cfg.pointValue);
  }

  lemma TickLogsBoth(cfg: Config, b: Book)
    requires b.limits.None? && b.sequence == 2
    requires b.open == map[1 := Pending(Bid(1, "a"), 1, 1, 0), 2 := Pending(Bid(1, "b"), 2, 1, 0)]
    ensures Step(cfg, b, Tick(80.0)).log == Then(Then(b.log, FilledBid(b, 1)), FilledBid(b, 2))
  {
    var b0 := SetLatest(cfg, b, 80.0);
    var b1 := DoFill(cfg, b0, 1, 1, 90.0);
    FillFrame(cfg, b0, 1, 1, 90.0);
    TickFillsBoth(cfg, b0, b1, DoFill(cfg, b1, 2, 1, 90.0));
  }

  lemma BothCount(t: Tracker.TrackerState, base: Log, e1: Event, e2: Event, pv: int)
    requires t.ledger.lots == [] && t.tradeCount == 0 && t.counted == {} && e1.Filled? && e2.Filled?
    requires e1.order == Bid(1, "a") && e2.order == Bid(1, "b") && e1.quantity == e2.quantity == 1
    ensures Track(t, base, Then(Then(base, e1), e2), pv).tradeCount == 2
  {
    TrackOne(t, base, base, e1, pv);
    TrackOne(t, base, Then(base, e1), e2, pv);
    BuyCounts(t, ToFill(e1), pv);
    BuyCounts(Tracker.BookFill(t, ToFill(e1), pv), ToFill(e2), pv);
  }

  lemma NothingLeft(cfg: Config, b: Book, id: nat)
    requires id > b.sequence
    ensures MatchFrom(cfg, b, id) == b
  {
  }

  lemma TwoBidsRest(cfg: Config, l: Limits, w1: World, w2: World, w3: World)
    requires w1 == World(NewBook(100.0).(connected := true), Tracker.EMPTY)
    requires w2 == WorldStep(cfg, w1, Send(l, w1, Bid(1, "a"))) && w3 == WorldStep(cfg, w2, Send(l, w2, Bid(1, "b")))
    ensures TwoBids(cfg, w3) && Quoted(w2.book) && w2.tracker == Tracker.EMPTY
  {
    BidOnBook(cfg, w1.book, Bid(1, "a"));
    BidTracked(cfg, w1, Send(l, w1, Bid(1, "a")));
    BidOnBook(cfg, w2.book, Bid(1, "b"));
    BidTracked(cfg, w2, Send(l, w2, Bid(1, "b")));
    BidRests(cfg, l, w1, 1, "a");
    BidRests(cfg, l, w2, 1, "b");
  }

  lemma BidOnBook(cfg: Config, b: Book, r: OrderRequest)
    requires Quoted(b) && r == Bid(1, r.clientId) && r.clientId !in b.seen
    ensures var b' := PlaceOrder(cfg, b, r, false);
            && Quoted(b') && b'.sequence == b.sequence + 1 && b'.seen == b.seen + {r.clientId}
            && b'.open == b.open[b.sequence + 1 := Pending(r, b.sequence + 1, 1, 0)]
            && b'.log == Then(b.log, Acked(r, b.sequence + 1, 90.0))
  {
  }

  lemma BidTracked(cfg: Config, w: World, h: Happening)
    requires h.Do? && h.action.Place? && !h.action.rejected && Quoted(w.book)
    requires h.action.request == Bid(1, h.action.request.clientId) && h.action.request.clientId !in w.book.seen
    ensures WorldStep(cfg, w, h).tracker == w.tracker
  {
    BidOnBook(cfg, w.book, h.action.request);
    TrackOne(w.tracker, w.book.log, w.book.log, Acked(h.action.request, w.book.sequence + 1, 90.0), cfg.pointValue);
  }

  /** One trade a day allowed, and two entries approved while neither is filled: both count. */
  lemma TradesEscapedByTwoEntries(cfg: Config, l: Limits) returns (run: seq<Happening>, w: World)
    requires l.maxTrades == 1
    ensures ReachesChecked(cfg, l, World(NewBook(100.0), Tracker.EMPTY), run, w, SYMBOL)
    ensures w.tracker.tradeCount == 2 > l.maxTrades
  {
    var start := World(NewBook(100.0), Tracker.EMPTY);
    var connect := Do(Connect, Snapshot(l, start));
    var w1 := WorldStep(cfg, start, connect);
    var h1 := Send(l, w1, Bid(1, "a"));
    var w2 := WorldStep(cfg, w1, h1);
    var h2 := Send(l, w2, Bid(1, "b"));
    var w3 := WorldStep(cfg, w2, h2);
    var tick := Do(Tick(80.0), Snapshot(l, w3));
    TwoBidsRest(cfg, l, w1, w2, w3);
    w := WorldStep(cfg, w3, tick);
    BothFill(cfg, w3, Snapshot(l, w3));
    OneMore(cfg, l, w3, tick, [], w, SYMBOL);
    OneMore(cfg, l, w2, h2, [tick] + [], w, SYMBOL);
    OneMore(cfg, l, w1, h1, [h2] + ([tick] + []), w, SYMBOL);
    OneMore(cfg, l, start, connect, [h1] + ([h2] + ([tick] + [])), w, SYMBOL);
    run := [connect] + ([h1] + ([h2] + ([tick] + [])));
  }
}
