/**
  The risk limits over whole runs of the paper broker and the tracker: entries are submitted after a check
  against the tracker, any number of them at work together; everything else may happen at any time.
 */
module RiskBound {
  import opened Domain
  import opened FifoLedger
  import opened MatchingEngine
  import opened GatewayHistory
  import opened GatewayTheorems
  import opened PositionTracker
  import opened RiskManager
  import opened CloseEffects

  // ---------------------------------------------------------------- the tracker beside the log

  function Length(log: Log): nat {
    if log.Start? then 0 else 1 + Length(log.earlier)
  }

  lemma {:induction false} ExtendsIsLonger(log: Log, base: Log)
    requires Extends(log, base)
    ensures Length(log) >= Length(base)
  {
    if log != base { ExtendsIsLonger(log.earlier, base); }
  }

  /** The tracker after booking every fill logged since some earlier moment. */
  function Track(t: TrackerState, base: Log, log: Log, pv: int): TrackerState
    decreases log
  {
    if log == base || log.Start? then t
    else
      var before := Track(t, base, log.earlier, pv);
      if log.last.Filled? then BookFill(before, ToFill(log.last), pv) else before
  }

  lemma TrackOne(t: TrackerState, base: Log, log: Log, e: Event, pv: int)
    requires Extends(log, base)
    ensures Extends(Then(log, e), base)
    ensures Track(t, base, Then(log, e), pv)
            == if e.Filled? then BookFill(Track(t, base, log, pv), ToFill(e), pv) else Track(t, base, log, pv)
  {
    ExtendsIsLonger(log, base);
    assert Length(Then(log, e)) > Length(base);
  }

  /** Booking fill after fill, the tracker never leaves the limits. */
  ghost predicate AlwaysWithin(l: Limits, t: TrackerState, base: Log, log: Log, pv: int)
    decreases log
  {
    && InLimits(l, Track(t, base, log, pv))
    && (log == base || log.Start? || AlwaysWithin(l, t, base, log.earlier, pv))
  }

  predicate InLimits(l: Limits, t: TrackerState) {
    Abs(Net(t.ledger.lots)) <= l.maxPosition && t.tradeCount <= l.maxTrades
  }

  lemma AlwaysOneMore(l: Limits, t: TrackerState, base: Log, log: Log, e: Event, pv: int)
    requires Extends(log, base) && AlwaysWithin(l, t, base, log, pv)
    requires InLimits(l, Track(t, base, Then(log, e), pv))
    ensures AlwaysWithin(l, t, base, Then(log, e), pv)
  {
  }

  // ---------------------------------------------------------------- what an entry can still fill

  /** The most that an order left working can still fill: an immediate order is matched only once more. */
  function Reach(cfg: Config, tif: TimeInForce, remaining: nat): (n: nat)
    ensures n <= remaining
  {
    match tif
    case ROD => remaining
    case IOC => Liquid(cfg, remaining)
    case FOK => if Liquid(cfg, remaining) == remaining then remaining else 0
  }

  /** Room for so many contracts more, even if everything held against them is closed first. */
  predicate RoomFor(position: int, quantity: nat, limit: int) {
    -limit <= position && Max(0, position) + quantity <= limit
  }

  /** What one open order can still add to the position on side d. */
  function Share(cfg: Config, p: Pending, d: Direction): nat {
    if p.request.intent.Entry? && p.request.action == d then Reach(cfg, p.request.tif, p.remaining) else 0
  }

  /** What the open orders numbered up to some number can still add to the position on side d. */
  function Load(cfg: Config, open: map<nat, Pending>, d: Direction, upto: nat): nat {
    if upto == 0 then 0 else Load(cfg, open, d, upto - 1) + if upto in open then Share(cfg, open[upto], d) else 0
  }

  /** On either side there is room for all that the entries at work can still fill. */
  predicate AllRoomy(cfg: Config, l: Limits, open: map<nat, Pending>, upto: nat, net: int) {
    && RoomFor(net, Load(cfg, open, Long, upto), l.maxPosition)
    && RoomFor(-net, Load(cfg, open, Short, upto), l.maxPosition)
  }

  predicate Accepts(b: Book, r: OrderRequest) {
    b.connected && r.clientId !in b.seen
  }

  /** Contracts that an entry fills within the call that places it. */
  function AtOnce(cfg: Config, b: Book, r: OrderRequest): (n: nat)
    ensures n <= r.quantity
  {
    if !Marketable(cfg, b, r) then 0
    else if r.tif.ROD? then Liquid(cfg, r.quantity) else Reach(cfg, r.tif, r.quantity)
  }

  /** Contracts that it can still fill afterwards: it rests, or the daily limits lock its price. */
  function Lasting(cfg: Config, b: Book, r: OrderRequest): (n: nat)
    ensures n <= r.quantity - AtOnce(cfg, b, r)
  {
    if r.tif.ROD? then r.quantity - AtOnce(cfg, b, r)
    else if Marketable(cfg, b, r) || (r.priceType.LMT? && !Crossed(r, b.latest)) then 0
    else Reach(cfg, r.tif, r.quantity)
  }

  /**
    What an entry leaves working fits the limit beside all other entries on its side, even if everything
    against them is closed first.
   */
  predicate HasRoom(cfg: Config, l: Limits, b: Book, r: OrderRequest) {
    Accepts(b, r) ==>
      RoomFor(Signed(r.action, NetOf(b, r.symbol)) + AtOnce(cfg, b, r),
              Lasting(cfg, b, r) + Load(cfg, b.open, r.action, b.sequence), l.maxPosition)
  }

  /**
    The check tests only the position after the whole entry. An approved entry lacks room exactly when what it
    leaves working exceeds the limit together with the other entries on its side and with what is then held on
    that side; when no other entry works there, exactly when it is still a reversal and leaves more than the
    limit working, so only if it rests or the daily limits lock its price.
   */
  lemma ApprovedLacksRoomExactlyWhen(cfg: Config, l: Limits, b: Book, r: OrderRequest, ctx: Context)
    requires r.intent.Entry? && Check(l, r, ctx).Approved? && Accepts(b, r)
    requires ctx.position == NetOf(b, r.symbol) && Abs(ctx.position) <= l.maxPosition
    ensures var p := Signed(r.action, NetOf(b, r.symbol)) + AtOnce(cfg, b, r);
            var others := Load(cfg, b.open, r.action, b.sequence);
            && (!HasRoom(cfg, l, b, r) <==> Max(0, p) + Lasting(cfg, b, r) + others > l.maxPosition)
            && (others == 0 ==> (!HasRoom(cfg, l, b, r) <==> p < 0 && Lasting(cfg, b, r) > l.maxPosition))
    ensures Load(cfg, b.open, r.action, b.sequence) == 0 && !HasRoom(cfg, l, b, r) ==>
              r.tif.ROD? || !MatchingEngine.Within(b.limits, OrderPrice(cfg, r, b.latest))
  {
  }

  // ---------------------------------------------------------------- sums over the open orders

  lemma {:induction false} LoadWithout(cfg: Config, open: map<nat, Pending>, d: Direction, upto: nat, id: nat)
    requires id in open
    ensures Load(cfg, open, d, upto)
            == Load(cfg, open - {id}, d, upto) + if 1 <= id <= upto then Share(cfg, open[id], d) else 0
  {
    if upto > 0 { LoadWithout(cfg, open, d, upto - 1, id); }
  }

  lemma {:induction false} LoadWith(cfg: Config, open: map<nat, Pending>, d: Direction, upto: nat, id: nat, p: Pending)
    ensures Load(cfg, open[id := p], d, upto)
            == Load(cfg, open - {id}, d, upto) + if 1 <= id <= upto then Share(cfg, p, d) else 0
  {
    if upto > 0 { LoadWith(cfg, open, d, upto - 1, id, p); }
  }

  lemma LoadFewer(cfg: Config, open: map<nat, Pending>, d: Direction, upto: nat, id: nat)
    ensures Load(cfg, open - {id}, d, upto) <= Load(cfg, open, d, upto)
  {
    if id in open { LoadWithout(cfg, open, d, upto, id); } else { assert open - {id} == open; }
  }

  /** Open entries that no fill has been counted for yet, each of which may still add to the trade count. */
  function Uncounted(open: map<nat, Pending>, counted: set<EntryKey>, upto: nat): nat {
    if upto == 0 then 0
    else
      var earlier := Uncounted(open, counted, upto - 1);
      if upto in open && open[upto].request.intent.Entry? && KeyFor(open[upto].request, upto) !in counted
      then earlier + 1 else earlier
  }

  /** Fewer orders, or more keys counted, leave no more uncounted. */
  lemma {:induction false} UncountedShrinks(open: map<nat, Pending>, counted: set<EntryKey>, open': map<nat, Pending>,
                                            counted': set<EntryKey>, upto: nat)
    requires counted <= counted' && forall id :: id in open' ==> id in open && open'[id].request == open[id].request
    ensures Uncounted(open', counted', upto) <= Uncounted(open, counted, upto)
  {
    if upto > 0 { UncountedShrinks(open, counted, open', counted', upto - 1); }
  }

  /** Counting an entry at work leaves at least one fewer. */
  lemma {:induction false} OneFewerUncounted(open: map<nat, Pending>, counted: set<EntryKey>, open': map<nat, Pending>,
                                             id: nat, upto: nat)
    requires forall i :: i in open' ==> i in open && open'[i].request == open[i].request
    requires 1 <= id <= upto && id in open && open[id].request.intent.Entry?
    requires KeyFor(open[id].request, id) !in counted
    ensures Uncounted(open', counted + {KeyFor(open[id].request, id)}, upto) < Uncounted(open, counted, upto)
  {
    var counted' := counted + {KeyFor(open[id].request, id)};
    if id == upto {
      UncountedShrinks(open, counted, open', counted', upto - 1);
    } else {
      OneFewerUncounted(open, counted, open', id, upto - 1);
    }
  }

  lemma {:induction false} UncountedGrows(open: map<nat, Pending>, counted: set<EntryKey>, id: nat, p: Pending,
                                          upto: nat)
    requires upto < id
    ensures Uncounted(open[id := p], counted, upto) == Uncounted(open, counted, upto)
  {
    if upto > 0 { UncountedGrows(open, counted, id, p, upto - 1); }
  }

  // ---------------------------------------------------------------- what is kept

  function KeyFor(r: OrderRequest, id: nat): EntryKey {
    if r.clientId != "" then ByClient(r.clientId) else ByBroker(id)
  }

  /** Even if every uncounted entry at work is counted, the trade count stays within its limit. */
  predicate Spares(l: Limits, open: map<nat, Pending>, upto: nat, t: TrackerState) {
    t.tradeCount + Uncounted(open, t.counted, upto) <= l.maxTrades
  }

  /** `settling` names the entry, if any, that is just being matched; beside it there is room for all others. */
  predicate Safe(cfg: Config, l: Limits, open: map<nat, Pending>, upto: nat, t: TrackerState, settling: set<nat>) {
    InLimits(l, t) && Spares(l, open, upto, t) && AllRoomy(cfg, l, open - settling, upto, Net(t.ledger.lots))
  }

  ghost predicate Numbered(open: map<nat, Pending>, sequence: nat) {
    forall id :: id in open ==> 1 <= id <= sequence
  }

  ghost predicate OneSymbol(open: map<nat, Pending>, symbol: string) {
    forall id :: id in open ==> open[id].request.symbol == symbol
  }

  /** Every open order has a client id of its own, which the broker has seen. */
  ghost predicate Distinguished(open: map<nat, Pending>, seen: set<string>) {
    && (forall id :: id in open ==> open[id].request.clientId in seen)
    && (forall i, j :: i in open && j in open && i != j ==> open[i].request.clientId != open[j].request.clientId)
  }

  ghost predicate InOrder(open: map<nat, Pending>, sequence: nat, seen: set<string>, symbol: string) {
    OneSymbol(open, symbol) && Numbered(open, sequence) && Distinguished(open, seen)
  }

  lemma TrimInOrder(open: map<nat, Pending>, sequence: nat, seen: set<string>, symbol: string, id: nat, q: Quantity)
    requires InOrder(open, sequence, seen, symbol) && id in open && q <= open[id].remaining
    ensures InOrder(Trim(open, id, q), sequence, seen, symbol)
  {
  }

  lemma OneMoreInOrder(open: map<nat, Pending>, sequence: nat, seen: set<string>, symbol: string, p: Pending)
    requires InOrder(open, sequence, seen, symbol) && p.request.symbol == symbol && p.request.clientId !in seen
    ensures InOrder(open[sequence + 1 := p], sequence + 1, seen + {p.request.clientId}, symbol)
    ensures sequence + 1 !in open && open - {sequence + 1} == open
  {
  }

  /** Broker and tracker hold the same lots of the one symbol that trades, and what was counted is in the count. */
  ghost predicate Tracked(cfg: Config, b: Book, t: TrackerState, symbol: string) {
    && Cached(b, cfg.pointValue) && InOrder(b.open, b.sequence, b.seen, symbol)
    && t.ledger.lots == LotsOf(b.lots, symbol) && OneSided(t.ledger.lots) && |t.counted| <= t.tradeCount
  }

  /** Broker and tracker agree, and both are within the limits. */
  ghost predicate Within(cfg: Config, l: Limits, b: Book, t: TrackerState, symbol: string) {
    Tracked(cfg, b, t, symbol) && Safe(cfg, l, b.open, b.sequence, t, {})
  }

  /** The same for a tracker that books what is logged since `base`, at every moment since. */
  ghost predicate Kept(cfg: Config, l: Limits, b: Book, symbol: string, t: TrackerState, base: Log,
                       settling: set<nat>) {
    && Extends(b.log, base) && AlwaysWithin(l, t, base, b.log, cfg.pointValue)
    && Tracked(cfg, b, Track(t, base, b.log, cfg.pointValue), symbol)
    && Safe(cfg, l, b.open, b.sequence, Track(t, base, b.log, cfg.pointValue), settling)
  }

  lemma KeptFromStart(cfg: Config, l: Limits, b: Book, symbol: string, t: TrackerState, settling: set<nat>)
    requires Tracked(cfg, b, t, symbol) && Safe(cfg, l, b.open, b.sequence, t, settling)
    ensures Kept(cfg, l, b, symbol, t, b.log, settling)
  {
  }

  // ---------------------------------------------------------------- one fill

  lemma {:induction false} ApplyLotsOnly(x: Ledger, y: Ledger, action: Direction, q: nat, price: real, pv: int)
    requires x.lots == y.lots
    ensures Apply(x, action, q, price, pv).lots == Apply(y, action, q, price, pv).lots
    decreases q
  {
    if Blocked(x.lots, action, q) {
      ApplyLotsOnly(CloseHead(x, q, price, pv), CloseHead(y, q, price, pv), action, q - Closed(x.lots, q), price, pv);
    }
  }

  /** A close-only fill never opens exposure, so it never counts as a trade. */
  lemma CloseOpensNothing(lots: seq<Lot>, symbol: string, b: Book, r: OrderRequest, q: Quantity, pv: int)
    requires Cached(b, pv) && r.symbol == symbol && lots == LotsOf(b.lots, symbol) && q <= Closable(b, r)
    ensures Residual(lots, r.action, q) == 0 && lots != []
    ensures Signed(r.action, Net(lots)) + q <= 0
  {
    ResidualMeaning(lots, r.action, q);
    NetIsSignedTotal(lots);
  }

  /** Where one side moves closer to the limit, the other moves away from it. */
  lemma OtherSide(cfg: Config, l: Limits, open: map<nat, Pending>, upto: nat, net: int, d: Direction, q: nat)
    requires AllRoomy(cfg, l, open, upto, net)
    requires RoomFor(Signed(d, net) + q, Load(cfg, open, d, upto), l.maxPosition)
    ensures AllRoomy(cfg, l, open, upto, net + Signed(d, q))
  {
  }

  /** A fill counts its order at most once, and then the order was uncounted. */
  lemma FillSpares(l: Limits, open: map<nat, Pending>, upto: nat, id: nat, q: Quantity, t: TrackerState,
                   t': TrackerState)
    requires Spares(l, open, upto, t) && 1 <= id <= upto && id in open && q <= open[id].remaining
    requires var key := KeyFor(open[id].request, id);
             || (t'.tradeCount == t.tradeCount && t'.counted == t.counted)
             || (&& t'.tradeCount == t.tradeCount + 1 && t'.counted == t.counted + {key}
                 && key !in t.counted && open[id].request.intent.Entry?)
    ensures Spares(l, Trim(open, id, q), upto, t') && (t.tradeCount <= l.maxTrades ==> t'.tradeCount <= l.maxTrades)
  {
    var open' := Trim(open, id, q);
    if t'.counted == t.counted {
      UncountedShrinks(open, t.counted, open', t'.counted, upto);
    } else {
      OneFewerUncounted(open, t.counted, open', id, upto);
    }
  }

  lemma TrimLoads(cfg: Config, open: map<nat, Pending>, d: Direction, upto: nat, id: nat, q: Quantity)
    requires id in open && q <= open[id].remaining && !open[id].request.intent.Entry?
    ensures Load(cfg, Trim(open, id, q), d, upto) == Load(cfg, open, d, upto)
  {
    LoadWithout(cfg, open, d, upto, id);
    if q < open[id].remaining { LoadWith(cfg, open, d, upto, id, Trim(open, id, q)[id]); }
  }

  /** A close takes the position towards flat, where there is no less room on either side. */
  lemma CloseRoomy(cfg: Config, l: Limits, open: map<nat, Pending>, upto: nat, id: nat, q: Quantity, net: int)
    requires AllRoomy(cfg, l, open, upto, net) && id in open && q <= open[id].remaining
    requires !open[id].request.intent.Entry? && Signed(open[id].request.action, net) + q <= 0
    ensures AllRoomy(cfg, l, Trim(open, id, q), upto, net + Signed(open[id].request.action, q))
  {
    TrimLoads(cfg, open, Long, upto, id, q);
    TrimLoads(cfg, open, Short, upto, id, q);
  }

  /** An entry that is being matched may fill where there is room beside the others; a close what it can close. */
  predicate MayFill(cfg: Config, l: Limits, b: Book, id: nat, q: Quantity, settling: set<nat>)
    requires id in b.open
  {
    var r := b.open[id].request;
    if r.intent.Entry? then
      && settling == {id}
      && RoomFor(Signed(r.action, NetOf(b, r.symbol)) + q,
                 Load(cfg, b.open - {id}, r.action, b.sequence), l.maxPosition)
    else settling == {} && q <= Closable(b, r)
  }

  lemma FillRoomy(cfg: Config, l: Limits, b: Book, id: nat, q: Quantity, symbol: string, t: TrackerState,
                  settling: set<nat>)
    requires Tracked(cfg, b, t, symbol) && Safe(cfg, l, b.open, b.sequence, t, settling)
    requires id in b.open && q <= b.open[id].remaining && MayFill(cfg, l, b, id, q, settling)
    ensures AllRoomy(cfg, l, Trim(b.open, id, q) - settling, b.sequence,
                     Net(t.ledger.lots) + Signed(b.open[id].request.action, q))
  {
    var r := b.open[id].request;
    if r.intent.Entry? {
      assert Trim(b.open, id, q) - {id} == b.open - {id};
      OtherSide(cfg, l, b.open - {id}, b.sequence, Net(t.ledger.lots), r.action, q);
    } else {
      assert b.open - {} == b.open && Trim(b.open, id, q) - {} == Trim(b.open, id, q);
      CloseOpensNothing(t.ledger.lots, symbol, b, r, q, cfg.pointValue);
      CloseRoomy(cfg, l, b.open, b.sequence, id, q, Net(t.ledger.lots));
    }
  }

  /** A fill of an order that may trade keeps position and count within the limits. */
  lemma FillSafe(cfg: Config, l: Limits, b: Book, id: nat, q: Quantity, price: real, symbol: string,
                 t: TrackerState, settling: set<nat>)
    requires Tracked(cfg, b, t, symbol) && Safe(cfg, l, b.open, b.sequence, t, settling)
    requires id in b.open && q <= b.open[id].remaining && MayFill(cfg, l, b, id, q, settling)
    ensures var f := ToFill(Event.Filled(b.open[id].request, id, price, q));
            Safe(cfg, l, Trim(b.open, id, q), b.sequence, BookFill(t, f, cfg.pointValue), settling)
  {
    var r, pv := b.open[id].request, cfg.pointValue;
    var f := ToFill(Event.Filled(r, id, price, q));
    ApplyNet(t.ledger, r.action, q, price, pv);
    FillRoomy(cfg, l, b, id, q, symbol, t, settling);
    FillCounts(cfg, b, id, q, price, symbol, t);
    FillSpares(l, b.open, b.sequence, id, q, t, BookFill(t, f, pv));
  }

  lemma FillCounts(cfg: Config, b: Book, id: nat, q: Quantity, price: real, symbol: string, t: TrackerState)
    requires Tracked(cfg, b, t, symbol) && id in b.open && q <= b.open[id].remaining
    requires b.open[id].request.intent.CloseOnly() ==> q <= Closable(b, b.open[id].request)
    ensures var r := b.open[id].request;
            var t' := BookFill(t, ToFill(Event.Filled(r, id, price, q)), cfg.pointValue);
            || (t'.tradeCount == t.tradeCount && t'.counted == t.counted)
            || (&& t'.tradeCount == t.tradeCount + 1 && t'.counted == t.counted + {KeyFor(r, id)}
                && KeyFor(r, id) !in t.counted && r.intent.Entry?)
  {
    var r := b.open[id].request;
    assert KeyOf(ToFill(Event.Filled(r, id, price, q))) == KeyFor(r, id);
    if !r.intent.Entry? { CloseOpensNothing(t.ledger.lots, symbol, b, r, q, cfg.pointValue); }
  }

  lemma FillTracked(cfg: Config, b: Book, id: nat, q: Quantity, price: real, symbol: string, t: TrackerState)
    requires Tracked(cfg, b, t, symbol) && id in b.open && q <= b.open[id].remaining
    ensures var f := ToFill(Event.Filled(b.open[id].request, id, price, q));
            Tracked(cfg, DoFill(cfg, b, id, q, price), BookFill(t, f, cfg.pointValue), symbol)
  {
    var r, pv := b.open[id].request, cfg.pointValue;
    var x := Ledger(LotsOf(b.lots, symbol), b.realized);
    FillFrame(cfg, b, id, q, price);
    TrimInOrder(b.open, b.sequence, b.seen, symbol, id, q);
    ApplyLotsOnly(t.ledger, x, r.action, q, price, pv);
    ApplyOneSided(x, r.action, q, price, pv);
    StoreCached(b, symbol, Apply(x, r.action, q, price, pv), pv);
    BookedLots(cfg, b, id, q, price, t);
  }

  /** What the tracker books of a fill, and that it counts no more than it adds to its count. */
  lemma BookedLots(cfg: Config, b: Book, id: nat, q: Quantity, price: real, t: TrackerState)
    requires id in b.open && |t.counted| <= t.tradeCount
    ensures var r := b.open[id].request;
            var t' := BookFill(t, ToFill(Event.Filled(r, id, price, q)), cfg.pointValue);
            && t'.ledger.lots == Apply(t.ledger, r.action, q, price, cfg.pointValue).lots
            && |t'.counted| <= t'.tradeCount
  {
  }

  lemma FillKept(cfg: Config, l: Limits, b: Book, id: nat, q: Quantity, price: real, symbol: string,
                 t: TrackerState, base: Log, settling: set<nat>)
    requires Kept(cfg, l, b, symbol, t, base, settling)
    requires id in b.open && q <= b.open[id].remaining && MayFill(cfg, l, b, id, q, settling)
    ensures Kept(cfg, l, DoFill(cfg, b, id, q, price), symbol, t, base, settling)
  {
    var now, e := Track(t, base, b.log, cfg.pointValue), Event.Filled(b.open[id].request, id, price, q);
    FillFrame(cfg, b, id, q, price);
    TrackOne(t, base, b.log, e, cfg.pointValue);
    FillSafe(cfg, l, b, id, q, price, symbol, now, settling);
    FillTracked(cfg, b, id, q, price, symbol, now);
    AlwaysOneMore(l, t, base, b.log, e, cfg.pointValue);
  }

  // ---------------------------------------------------------------- other effects

  lemma EmitKept(cfg: Config, l: Limits, b: Book, e: Event, symbol: string, t: TrackerState, base: Log,
                 settling: set<nat>)
    requires Kept(cfg, l, b, symbol, t, base, settling) && !e.Filled?
    ensures Kept(cfg, l, Emit(b, e), symbol, t, base, settling)
  {
    TrackOne(t, base, b.log, e, cfg.pointValue);
    AlwaysOneMore(l, t, base, b.log, e, cfg.pointValue);
  }

  lemma FewerSafe(cfg: Config, l: Limits, open: map<nat, Pending>, upto: nat, t: TrackerState, id: nat,
                  settling: set<nat>)
    requires Safe(cfg, l, open, upto, t, settling)
    ensures Safe(cfg, l, open - {id}, upto, t, settling)
  {
    UncountedShrinks(open, t.counted, open - {id}, t.counted, upto);
    LoadFewer(cfg, open - settling, Long, upto, id);
    LoadFewer(cfg, open - settling, Short, upto, id);
    assert open - {id} - settling == open - settling - {id};
  }

  lemma FewerOrders(cfg: Config, l: Limits, b: Book, id: nat, symbol: string, t: TrackerState, base: Log,
                    settling: set<nat>)
    requires Kept(cfg, l, b, symbol, t, base, settling)
    ensures Kept(cfg, l, b.(open := b.open - {id}), symbol, t, base, settling)
  {
    FewerSafe(cfg, l, b.open, b.sequence, Track(t, base, b.log, cfg.pointValue), id, settling);
  }

  lemma DropKept(cfg: Config, l: Limits, b: Book, id: nat, reason: CancelReason, symbol: string,
                 t: TrackerState, base: Log, settling: set<nat>)
    requires Kept(cfg, l, b, symbol, t, base, settling) && id in b.open
    ensures Kept(cfg, l, DoDrop(b, id, reason), symbol, t, base, settling)
  {
    var e := Cancelled(b.open[id].request, id, b.open[id].remaining, reason);
    FewerOrders(cfg, l, b, id, symbol, t, base, settling);
    EmitKept(cfg, l, b.(open := b.open - {id}), e, symbol, t, base, settling);
  }

  lemma LeftoverKept(cfg: Config, l: Limits, b: Book, id: nat, leftover: Option<CancelReason>, symbol: string,
                     t: TrackerState, base: Log, settling: set<nat>)
    requires Kept(cfg, l, b, symbol, t, base, settling)
    ensures Kept(cfg, l, DropLeftover(b, id, leftover), symbol, t, base, settling)
  {
    if leftover.Some? && id in b.open { DropKept(cfg, l, b, id, leftover.value, symbol, t, base, settling); }
  }

  lemma PerformKept(cfg: Config, l: Limits, b: Book, id: nat, o: Outcome, symbol: string,
                    t: TrackerState, base: Log, settling: set<nat>)
    requires Kept(cfg, l, b, symbol, t, base, settling) && id in b.open && Sound(cfg, b, b.open[id], o)
    requires o.Trade? ==> MayFill(cfg, l, b, id, o.quantity, settling)
    ensures Kept(cfg, l, Perform(cfg, b, id, o), symbol, t, base, settling)
  {
    match o
    case Rest =>
    case Drop(reason) => DropKept(cfg, l, b, id, reason, symbol, t, base, settling);
    case Trade(q, price, leftover) =>
      FillKept(cfg, l, b, id, q, price, symbol, t, base, settling);
      LeftoverKept(cfg, l, DoFill(cfg, b, id, q, price), id, leftover, symbol, t, base, settling);
  }

  lemma PerformAckedKept(cfg: Config, l: Limits, b: Book, id: nat, o: Outcome, ack: Event, symbol: string,
                         t: TrackerState, base: Log, settling: set<nat>)
    requires Kept(cfg, l, b, symbol, t, base, settling) && id in b.open && Sound(cfg, b, b.open[id], o) && ack.Acked?
    requires o.Trade? ==> MayFill(cfg, l, b, id, o.quantity, settling)
    ensures Kept(cfg, l, PerformAcked(cfg, b, id, o, ack), symbol, t, base, settling)
  {
    if o.Trade? && cfg.eventOrder.FillFirst? {
      var filled := DoFill(cfg, b, id, o.quantity, o.price);
      FillKept(cfg, l, b, id, o.quantity, o.price, symbol, t, base, settling);
      EmitKept(cfg, l, filled, ack, symbol, t, base, settling);
      LeftoverKept(cfg, l, Emit(filled, ack), id, o.leftover, symbol, t, base, settling);
    } else {
      EmitKept(cfg, l, b, ack, symbol, t, base, settling);
      PerformKept(cfg, l, Emit(b, ack), id, o, symbol, t, base, settling);
    }
  }

  /** An entry whose match is over, and which has room beside the others or is gone. */
  lemma Settled(cfg: Config, l: Limits, b: Book, id: nat, symbol: string, t: TrackerState, base: Log)
    requires Kept(cfg, l, b, symbol, t, base, {id})
    requires id in b.open ==> AllRoomy(cfg, l, b.open, b.sequence, NetOf(b, symbol))
    ensures Kept(cfg, l, b, symbol, t, base, {})
  {
    assert b.open - {} == b.open;
    if id !in b.open { assert b.open - {id} == b.open; }
  }

  lemma BeginSettling(cfg: Config, l: Limits, b: Book, id: nat, symbol: string, t: TrackerState, base: Log)
    requires Kept(cfg, l, b, symbol, t, base, {})
    ensures Kept(cfg, l, b, symbol, t, base, {id})
  {
    assert b.open - {} == b.open;
    LoadFewer(cfg, b.open, Long, b.sequence, id);
    LoadFewer(cfg, b.open, Short, b.sequence, id);
  }

  // ---------------------------------------------------------------- what a match leaves of an entry

  /** The book after an outcome: untouched, trimmed by the trade, or without the order. */
  lemma PerformLeaves(cfg: Config, b: Book, id: nat, o: Outcome)
    requires Cached(b, cfg.pointValue) && id in b.open && Sound(cfg, b, b.open[id], o)
    ensures var r, b' := b.open[id].request, Perform(cfg, b, id, o);
            && SameMarket(b, b') && b'.seen == b.seen && b'.sequence == b.sequence
            && NetOf(b', r.symbol) == NetOf(b, r.symbol) + Signed(r.action, if o.Trade? then o.quantity else 0)
            && b'.open == (if o.Rest? then b.open
                           else if o.Trade? && o.leftover.None? then Trim(b.open, id, o.quantity)
                           else b.open - {id})
  {
    PerformEffect(cfg, b, id, o);
  }

  /** What a sound outcome makes of an entry's share: it loses at least what it fills. */
  lemma ShareShrinks(cfg: Config, b: Book, id: nat, o: Outcome, d: Direction)
    requires id in b.open && Sound(cfg, b, b.open[id], o) && b.open[id].request.intent.Entry?
    requires o.Trade? && o.leftover.None? && o.quantity < b.open[id].remaining
    ensures Share(cfg, Trim(b.open, id, o.quantity)[id], d)
            == Share(cfg, b.open[id], d) - if b.open[id].request.action == d then o.quantity else 0
  {
  }

  lemma ReachesIt(cfg: Config, b: Book, id: nat, o: Outcome)
    requires id in b.open && Sound(cfg, b, b.open[id], o) && o.Trade?
    ensures o.quantity <= Reach(cfg, b.open[id].request.tif, b.open[id].remaining)
  {
  }

  /** One match of an entry stays within the room that all entries have. */
  lemma MatchMayFill(cfg: Config, l: Limits, b: Book, id: nat, o: Outcome)
    requires Cached(b, cfg.pointValue) && 1 <= id <= b.sequence && id in b.open && Sound(cfg, b, b.open[id], o)
    requires b.open[id].request.intent.Entry?
    requires AllRoomy(cfg, l, b.open, b.sequence, NetOf(b, b.open[id].request.symbol))
    ensures o.Trade? ==> MayFill(cfg, l, b, id, o.quantity, {id})
  {
    if o.Trade? {
      ReachesIt(cfg, b, id, o);
      LoadWithout(cfg, b.open, b.open[id].request.action, b.sequence, id);
    }
  }

  /** Entries that have room still have it after a match of one of them that leaves it working. */
  lemma MatchLeavesRoom(cfg: Config, l: Limits, b: Book, id: nat, o: Outcome)
    requires Cached(b, cfg.pointValue) && 1 <= id <= b.sequence && id in b.open && Sound(cfg, b, b.open[id], o)
    requires b.open[id].request.intent.Entry?
    requires AllRoomy(cfg, l, b.open, b.sequence, NetOf(b, b.open[id].request.symbol))
    ensures var b' := Perform(cfg, b, id, o);
            && b'.sequence == b.sequence
            && (id in b'.open ==> AllRoomy(cfg, l, b'.open, b'.sequence, NetOf(b', b.open[id].request.symbol)))
  {
    PerformLeaves(cfg, b, id, o);
    if o.Trade? && o.leftover.None? && o.quantity < b.open[id].remaining {
      var p := Trim(b.open, id, o.quantity)[id];
      ShareShrinks(cfg, b, id, o, Long);
      ShareShrinks(cfg, b, id, o, Short);
      LoadWithout(cfg, b.open, Long, b.sequence, id);
      LoadWithout(cfg, b.open, Short, b.sequence, id);
      LoadWith(cfg, b.open, Long, b.sequence, id, p);
      LoadWith(cfg, b.open, Short, b.sequence, id, p);
    }
  }

  lemma MatchKept(cfg: Config, l: Limits, b: Book, id: nat, symbol: string, t: TrackerState, base: Log)
    requires Kept(cfg, l, b, symbol, t, base, {}) && id in b.open
    ensures Kept(cfg, l, MatchOrder(cfg, b, id, b.latest, false), symbol, t, base, {})
  {
    var o := Decide(cfg, b, b.open[id], b.latest, false);
    DecideIsSound(cfg, b, b.open[id], b.latest, false);
    assert b.open - {} == b.open;
    if b.open[id].request.intent.Entry? {
      MatchMayFill(cfg, l, b, id, o);
      MatchLeavesRoom(cfg, l, b, id, o);
      BeginSettling(cfg, l, b, id, symbol, t, base);
      PerformKept(cfg, l, b, id, o, symbol, t, base, {id});
      Settled(cfg, l, Perform(cfg, b, id, o), id, symbol, t, base);
    } else {
      PerformKept(cfg, l, b, id, o, symbol, t, base, {});
    }
  }

  lemma {:induction false} CancelFromKept(cfg: Config, l: Limits, b: Book, id: nat, symbol: string,
                                          t: TrackerState, base: Log)
    requires Kept(cfg, l, b, symbol, t, base, {})
    ensures Kept(cfg, l, CancelFrom(b, id), symbol, t, base, {})
    decreases b.sequence + 1 - id
  {
    if id <= b.sequence {
      if id in b.open { DropKept(cfg, l, b, id, UserCancel, symbol, t, base, {}); }
      CancelFromKept(cfg, l, CancelOrder(b, id), id + 1, symbol, t, base);
    }
  }

  lemma {:induction false} MatchFromKept(cfg: Config, l: Limits, b: Book, id: nat, symbol: string,
                                         t: TrackerState, base: Log)
    requires Kept(cfg, l, b, symbol, t, base, {})
    ensures Kept(cfg, l, MatchFrom(cfg, b, id), symbol, t, base, {})
    decreases b.sequence + 1 - id
  {
    if id <= b.sequence {
      if id in b.open { MatchKept(cfg, l, b, id, symbol, t, base); }
      MatchFromKept(cfg, l, MatchIfOpen(cfg, b, id), id + 1, symbol, t, base);
    }
  }

  // ---------------------------------------------------------------- placing an entry

  /** What the entry's own call makes of book b: book b', with at most the entry added. */
  ghost predicate Lands(cfg: Config, b: Book, r: OrderRequest, b': Book) {
    var id := b.sequence + 1;
    && SameMarket(b, b') && b'.seen == b.seen + {r.clientId} && b'.sequence == id
    && NetOf(b', r.symbol) == NetOf(b, r.symbol) + Signed(r.action, AtOnce(cfg, b, r))
    && (if id in b'.open then
          && b'.open == b.open[id := b'.open[id]] && b'.open[id].request == r
          && Reach(cfg, r.tif, b'.open[id].remaining) == Lasting(cfg, b, r)
        else b'.open == b.open && Lasting(cfg, b, r) == 0)
  }

  lemma EntryOutcome(cfg: Config, b: Book, r: OrderRequest, p: Pending)
    requires r.intent.Entry? && p.request == r && p.remaining == r.quantity
    ensures var o := Decide(cfg, b, p, b.latest, true);
            && (if o.Trade? then o.quantity else 0) == AtOnce(cfg, b, r)
            && (o.Rest? ==> Reach(cfg, r.tif, r.quantity) == Lasting(cfg, b, r))
            && (o.Drop? || (o.Trade? && o.leftover.Some?) ==> Lasting(cfg, b, r) == 0)
            && (o.Trade? && o.leftover.None? ==>
                  Lasting(cfg, b, r) == r.quantity - o.quantity && (r.tif.ROD? || Lasting(cfg, b, r) == 0))
  {
  }

  lemma EntryPerformed(cfg: Config, b: Book, r: OrderRequest, b1: Book, id: nat, o: Outcome)
    requires Cached(b, cfg.pointValue) && Numbered(b.open, b.sequence) && r.intent.Entry?
    requires b1 == Register(b, r) && id == b.sequence + 1
    requires o == Decide(cfg, b1, b1.open[id], b1.latest, true) && Sound(cfg, b1, b1.open[id], o)
    ensures Lands(cfg, b, r, Perform(cfg, b1, id, o))
  {
    PerformLeaves(cfg, b1, id, o);
    EntryOutcome(cfg, b1, r, b1.open[id]);
    assert AtOnce(cfg, b1, r) == AtOnce(cfg, b, r) && Lasting(cfg, b1, r) == Lasting(cfg, b, r);
    assert id !in b.open && b1.open - {id} == b.open;
  }

  lemma LandsWhateverTheLog(cfg: Config, b: Book, r: OrderRequest, x: Book, y: Book)
    requires Lands(cfg, b, r, x) && x.(log := Start) == y.(log := Start)
    ensures Lands(cfg, b, r, y)
  {
  }

  /** The exact effect of an accepted entry. */
  lemma EntryLands(cfg: Config, b: Book, r: OrderRequest)
    requires Cached(b, cfg.pointValue) && Numbered(b.open, b.sequence) && r.intent.Entry? && Accepts(b, r)
    ensures Lands(cfg, b, r, PlaceOrder(cfg, b, r, false))
  {
    var b1, id := Register(b, r), b.sequence + 1;
    PlacedAs(cfg, b, r);
    var o := Decide(cfg, b1, b1.open[id], b1.latest, true);
    EntryPerformed(cfg, b, r, b1, id, o);
    LandsWhateverTheLog(cfg, b, r, Perform(cfg, b1, id, o), PlaceOrder(cfg, b, r, false));
  }

  /** The broker takes an entry only if there is room for it, in the position and in the trade count. */
  predicate Enterable(cfg: Config, l: Limits, b: Book, r: OrderRequest, t: TrackerState) {
    Accepts(b, r) ==>
      HasRoom(cfg, l, b, r) && t.tradeCount + Uncounted(b.open, t.counted, b.sequence) < l.maxTrades
  }

  lemma RegisterKept(cfg: Config, l: Limits, b: Book, r: OrderRequest, symbol: string, t: TrackerState)
    requires Within(cfg, l, b, t, symbol) && r.symbol == symbol && Accepts(b, r)
    requires r.intent.Entry? ==> Enterable(cfg, l, b, r, t)
    ensures Kept(cfg, l, Register(b, r), symbol, t, b.log, if r.intent.Entry? then {b.sequence + 1} else {})
  {
    OneMoreInOrder(b.open, b.sequence, b.seen, symbol, Pending(r, b.sequence + 1, r.quantity, 0));
    RegisterSafe(cfg, l, b.open, b.sequence, t, Pending(r, b.sequence + 1, r.quantity, 0));
    KeptFromStart(cfg, l, Register(b, r), symbol, t, if r.intent.Entry? then {b.sequence + 1} else {});
  }

  /** Registering an order of the next number; an entry is left out of the room until it has been matched. */
  lemma RegisterSafe(cfg: Config, l: Limits, open: map<nat, Pending>, sequence: nat, t: TrackerState, p: Pending)
    requires Safe(cfg, l, open, sequence, t, {}) && sequence + 1 !in open
    requires p.request.intent.Entry? ==> t.tradeCount + Uncounted(open, t.counted, sequence) < l.maxTrades
    ensures Safe(cfg, l, open[sequence + 1 := p], sequence + 1, t,
                 if p.request.intent.Entry? then {sequence + 1} else {})
  {
    var id, open' := sequence + 1, open[sequence + 1 := p];
    assert open - {} == open && open - {id} == open && open' - {} == open' && open' - {id} == open;
    UncountedGrows(open, t.counted, id, p, sequence);
    LoadWith(cfg, open, Long, sequence, id, p);
    LoadWith(cfg, open, Short, sequence, id, p);
  }

  /** The contracts that an entry fills at once fit beside the entries already at work. */
  lemma EnterMayFill(cfg: Config, l: Limits, b: Book, r: OrderRequest, b1: Book, id: nat, o: Outcome)
    requires r.intent.Entry? && Accepts(b, r) && HasRoom(cfg, l, b, r) && Numbered(b.open, b.sequence)
    requires b1 == Register(b, r) && id == b.sequence + 1 && o == Decide(cfg, b1, b1.open[id], b1.latest, true)
    ensures o.Trade? ==> MayFill(cfg, l, b1, id, o.quantity, {id})
  {
    EntryOutcome(cfg, b1, r, b1.open[id]);
    assert AtOnce(cfg, b1, r) == AtOnce(cfg, b, r);
    assert id !in b.open && b1.open - {id} == b.open;
  }

  lemma AcceptKept(cfg: Config, l: Limits, b: Book, r: OrderRequest, symbol: string, t: TrackerState)
    requires Within(cfg, l, b, t, symbol) && r.symbol == symbol && Accepts(b, r)
    requires r.intent.Entry? ==> Enterable(cfg, l, b, r, t)
    ensures Kept(cfg, l, PlaceOrder(cfg, b, r, false), symbol, t, b.log,
                 if r.intent.Entry? then {b.sequence + 1} else {})
  {
    var b1, id := Register(b, r), b.sequence + 1;
    var settling: set<nat> := if r.intent.Entry? then {id} else {};
    var o := Decide(cfg, b1, b1.open[id], b1.latest, true);
    RegisterKept(cfg, l, b, r, symbol, t);
    DecideIsSound(cfg, b1, b1.open[id], b1.latest, true);
    if r.intent.Entry? { EnterMayFill(cfg, l, b, r, b1, id, o); }
    PerformAckedKept(cfg, l, b1, id, o, Acked(r, id, OrderPrice(cfg, r, b1.latest)), symbol, t, b.log, settling);
  }

  /** The entry that has landed has room beside the others. */
  lemma LandedRoomy(cfg: Config, l: Limits, b: Book, r: OrderRequest, b': Book)
    requires Lands(cfg, b, r, b') && Accepts(b, r) && r.intent.Entry? && Numbered(b.open, b.sequence)
    requires AllRoomy(cfg, l, b.open, b.sequence, NetOf(b, r.symbol))
    ensures AllRoomy(cfg, l, b'.open, b'.sequence, NetOf(b', r.symbol)) <==> HasRoom(cfg, l, b, r)
  {
    LandedLoad(cfg, b, r, b', Long);
    LandedLoad(cfg, b, r, b', Short);
  }

  lemma LandedLoad(cfg: Config, b: Book, r: OrderRequest, b': Book, d: Direction)
    requires Lands(cfg, b, r, b') && r.intent.Entry? && Numbered(b.open, b.sequence)
    ensures Load(cfg, b'.open, d, b'.sequence)
            == Load(cfg, b.open, d, b.sequence) + if r.action == d then Lasting(cfg, b, r) else 0
  {
    var id := b.sequence + 1;
    assert id !in b.open && b.open - {id} == b.open;
    if id in b'.open { LoadWith(cfg, b.open, d, b.sequence, id, b'.open[id]); }
  }

  lemma PlaceKept(cfg: Config, l: Limits, b: Book, r: OrderRequest, rejected: bool, symbol: string, t: TrackerState)
    requires Within(cfg, l, b, t, symbol) && r.symbol == symbol
    requires r.intent.Entry? ==> rejected || Enterable(cfg, l, b, r, t)
    ensures Kept(cfg, l, PlaceOrder(cfg, b, r, rejected), symbol, t, b.log, {})
  {
    KeptFromStart(cfg, l, b, symbol, t, {});
    if Accepts(b, r) && !rejected {
      AcceptKept(cfg, l, b, r, symbol, t);
      if r.intent.Entry? { EntrySettles(cfg, l, b, r, symbol, t); }
    } else if Accepts(b, r) {
      RefuseKept(cfg, l, b, r, symbol, t);
    }
  }

  lemma EntrySettles(cfg: Config, l: Limits, b: Book, r: OrderRequest, symbol: string, t: TrackerState)
    requires Within(cfg, l, b, t, symbol) && r.symbol == symbol && r.intent.Entry? && Accepts(b, r)
             && HasRoom(cfg, l, b, r)
    requires Kept(cfg, l, PlaceOrder(cfg, b, r, false), symbol, t, b.log, {b.sequence + 1})
    ensures Kept(cfg, l, PlaceOrder(cfg, b, r, false), symbol, t, b.log, {})
  {
    assert b.open - {} == b.open;
    EntryLands(cfg, b, r);
    LandedRoomy(cfg, l, b, r, PlaceOrder(cfg, b, r, false));
    Settled(cfg, l, PlaceOrder(cfg, b, r, false), b.sequence + 1, symbol, t, b.log);
  }

  lemma RefuseKept(cfg: Config, l: Limits, b: Book, r: OrderRequest, symbol: string, t: TrackerState)
    requires Within(cfg, l, b, t, symbol)
    ensures Kept(cfg, l, Refuse(b, r), symbol, t, b.log, {})
  {
    var b1 := b.(seen := b.seen + {r.clientId}, sequence := b.sequence + 1);
    SkipSafe(cfg, l, b.open, b.sequence, t);
    SkipInOrder(b.open, b.sequence, b.seen, symbol, r.clientId);
    KeptFromStart(cfg, l, b1, symbol, t, {});
    EmitKept(cfg, l, b1, Rejected(r, b.sequence + 1), symbol, t, b.log, {});
  }

  /** A number that no order gets changes nothing. */
  lemma SkipSafe(cfg: Config, l: Limits, open: map<nat, Pending>, sequence: nat, t: TrackerState)
    requires Safe(cfg, l, open, sequence, t, {}) && sequence + 1 !in open
    ensures Safe(cfg, l, open, sequence + 1, t, {})
  {
  }

  lemma SkipInOrder(open: map<nat, Pending>, sequence: nat, seen: set<string>, symbol: string, c: string)
    requires InOrder(open, sequence, seen, symbol)
    ensures InOrder(open, sequence + 1, seen + {c}, symbol)
  {
  }

  // ---------------------------------------------------------------- steps of the whole system

  datatype World = World(book: Book, tracker: TrackerState)

  /** A request to the broker, with the snapshot its risk check saw; or the start of a new trading day. */
  datatype Happening = Do(action: Action, ctx: Context) | NewDay

  function WorldStep(cfg: Config, w: World, h: Happening): World {
    match h
    case NewDay => World(w.book, StartDay(w.tracker))
    case Do(a, _) =>
      var book := Step(cfg, w.book, a);
      World(book, Track(w.tracker, w.book.log, book.log, cfg.pointValue))
  }

  /** Only the one symbol trades, and every entry is approved against the tracker. */
  ghost predicate Checked(l: Limits, w: World, h: Happening, symbol: string) {
    h.Do? && h.action.Place? ==>
      var r := h.action.request;
      && r.symbol == symbol
      && (r.intent.Entry? ==>
            && h.ctx.position == Net(w.tracker.ledger.lots) && h.ctx.tradeCount == w.tracker.tradeCount
            && Check(l, r, h.ctx).Approved?)
  }

  /** What the check does not look at: the entries still at work, and closes that may come first. */
  predicate LeavesRoom(cfg: Config, l: Limits, w: World, h: Happening) {
    h.Do? && h.action.Place? && h.action.request.intent.Entry? ==>
      h.action.rejected || Enterable(cfg, l, w.book, h.action.request, w.tracker)
  }

  ghost predicate Admissible(cfg: Config, l: Limits, w: World, h: Happening, symbol: string) {
    Checked(l, w, h, symbol) && LeavesRoom(cfg, l, w, h)
  }

  ghost predicate NoEntryOpen(open: map<nat, Pending>) {
    forall id :: id in open ==> !open[id].request.intent.Entry?
  }

  lemma {:induction false} NothingAtWork(cfg: Config, open: map<nat, Pending>, d: Direction, counted: set<EntryKey>,
                                         upto: nat)
    requires NoEntryOpen(open)
    ensures Load(cfg, open, d, upto) == 0 && Uncounted(open, counted, upto) == 0
  {
    if upto > 0 { NothingAtWork(cfg, open, d, counted, upto - 1); }
  }

  /** When no other entry works, the check leaves out only reversals that leave more than the limit working. */
  lemma CheckSufficesExactlyWhen(cfg: Config, l: Limits, w: World, h: Happening, symbol: string)
    requires Within(cfg, l, w.book, w.tracker, symbol) && NoEntryOpen(w.book.open) && Checked(l, w, h, symbol)
    requires h.Do? && h.action.Place? && h.action.request.intent.Entry? && !h.action.rejected
    requires Accepts(w.book, h.action.request)
    ensures var r := h.action.request;
            LeavesRoom(cfg, l, w, h)
            <==> || Signed(r.action, NetOf(w.book, symbol)) + AtOnce(cfg, w.book, r) >= 0
                 || Lasting(cfg, w.book, r) <= l.maxPosition
  {
    var r := h.action.request;
    NothingAtWork(cfg, w.book.open, r.action, w.tracker.counted, w.book.sequence);
    ApprovedLacksRoomExactlyWhen(cfg, l, w.book, r, h.ctx);
  }

  lemma ActionKept(cfg: Config, l: Limits, w: World, a: Action, ctx: Context, symbol: string)
    requires Within(cfg, l, w.book, w.tracker, symbol) && Admissible(cfg, l, w, Do(a, ctx), symbol)
    ensures Kept(cfg, l, Step(cfg, w.book, a), symbol, w.tracker, w.book.log, {})
  {
    var b, t := w.book, w.tracker;
    KeptFromStart(cfg, l, b, symbol, t, {});
    match a
    case Place(r, rejected) => PlaceKept(cfg, l, b, r, rejected, symbol, t);
    case Cancel(id) => if id in b.open { DropKept(cfg, l, b, id, UserCancel, symbol, t, b.log, {}); }
    case CancelAll => CancelFromKept(cfg, l, b, 1, symbol, t, b.log);
    case Tick(price) => MatchFromKept(cfg, l, SetLatest(cfg, b, price), 1, symbol, t, b.log);
    case _ =>
  }

  /** One step keeps the limits, at every fill on the way. */
  lemma StepWithin(cfg: Config, l: Limits, w: World, h: Happening, symbol: string)
    requires Within(cfg, l, w.book, w.tracker, symbol) && Admissible(cfg, l, w, h, symbol)
    ensures var w' := WorldStep(cfg, w, h);
            && Within(cfg, l, w'.book, w'.tracker, symbol)
            && (h.Do? ==> AlwaysWithin(l, w.tracker, w.book.log, w'.book.log, cfg.pointValue))
  {
    if h.Do? {
      ActionKept(cfg, l, w, h.action, h.ctx, symbol);
    } else {
      DayStarts(cfg, l, w.book, w.tracker, symbol);
    }
  }

  /** A new day forgets what was counted; so the entries at work must fit a whole day's count. */
  lemma DayStarts(cfg: Config, l: Limits, b: Book, t: TrackerState, symbol: string)
    requires Within(cfg, l, b, t, symbol)
    ensures Within(cfg, l, b, StartDay(t), symbol)
  {
    ForgetCounted(b.open, b.seen, t.counted, b.sequence);
  }

  /** Forgetting what was counted adds at most one uncounted entry for each key. */
  lemma {:induction false} ForgetCounted(open: map<nat, Pending>, seen: set<string>, counted: set<EntryKey>, upto: nat)
    requires Distinguished(open, seen)
    ensures Uncounted(open, {}, upto) <= Uncounted(open, counted, upto) + |counted|
  {
    if upto > 0 {
      if upto in open && open[upto].request.intent.Entry? && KeyFor(open[upto].request, upto) in counted {
        var key := KeyFor(open[upto].request, upto);
        ForgetCounted(open, seen, counted - {key}, upto - 1);
        OthersUncounted(open, seen, counted, upto, upto - 1);
      } else {
        ForgetCounted(open, seen, counted, upto - 1);
      }
    }
  }

  lemma {:induction false} OthersUncounted(open: map<nat, Pending>, seen: set<string>, counted: set<EntryKey>,
                                           id: nat, upto: nat)
    requires Distinguished(open, seen) && id in open && upto < id
    ensures Uncounted(open, counted - {KeyFor(open[id].request, id)}, upto) == Uncounted(open, counted, upto)
  {
    if upto > 0 { OthersUncounted(open, seen, counted, id, upto - 1); }
  }

  // ---------------------------------------------------------------- whole runs

  ghost predicate Reaches(cfg: Config, l: Limits, w: World, run: seq<Happening>, w': World, symbol: string)
    decreases |run|
  {
    if run == [] then w == w'
    else
      && Admissible(cfg, l, w, run[0], symbol)
      && Reaches(cfg, l, WorldStep(cfg, w, run[0]), run[1..], w', symbol)
  }

  /** Fill by fill, through every step of the run, the tracker stays within the limits. */
  ghost predicate WithinThroughout(cfg: Config, l: Limits, w: World, run: seq<Happening>)
    decreases |run|
  {
    run == []
    || (var next := WorldStep(cfg, w, run[0]);
        && (run[0].Do? ==> AlwaysWithin(l, w.tracker, w.book.log, next.book.log, cfg.pointValue))
        && WithinThroughout(cfg, l, next, run[1..]))
  }

  lemma {:induction false} RunWithin(cfg: Config, l: Limits, w: World, run: seq<Happening>, w': World, symbol: string)
    requires Within(cfg, l, w.book, w.tracker, symbol) && Reaches(cfg, l, w, run, w', symbol)
    ensures Within(cfg, l, w'.book, w'.tracker, symbol) && WithinThroughout(cfg, l, w, run)
    decreases |run|
  {
    if run != [] {
      StepWithin(cfg, l, w, run[0], symbol);
      RunWithin(cfg, l, WorldStep(cfg, w, run[0]), run[1..], w', symbol);
    }
  }

  /**
    Risk bound: through every partial fill, close, emergency order, cancel, tick and new day, the position
    stays within the limit and the day's trade count within its own, and broker and tracker hold the same lots.
   */
  lemma LimitsHold(cfg: Config, l: Limits, price: real, run: seq<Happening>, w: World, symbol: string)
    requires Reaches(cfg, l, World(NewBook(price), EMPTY), run, w, symbol)
    ensures WithinThroughout(cfg, l, World(NewBook(price), EMPTY), run)
    ensures Abs(NetOf(w.book, symbol)) <= l.maxPosition
    ensures 0 <= w.tracker.tradeCount <= l.maxTrades
    ensures w.tracker.ledger.lots == LotsOf(w.book.lots, symbol)
  {
    RunWithin(cfg, l, World(NewBook(price), EMPTY), run, w, symbol);
  }
}
