/**
  What one turn does to a working order, said by comparing prices and counting contracts: every request and
  every tick gives each order exactly its due.
 */
module GatewayTurns {
  import opened Domain
  import opened FifoLedger
  import opened MatchingEngine
  import opened GatewayHistory
  import opened GatewayTheorems
  import opened CloseEffects

  /** The price at which an order trades in this market: its limit, or the market moved against it by the slippage. */
  function DuePrice(cfg: Config, r: OrderRequest, market: real): real {
    var slip := (cfg.slippageTicks * cfg.tickSize) as real;
    if r.priceType.LMT? then r.price.value else if r.action.Long? then market + slip else market - slip
  }

  /** The market is at or past the order's limit, if it has one. */
  predicate Touched(r: OrderRequest, market: real) {
    if !r.priceType.LMT? then true
    else if r.action.Long? then market <= r.price.value else market >= r.price.value
  }

  /** The price is outside the daily limits. */
  predicate Locked(limits: Option<(real, real)>, price: real) {
    limits.Some? && (price < limits.value.0 || price > limits.value.1)
  }

  /** The market has reached the order and its price is allowed today. */
  predicate InReach(cfg: Config, b: Book, r: OrderRequest, market: real) {
    Touched(r, market) && !Locked(b.limits, DuePrice(cfg, r, market))
  }

  /** Contracts held on the side that this order closes. */
  function Opposite(b: Book, r: OrderRequest): nat {
    if r.action.Long? then Max(0, -NetOf(b, r.symbol)) else Max(0, NetOf(b, r.symbol))
  }

  /** What one match can give an order in reach; only entries may trade more than the opposite position. */
  function Available(cfg: Config, b: Book, p: Pending): (n: nat) {
    var wanted := if p.request.intent.Entry? then p.remaining else Min(p.remaining, Opposite(b, p.request));
    if cfg.maxFill.Some? && cfg.maxFill.value < wanted then cfg.maxFill.value else wanted
  }

  /** The contracts an order trades at its turn. */
  function Due(cfg: Config, b: Book, p: Pending, market: real): (n: nat) {
    if !InReach(cfg, b, p.request, market) then 0
    else if p.request.tif.FOK? && Available(cfg, b, p) < p.remaining then 0
    else Available(cfg, b, p)
  }

  /** Whether an order is still on the book after its turn; on its first turn an immediate order must be reached. */
  predicate Remains(cfg: Config, b: Book, p: Pending, market: real, first: bool) {
    if !Touched(p.request, market) then !first || p.request.tif.ROD?
    else if Locked(b.limits, DuePrice(cfg, p.request, market)) then true
    else
      && 0 < Available(cfg, b, p) < p.remaining && p.request.tif.ROD?
      && (p.request.intent.Entry? || Opposite(b, p.request) >= p.remaining)
  }

  /** The order's turn was taken: it has traded its due, and nothing else has happened to any order or position. */
  ghost predicate Served(cfg: Config, b: Book, b': Book, id: nat, market: real, first: bool)
    requires id in b.open
  {
    var p, due := b.open[id], Due(cfg, b, b.open[id], market);
    && (id in b'.open <==> Remains(cfg, b, p, market, first))
    && (id in b'.open ==> b'.open[id] == Pending(p.request, p.id, p.remaining - due, p.filled + due))
    && b'.open - {id} == b.open - {id}
    && NetOf(b', p.request.symbol) == NetOf(b, p.request.symbol) + Signed(p.request.action, due)
    && (forall s :: s != p.request.symbol ==> NetOf(b', s) == NetOf(b, s))
    && b'.latest == b.latest && b'.limits == b.limits && b'.connected == b.connected && b'.sequence == b.sequence
    && Cached(b', cfg.pointValue)
  }

  lemma DecidesDue(cfg: Config, b: Book, p: Pending, market: real, first: bool)
    requires Cached(b, cfg.pointValue)
    ensures var o, due := Decide(cfg, b, p, market, first), Due(cfg, b, p, market);
            && (o.Trade? <==> due > 0)
            && (o.Trade? ==> o.quantity == due && o.price == DuePrice(cfg, p.request, market))
            && (Remains(cfg, b, p, market, first)
                <==> o.Rest? || (o.Trade? && o.quantity < p.remaining && o.leftover.None?))
  {
    CachedNet(b, cfg.pointValue, p.request.symbol);
  }

  lemma FillServes(cfg: Config, b: Book, id: nat, q: Quantity, price: real)
    requires Cached(b, cfg.pointValue) && id in b.open && q <= b.open[id].remaining
    ensures var r, b' := b.open[id].request, DoFill(cfg, b, id, q, price);
            && NetOf(b', r.symbol) == NetOf(b, r.symbol) + Signed(r.action, q)
            && (forall s :: s != r.symbol ==> NetOf(b', s) == NetOf(b, s))
            && Cached(b', cfg.pointValue) && b'.open == Trim(b.open, id, q) && SameMarket(b, b')
            && b'.sequence == b.sequence
  {
    TradeEffect(cfg, b, id, q, price);
    forall s | s != b.open[id].request.symbol ensures NetOf(DoFill(cfg, b, id, q, price), s) == NetOf(b, s) {
      TradeElsewhere(cfg, b, id, q, price, s);
    }
  }

  /** One matching attempt on a working order, whether on a tick or when it enters the market. */
  lemma TurnIsServed(cfg: Config, b: Book, id: nat, market: real, first: bool)
    requires Cached(b, cfg.pointValue) && id in b.open
    ensures Served(cfg, b, MatchOrder(cfg, b, id, market, first), id, market, first)
  {
    var o := Decide(cfg, b, b.open[id], market, first);
    DecideIsSound(cfg, b, b.open[id], market, first);
    DecidesDue(cfg, b, b.open[id], market, first);
    PerformServes(cfg, b, id, o);
    AsDecided(cfg, b, id, market, first, o, Perform(cfg, b, id, o));
  }

  /** What performing an outcome changes, in terms of the outcome. */
  ghost predicate Done(cfg: Config, b: Book, b': Book, id: nat, o: Outcome)
    requires id in b.open
  {
    var p, q := b.open[id], if o.Trade? then o.quantity else 0;
    && (id in b'.open <==> o.Rest? || (o.Trade? && q < p.remaining && o.leftover.None?))
    && (id in b'.open ==> b'.open[id] == Pending(p.request, p.id, p.remaining - q, p.filled + q))
    && b'.open - {id} == b.open - {id}
    && NetOf(b', p.request.symbol) == NetOf(b, p.request.symbol) + Signed(p.request.action, q)
    && (forall s :: s != p.request.symbol ==> NetOf(b', s) == NetOf(b, s))
    && b'.latest == b.latest && b'.limits == b.limits && b'.connected == b.connected && b'.sequence == b.sequence
    && Cached(b', cfg.pointValue)
  }

  lemma PerformServes(cfg: Config, b: Book, id: nat, o: Outcome)
    requires Cached(b, cfg.pointValue) && id in b.open && Sound(cfg, b, b.open[id], o)
    ensures Done(cfg, b, Perform(cfg, b, id, o), id, o)
  {
    if o.Trade? {
      FillServes(cfg, b, id, o.quantity, o.price);
      LeftoverServes(cfg, b, DoFill(cfg, b, id, o.quantity, o.price), id, o);
    }
  }

  lemma LeftoverServes(cfg: Config, b: Book, filled: Book, id: nat, o: Outcome)
    requires id in b.open && Sound(cfg, b, b.open[id], o) && o.Trade?
    requires filled.open == Trim(b.open, id, o.quantity) && Done(cfg, b, filled, id, o.(leftover := None))
    ensures Done(cfg, b, DropLeftover(filled, id, o.leftover), id, o)
  {
  }

  lemma AsDecided(cfg: Config, b: Book, id: nat, market: real, first: bool, o: Outcome, b': Book)
    requires id in b.open && Done(cfg, b, b', id, o)
    requires var due := Due(cfg, b, b.open[id], market);
             && (o.Trade? <==> due > 0) && (o.Trade? ==> o.quantity == due)
             && (Remains(cfg, b, b.open[id], market, first)
                 <==> o.Rest? || (o.Trade? && o.quantity < b.open[id].remaining && o.leftover.None?))
    ensures Served(cfg, b, b', id, market, first)
  {
  }

  /** A new order is served by its first turn, at the latest price, and changes nothing else. */
  lemma PlacedIsServed(cfg: Config, b: Book, r: OrderRequest)
    requires Cached(b, cfg.pointValue) && b.connected && r.clientId !in b.seen
    ensures Served(cfg, Register(b, r), PlaceOrder(cfg, b, r, false), b.sequence + 1, b.latest, true)
  {
    var b1, id := Register(b, r), b.sequence + 1;
    PlacedAs(cfg, b, r);
    TurnIsServed(cfg, b1, id, b.latest, true);
    LogIsNoMatterHere(cfg, b1, MatchOrder(cfg, b1, id, b.latest, true), PlaceOrder(cfg, b, r, false), id);
  }

  lemma LogIsNoMatterHere(cfg: Config, b: Book, x: Book, y: Book, id: nat)
    requires id in b.open && Served(cfg, b, x, id, b.latest, true) && x.(log := Start) == y.(log := Start)
    ensures Served(cfg, b, y, id, b.latest, true)
  {
  }

  // ---------------------------------------------------------------- every order on every tick

  /** The book when a tick gets to this order, after all that are older. */
  function AtTurn(cfg: Config, b: Book, from: nat, id: nat): Book
    decreases id - from
  {
    if from >= id then b else AtTurn(cfg, MatchIfOpen(cfg, b, from), from + 1, id)
  }

  /** The other orders leave this one alone. */
  ghost predicate Undisturbed(b: Book, b': Book, id: nat) {
    && (id in b'.open <==> id in b.open) && (id in b.open ==> b'.open[id] == b.open[id])
    && b'.latest == b.latest && b'.limits == b.limits
  }

  lemma OtherTurn(cfg: Config, b: Book, other: nat, id: nat)
    requires Cached(b, cfg.pointValue) && other != id
    ensures Undisturbed(b, MatchIfOpen(cfg, b, other), id) && Cached(MatchIfOpen(cfg, b, other), cfg.pointValue)
  {
    if other in b.open {
      TurnIsServed(cfg, b, other, b.latest, false);
      var b' := MatchIfOpen(cfg, b, other);
      assert id in b.open <==> id in b.open - {other};
      assert id in b'.open <==> id in b'.open - {other};
      if id in b.open { assert (b.open - {other})[id] == (b'.open - {other})[id]; }
    }
  }

  lemma {:induction false} LaterTurns(cfg: Config, b: Book, from: nat, id: nat)
    requires Cached(b, cfg.pointValue) && from > id
    ensures Undisturbed(b, MatchFrom(cfg, b, from), id)
    decreases b.sequence + 1 - from
  {
    if from <= b.sequence {
      OtherTurn(cfg, b, from, id);
      LaterTurns(cfg, MatchIfOpen(cfg, b, from), from + 1, id);
    }
  }

  lemma {:induction false} TurnComes(cfg: Config, b: Book, from: nat, id: nat)
    requires Cached(b, cfg.pointValue) && id in b.open && from <= id <= b.sequence
    ensures var turn, b' := AtTurn(cfg, b, from, id), MatchFrom(cfg, b, from);
            && Undisturbed(b, turn, id) && Cached(turn, cfg.pointValue)
            && Undisturbed(MatchOrder(cfg, turn, id, b.latest, false), b', id)
    decreases id - from
  {
    if from < id {
      OtherTurn(cfg, b, from, id);
      TurnComes(cfg, MatchIfOpen(cfg, b, from), from + 1, id);
    } else {
      TurnIsServed(cfg, b, id, b.latest, false);
      LaterTurns(cfg, MatchIfOpen(cfg, b, id), id + 1, id);
    }
  }

  /** What a tick has made of an order: off the book, or traded so far and still working. */
  ghost predicate TickServes(cfg: Config, b: Book, turn: Book, b': Book, id: nat, price: real)
    requires id in b.open
  {
    var p, due := b.open[id], Due(cfg, turn, b.open[id], price);
    && (id in b'.open <==> Remains(cfg, turn, p, price, false))
    && (id in b'.open ==> b'.open[id] == Pending(p.request, p.id, p.remaining - due, p.filled + due))
  }

  /**
    Every tick gives every working order its due, whatever its intent: an order the market has not reached, or whose
    price is locked, stays as it is; any other trades what one match can give it, and leaves the book unless
    it is good for the day and more of it can trade later.
   */
  lemma TickServesAll(cfg: Config, b: Book, price: real, id: nat)
    requires Invariant(cfg, b) && id in b.open
    ensures var turn := AtTurn(cfg, SetLatest(cfg, b, price), 1, id);
            && turn.latest == price && turn.limits == b.limits
            && TickServes(cfg, b, turn, Step(cfg, b, Tick(price)), id, price)
  {
    var b1 := SetLatest(cfg, b, price);
    MarkHolds(cfg, b, price);
    assert id in b.accepted;
    TurnComes(cfg, b1, 1, id);
    TurnIsServed(cfg, AtTurn(cfg, b1, 1, id), id, price, false);
    TickEndsSo(cfg, b, AtTurn(cfg, b1, 1, id), Step(cfg, b, Tick(price)), id, price);
  }

  lemma TickEndsSo(cfg: Config, b: Book, turn: Book, b': Book, id: nat, price: real)
    requires id in b.open && id in turn.open && turn.open[id] == b.open[id]
    requires Served(cfg, turn, MatchOrder(cfg, turn, id, price, false), id, price, false)
    requires Undisturbed(MatchOrder(cfg, turn, id, price, false), b', id)
    ensures TickServes(cfg, b, turn, b', id, price)
  {
  }

  /** A tick leaves an order untouched exactly when it is not in reach; in reach it shrinks or leaves the book. */
  lemma TickMovesExactlyWhen(cfg: Config, b: Book, price: real, id: nat)
    requires Invariant(cfg, b) && id in b.open
    ensures var b' := Step(cfg, b, Tick(price));
            && (InReach(cfg, b, b.open[id].request, price) <==> !(id in b'.open && b'.open[id] == b.open[id]))
            && (InReach(cfg, b, b.open[id].request, price) ==>
                  id in b'.open ==> b'.open[id].remaining < b.open[id].remaining)
  {
    TickServesAll(cfg, b, price, id);
  }

  /** The only order working on its symbol. */
  ghost predicate Lone(open: map<nat, Pending>, id: nat) {
    id in open && forall i :: i in open && i != id ==> open[i].request.symbol != open[id].request.symbol
  }

  lemma {:induction false} TurnOfLone(cfg: Config, b: Book, from: nat, id: nat)
    requires Cached(b, cfg.pointValue) && Lone(b.open, id) && from <= id
    ensures var turn := AtTurn(cfg, b, from, id);
            Lone(turn.open, id) && NetOf(turn, b.open[id].request.symbol) == NetOf(b, b.open[id].request.symbol)
    decreases id - from
  {
    if from < id {
      OtherTurn(cfg, b, from, id);
      OtherLeavesNet(cfg, b, from, id);
      TurnOfLone(cfg, MatchIfOpen(cfg, b, from), from + 1, id);
    }
  }

  lemma OtherLeavesNet(cfg: Config, b: Book, other: nat, id: nat)
    requires Cached(b, cfg.pointValue) && Lone(b.open, id) && other != id
    ensures var b' := MatchIfOpen(cfg, b, other);
            Lone(b'.open, id) && NetOf(b', b.open[id].request.symbol) == NetOf(b, b.open[id].request.symbol)
  {
    if other in b.open {
      TurnIsServed(cfg, b, other, b.latest, false);
      var b' := MatchIfOpen(cfg, b, other);
      OtherTurn(cfg, b, other, id);
      forall i | i in b'.open && i != id ensures b'.open[i].request.symbol != b.open[id].request.symbol {
        if i != other { assert i in b'.open - {other} && (b'.open - {other})[i] == (b.open - {other})[i]; }
      }
    }
  }

  /** An order that works alone on its symbol trades its due of the position held before the tick. */
  lemma LoneOrderServed(cfg: Config, b: Book, price: real, id: nat)
    requires Invariant(cfg, b) && Lone(b.open, id)
    ensures TickServes(cfg, b, b, Step(cfg, b, Tick(price)), id, price)
  {
    var b1 := SetLatest(cfg, b, price);
    MarkHolds(cfg, b, price);
    assert id in b.accepted;
    TurnOfLone(cfg, b1, 1, id);
    TickServesAll(cfg, b, price, id);
    SameDue(cfg, b, AtTurn(cfg, b1, 1, id), Step(cfg, b, Tick(price)), id, price);
  }

  lemma SameDue(cfg: Config, b: Book, turn: Book, b': Book, id: nat, price: real)
    requires id in b.open && TickServes(cfg, b, turn, b', id, price) && turn.limits == b.limits
    requires NetOf(turn, b.open[id].request.symbol) == NetOf(b, b.open[id].request.symbol)
    ensures TickServes(cfg, b, b, b', id, price)
  {
  }

  // ---------------------------------------------------------------- many ticks

  function Ticks(prices: seq<real>): (actions: seq<Action>)
    ensures |actions| == |prices|
  {
    seq(|prices|, i requires 0 <= i < |prices| => Tick(prices[i]))
  }

  ghost predicate AllInReach(cfg: Config, b: Book, r: OrderRequest, prices: seq<real>) {
    forall i :: 0 <= i < |prices| ==> InReach(cfg, b, r, prices[i])
  }

  /** An order in reach after one tick: smaller, and by a full match if it is a day entry. */
  ghost predicate Ticked(cfg: Config, b: Book, b1: Book, id: nat)
    requires id in b.open
  {
    var p := b.open[id];
    && Invariant(cfg, b1) && id in b1.accepted && b1.limits == b.limits
    && OnBook(b1.open, id) < p.remaining && (id in b1.open ==> b1.open[id].request == p.request)
    && (p.request.intent.Entry? && p.request.tif.ROD? && cfg.maxFill.Some? ==>
          OnBook(b1.open, id) == Max(0, p.remaining - cfg.maxFill.value))
  }

  lemma TickShrinks(cfg: Config, b: Book, price: real, id: nat) returns (b1: Book)
    requires Invariant(cfg, b) && id in b.open && InReach(cfg, b, b.open[id].request, price)
    ensures b1 == Step(cfg, b, Tick(price)) && Ticked(cfg, b, b1, id)
  {
    b1 := Step(cfg, b, Tick(price));
    StepHolds(cfg, b, Tick(price));
    TickServesAll(cfg, b, price, id);
    TickKeepsLimits(cfg, b, price);
    TickAccepts(cfg, b, price, id);
  }

  lemma TickAccepts(cfg: Config, b: Book, price: real, id: nat)
    requires Invariant(cfg, b) && id in b.open
    ensures id in Step(cfg, b, Tick(price)).accepted
  {
    StepLater(cfg, b, Tick(price));
  }

  lemma FirstTick(prices: seq<real>)
    requires prices != []
    ensures Ticks(prices)[0] == Tick(prices[0]) && Ticks(prices)[1..] == Ticks(prices[1..])
  {
  }

  lemma StillInReach(cfg: Config, b: Book, b1: Book, id: nat, prices: seq<real>)
    requires id in b.open && prices != [] && AllInReach(cfg, b, b.open[id].request, prices)
    requires Ticked(cfg, b, b1, id) && id in b1.open
    ensures b1.open[id].request == b.open[id].request && AllInReach(cfg, b1, b1.open[id].request, prices[1..])
  {
  }

  /** Whatever its intent and however little each match gives, an order that stays in reach is finished in the end. */
  lemma {:induction false} ReachedOrdersFinish(cfg: Config, b: Book, prices: seq<real>, id: nat)
    requires Invariant(cfg, b) && id in b.open && AllInReach(cfg, b, b.open[id].request, prices)
    ensures OnBook(Run(cfg, b, Ticks(prices)).open, id) <= Max(0, b.open[id].remaining - |prices|)
    decreases |prices|
  {
    if prices != [] {
      var rest := prices[1..];
      var b1 := TickShrinks(cfg, b, prices[0], id);
      FirstTick(prices);
      if id in b1.open {
        StillInReach(cfg, b, b1, id, prices);
        ReachedOrdersFinish(cfg, b1, rest, id);
      } else {
        GoneStaysGone(cfg, b1, Ticks(rest), id);
      }
    }
  }

  lemma GoneStaysGone(cfg: Config, b: Book, actions: seq<Action>, id: nat)
    requires Invariant(cfg, b) && id in b.accepted && id !in b.open
    ensures id !in Run(cfg, b, actions).open
  {
    RunLater(cfg, b, actions);
    Preserved(cfg, b, actions);
    var b' := Run(cfg, b, actions);
    TallyGrows(b'.log, b.log, id);
    assert Account(b.accepted[id], b.open, TallyOf(b.log, id), id, id in {});
    assert Account(b'.accepted[id], b'.open, TallyOf(b'.log, id), id, id in {});
  }

  lemma TickKeepsLimits(cfg: Config, b: Book, price: real)
    requires Cached(b, cfg.pointValue)
    ensures Step(cfg, b, Tick(price)).limits == b.limits
  {
    MatchingKeepsLimits(cfg, SetLatest(cfg, b, price), 1);
  }

  lemma {:induction false} MatchingKeepsLimits(cfg: Config, b: Book, from: nat)
    requires Cached(b, cfg.pointValue)
    ensures MatchFrom(cfg, b, from).limits == b.limits
    decreases b.sequence + 1 - from
  {
    if from <= b.sequence {
      if from in b.open { TurnIsServed(cfg, b, from, b.latest, false); }
      MatchingKeepsLimits(cfg, MatchIfOpen(cfg, b, from), from + 1);
    }
  }

  /** Contracts left of this many after k matches of at most m. */
  function LeftAfter(remaining: nat, m: Quantity, k: nat): nat {
    if k == 0 then remaining else LeftAfter(Max(0, remaining - m), m, k - 1)
  }

  lemma {:induction false} LeftAfterMeans(remaining: nat, m: Quantity, k: nat)
    ensures LeftAfter(remaining, m, k) == Max(0, remaining - k * m)
    decreases k
  {
    if k > 0 {
      LeftAfterMeans(Max(0, remaining - m), m, k - 1);
      assert k * m == (k - 1) * m + m;
    }
  }

  lemma NothingLeft(m: Quantity, k: nat)
    ensures LeftAfter(0, m, k) == 0
  {
  }

  lemma EntryDone(cfg: Config, b: Book, prices: seq<real>, id: nat, m: Quantity)
    requires Invariant(cfg, b) && id in b.accepted && id !in b.open
    ensures OnBook(Run(cfg, b, Ticks(prices)).open, id) == LeftAfter(0, m, |prices|)
  {
    GoneStaysGone(cfg, b, Ticks(prices), id);
    NothingLeft(m, |prices|);
  }

  /** The first of many ticks. */
  lemma EntryTicked(cfg: Config, b: Book, prices: seq<real>, id: nat) returns (b1: Book)
    requires Invariant(cfg, b) && id in b.open && AllInReach(cfg, b, b.open[id].request, prices) && prices != []
    requires b.open[id].request.intent.Entry? && b.open[id].request.tif.ROD? && cfg.maxFill.Some?
    ensures Invariant(cfg, b1) && id in b1.accepted
    ensures Run(cfg, b, Ticks(prices)) == Run(cfg, b1, Ticks(prices[1..]))
    ensures OnBook(b1.open, id) == Max(0, b.open[id].remaining - cfg.maxFill.value)
    ensures id in b1.open ==> b1.open[id].request == b.open[id].request
                              && AllInReach(cfg, b1, b1.open[id].request, prices[1..])
  {
    b1 := TickShrinks(cfg, b, prices[0], id);
    FirstTick(prices);
    if id in b1.open { StillInReach(cfg, b, b1, id, prices); }
  }

  lemma {:induction false} EntryShrinks(cfg: Config, b: Book, prices: seq<real>, id: nat)
    requires Invariant(cfg, b) && id in b.open && AllInReach(cfg, b, b.open[id].request, prices)
    requires b.open[id].request.intent.Entry? && b.open[id].request.tif.ROD? && cfg.maxFill.Some?
    ensures OnBook(Run(cfg, b, Ticks(prices)).open, id)
            == LeftAfter(b.open[id].remaining, cfg.maxFill.value, |prices|)
    decreases |prices|
  {
    if prices != [] {
      var b1 := EntryTicked(cfg, b, prices, id);
      if id in b1.open {
        EntryShrinks(cfg, b1, prices[1..], id);
      } else {
        EntryDone(cfg, b1, prices[1..], id, cfg.maxFill.value);
      }
    }
  }

  /** A day entry that stays in reach has, after k ticks, k full matches less to trade, or is done. */
  lemma EntryFillsOut(cfg: Config, b: Book, prices: seq<real>, id: nat)
    requires Invariant(cfg, b) && id in b.open && AllInReach(cfg, b, b.open[id].request, prices)
    requires b.open[id].request.intent.Entry? && b.open[id].request.tif.ROD? && cfg.maxFill.Some?
    ensures OnBook(Run(cfg, b, Ticks(prices)).open, id)
            == Max(0, b.open[id].remaining - |prices| * cfg.maxFill.value)
  {
    EntryShrinks(cfg, b, prices, id);
    LeftAfterMeans(b.open[id].remaining, cfg.maxFill.value, |prices|);
  }
}
