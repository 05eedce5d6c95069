/**
  The emergency close, the router and the paper broker composed: the closer of `EmergencyRules` run in the
  environment whose every answer is the paper broker's. The lock is free, nothing is rejected and no ticks
  arrive while it runs.
 */
module EmergencyFlatten {
  import opened Domain
  import opened FifoLedger
  import opened MatchingEngine
  import opened GatewayHistory
  import opened OrderRouter
  import opened CloseEffects
  import E = EmergencyRules
  import T = EmergencyTheorems

  datatype Venue = Venue(router: RouterState, book: Book)

  /** What the broker's answer to the router's emergency path is; none when the connection is down. */
  function AckOf(v: Venue, r: OrderRequest): Option<OrderAck> {
    if IsDuplicate(v.router, r.clientId) then Some(Refusal(r)) else AckFor(v.book, r, false)
  }

  /** The router's emergency path with the lock free: reserve, call the broker, finalize. */
  function SubmitUnchecked(cfg: Config, v: Venue, r: OrderRequest, now: int): Venue {
    if IsDuplicate(v.router, r.clientId) || !v.book.connected then v
    else Venue(Finalize(Reserve(v.router, r), r, AckOf(v, r).value, now), PlaceOrder(cfg, v.book, r, false))
  }

  // ---------------------------------------------------------------- the paper environment

  /**
    Broker and router at the start, the closer's settings, and the rest of the environment: the ids it draws,
    the number of mismatches the tracker reports, and the time.
   */
  datatype Scene = Scene(
    cfg: Config, start: Venue, symbol: string, retries: nat, useMarket: bool,
    ids: nat -> string, mismatches: nat, now: int)

  function Length(t: E.Trace): nat {
    if t.Nothing? then 0 else Length(t.earlier) + 1
  }

  /** Broker and router after the closer's calls so far. */
  function At(c: Scene, t: E.Trace): Venue {
    match t
    case Nothing => c.start
    case And(e, CancelledAll(locked, _)) =>
      Venue(if locked then ClearAll(At(c, e).router) else At(c, e).router, CancelFrom(At(c, e).book, 1))
    case And(e, Submitted(r, _)) => SubmitUnchecked(c.cfg, At(c, e), r, c.now)
    case And(e, _) => At(c, e)
  }

  /** The broker's positions; there are none but on the one symbol that trades. */
  function Listing(b: Book, symbol: string): seq<Position> {
    if symbol in b.positions then [b.positions[symbol]] else []
  }

  function PaperEnv(c: Scene): E.Env {
    E.Env(
      c.retries, c.useMarket,
      (t: E.Trace) => false, (t: E.Trace) => false, (t: E.Trace) => Some(true),
      (t: E.Trace) => Some(At(c, t).book.connected), (t: E.Trace) => false, (t: E.Trace) => true,
      (t: E.Trace) => Some(|At(c, t).book.open|), (t: E.Trace) => Some(Listing(At(c, t).book, c.symbol)),
      (t: E.Trace) => Some(c.mismatches), (t: E.Trace) => At(c, t).book.limits,
      (t: E.Trace, r: OrderRequest) => AckOf(At(c, t), r), (t: E.Trace) => c.ids(Length(t)))
  }

  // ---------------------------------------------------------------- what is left of a position

  /** Size left of a position of q contracts after so many matches of limited liquidity. */
  function Left(cfg: Config, q: nat, rounds: nat): nat
    decreases rounds
  {
    if rounds == 0 then q else Left(cfg, q - Liquid(cfg, q), rounds - 1)
  }

  /** The same in one piece: max(0, q - rounds * m) with m contracts of liquidity per match. */
  function Remainder(cfg: Config, q: nat, rounds: nat): nat {
    match cfg.maxFill
    case Some(m) => Max(0, q - rounds * m)
    case None => if rounds == 0 then q else 0
  }

  lemma {:induction false} LeftClosedForm(cfg: Config, q: nat, rounds: nat)
    ensures Left(cfg, q, rounds) == Remainder(cfg, q, rounds)
    decreases rounds
  {
    if rounds > 0 {
      LeftClosedForm(cfg, q - Liquid(cfg, q), rounds - 1);
      if cfg.maxFill.Some? {
        assert rounds * cfg.maxFill.value == (rounds - 1) * cfg.maxFill.value + cfg.maxFill.value;
      }
    }
  }

  lemma {:induction false} LeftOfNothing(cfg: Config, rounds: nat)
    ensures Left(cfg, 0, rounds) == 0
    decreases rounds
  {
    if rounds > 0 { LeftOfNothing(cfg, rounds - 1); }
  }

  function Side(net: int): Direction {
    if net >= 0 then Long else Short
  }

  /** Whether a position on side d can be closed at the current price at all. */
  predicate Closeable(cfg: Config, b: Book, d: Direction, useMarket: bool)
    requires useMarket || b.limits.Some?
  {
    if useMarket then Within(b.limits, b.latest + (d.Opposite().Sign() * cfg.slippageTicks * cfg.tickSize) as real)
    else if d.Long? then b.latest >= b.limits.value.0
    else b.latest <= b.limits.value.1
  }

  ghost predicate Ready(cfg: Config, v: Venue, useMarket: bool) {
    && Steady(cfg, v.book) && v.book.connected
    && (v.book.limits.Some? ==> v.book.limits.value.0 <= v.book.limits.value.1)
    && (useMarket || v.book.limits.Some?)
  }

  // ---------------------------------------------------------------- one round

  /** The order the closer makes for a position: at market, or at the far price limit. */
  function CloseRequest(useMarket: bool, b: Book, p: Position, id: string): OrderRequest {
    E.CloseOrder(p, if useMarket then None else b.limits, id)
  }

  /** A closing order for the whole position, on its side. */
  ghost predicate Fits(cfg: Config, b: Book, r: OrderRequest, useMarket: bool)
    requires useMarket || b.limits.Some?
  {
    var n := NetOf(b, r.symbol);
    && r.intent.CloseOnly() && r.tif.IOC?
    && r.action == Side(n).Opposite() && Closable(b, r) == r.quantity == Abs(n) > 0
    && (Marketable(cfg, b, r) <==> Closeable(cfg, b, Side(n), useMarket))
  }

  lemma CloseRequestFits(cfg: Config, b: Book, symbol: string, useMarket: bool, newId: string)
    requires Steady(cfg, b) && symbol in b.positions && (useMarket || b.limits.Some?)
    requires b.limits.Some? ==> b.limits.value.0 <= b.limits.value.1
    ensures var r := CloseRequest(useMarket, b, b.positions[symbol], newId);
            r.symbol == symbol && r.clientId == newId && Fits(cfg, b, r, useMarket)
  {
    CachedNet(b, cfg.pointValue, symbol);
  }

  /** What so many rounds do to a position and to the order book. */
  ghost predicate Shrunk(cfg: Config, b: Book, b': Book, symbol: string, useMarket: bool, rounds: nat)
    requires useMarket || b.limits.Some?
  {
    var n, n' := NetOf(b, symbol), NetOf(b', symbol);
    && SameSide(n, n')
    && Abs(n') == (if Closeable(cfg, b, Side(n), useMarket) then Left(cfg, Abs(n), rounds) else Abs(n))
    && |b'.open| <= |b.open| + rounds
  }

  lemma CloseShrinks(cfg: Config, b: Book, r: OrderRequest, b': Book, useMarket: bool)
    requires Steady(cfg, b) && (useMarket || b.limits.Some?)
    requires Fits(cfg, b, r, useMarket) && ClosedBy(cfg, b, r, b')
    ensures Steady(cfg, b') && Shrunk(cfg, b, b', r.symbol, useMarket, 1)
  {
    var n := NetOf(b, r.symbol);
    assert Left(cfg, Abs(n), 1) == Left(cfg, Abs(n) - Liquid(cfg, Abs(n)), 0) == Abs(n) - Liquid(cfg, Abs(n));
    CloseLeaves(n, r.action, CloseFill(cfg, b, r), NetOf(b', r.symbol));
  }

  /** A fill of at most the whole position against it leaves the rest on the same side. */
  lemma CloseLeaves(n: int, action: Direction, q: nat, n': int)
    requires action == Side(n).Opposite() && q <= Abs(n) && n' == n + Signed(action, q)
    ensures SameSide(n, n') && Abs(n') == Abs(n) - q
  {
  }

  lemma StillCloseOnly(cfg: Config, b: Book, r: OrderRequest, b': Book)
    requires ClosedBy(cfg, b, r, b') && r.intent.CloseOnly() && AllCloseOnly(b.open, r.symbol)
    ensures AllCloseOnly(b'.open, r.symbol)
  {
  }

  /** Everything a number of rounds achieves, from one venue to another. */
  ghost predicate Achieved(cfg: Config, v: Venue, v': Venue, symbol: string, useMarket: bool, rounds: nat)
    requires useMarket || v.book.limits.Some?
  {
    && Ready(cfg, v', useMarket) && SameMarket(v.book, v'.book)
    && Shrunk(cfg, v.book, v'.book, symbol, useMarket, rounds)
    && (AllCloseOnly(v.book.open, symbol) ==> AllCloseOnly(v'.book.open, symbol))
    && v'.book.positions.Keys <= v.book.positions.Keys + {symbol}
  }

  /** No id drawn from the k-th call on was ever used. */
  ghost predicate FreshFrom(c: Scene, v: Venue, k: nat) {
    forall i :: i >= k ==> c.ids(i) !in v.book.seen && !IsDuplicate(v.router, c.ids(i))
  }

  ghost predicate Distinct(ids: nat -> string) {
    forall i, j :: i != j ==> ids(i) != ids(j)
  }

  /** Fresh, distinct ids can be drawn at every venue: what follows applies to all of them. */
  lemma FreshIdsExist(c: Scene) returns (ids: nat -> string)
    ensures Distinct(ids) && FreshFrom(c.(ids := ids), c.start, 0)
  {
    var used := c.start.book.seen + c.start.router.inFlight.Keys + c.start.router.completed;
    var n := LongerThanAll(used);
    ids := (i: nat) => seq(n + i, _ => 'x');
    assert forall i: nat :: |ids(i)| == n + i && ids(i) !in used;
  }

  lemma LaterIdsStayFresh(c: Scene, v: Venue, r: OrderRequest, k: nat)
    requires FreshFrom(c, v, k) && Distinct(c.ids) && r.clientId == c.ids(k) && v.book.connected
    requires PlaceOrder(c.cfg, v.book, r, false).seen == v.book.seen + {r.clientId}
    ensures FreshFrom(c, SubmitUnchecked(c.cfg, v, r, c.now), k + 1)
  {
  }

  lemma OneRound(c: Scene, v: Venue, k: nat, r: OrderRequest, v1: Venue)
    requires Ready(c.cfg, v, c.useMarket) && FreshFrom(c, v, k) && Distinct(c.ids) && c.symbol in v.book.positions
    requires r == CloseRequest(c.useMarket, v.book, v.book.positions[c.symbol], c.ids(k))
    requires v1 == SubmitUnchecked(c.cfg, v, r, c.now)
    ensures Achieved(c.cfg, v, v1, c.symbol, c.useMarket, 1) && FreshFrom(c, v1, k + 1)
  {
    CloseRequestFits(c.cfg, v.book, c.symbol, c.useMarket, c.ids(k));
    CloseOrderEffect(c.cfg, v.book, r);
    CloseShrinks(c.cfg, v.book, r, PlaceOrder(c.cfg, v.book, r, false), c.useMarket);
    if AllCloseOnly(v.book.open, c.symbol) { StillCloseOnly(c.cfg, v.book, r, PlaceOrder(c.cfg, v.book, r, false)); }
    LaterIdsStayFresh(c, v, r, k);
  }

  // ---------------------------------------------------------------- the closer's rounds

  lemma ShrunkTwice(cfg: Config, a: Book, b: Book, c: Book, symbol: string, useMarket: bool, rounds: nat)
    requires (useMarket || a.limits.Some?) && SameMarket(a, b)
    requires Shrunk(cfg, a, b, symbol, useMarket, 1) && Shrunk(cfg, b, c, symbol, useMarket, rounds)
    ensures Shrunk(cfg, a, c, symbol, useMarket, rounds + 1)
  {
    var q := Abs(NetOf(a, symbol));
    assert Left(cfg, q, 1) == Left(cfg, q - Liquid(cfg, q), 0) == q - Liquid(cfg, q);
    LeftOfNothing(cfg, rounds);
    LeftOfNothing(cfg, rounds + 1);
  }

  lemma AchievedTwice(cfg: Config, u: Venue, v: Venue, w: Venue, symbol: string, useMarket: bool, rounds: nat)
    requires (useMarket || u.book.limits.Some?) && SameMarket(u.book, v.book) && rounds > 0
    requires Achieved(cfg, u, v, symbol, useMarket, 1) && Achieved(cfg, v, w, symbol, useMarket, rounds - 1)
    ensures Achieved(cfg, u, w, symbol, useMarket, rounds)
  {
    ShrunkTwice(cfg, u.book, v.book, w.book, symbol, useMarket, rounds - 1);
  }

  lemma NothingToDo(cfg: Config, v: Venue, symbol: string, useMarket: bool, rounds: nat)
    requires Ready(cfg, v, useMarket) && (rounds == 0 || symbol !in v.book.positions)
    ensures Achieved(cfg, v, v, symbol, useMarket, rounds)
  {
    CachedNet(v.book, cfg.pointValue, symbol);
    LeftOfNothing(cfg, rounds);
  }

  /** Where the closer stands between rounds. */
  ghost predicate Poised(c: Scene, d: E.Desk) {
    Ready(c.cfg, At(c, d.trace), c.useMarket) && FreshFrom(c, At(c, d.trace), Length(d.trace)) && !d.bypassed
  }

  /** The order the closer makes is the one for the listed position, with the next id. */
  lemma PaperOrder(c: Scene, d: E.Desk, p: Position)
    ensures var v := At(c, d.trace);
            E.MakeClose(PaperEnv(c), d, p)
            == if c.useMarket then (d, CloseRequest(true, v.book, p, c.ids(Length(d.trace))))
               else (E.Did(d, E.AskedLimits(v.book.limits)), CloseRequest(false, v.book, p, c.ids(Length(d.trace) + 1)))
  {
    var t := E.And(d.trace, E.AskedLimits(At(c, d.trace).book.limits));
    assert Length(t) == Length(d.trace) + 1;
    assert PaperEnv(c).newId(d.trace) == c.ids(Length(d.trace)) && PaperEnv(c).newId(t) == c.ids(Length(t));
  }

  lemma PaperSubmitOne(c: Scene, d: E.Desk, p: Position, attempt: nat, l: E.Ledger) returns (k: nat)
    ensures var v, d1 := At(c, d.trace), E.SubmitOne(PaperEnv(c), d, p, attempt, l).0;
            && Length(d.trace) <= k < Length(d1.trace) && d1.bypassed == d.bypassed
            && At(c, d1.trace) == SubmitUnchecked(c.cfg, v, CloseRequest(c.useMarket, v.book, p, c.ids(k)), c.now)
  {
    var (d0, r) := E.MakeClose(PaperEnv(c), d, p);
    PaperOrder(c, d, p);
    assert At(c, d0.trace) == At(c, d.trace);
    k := if c.useMarket then Length(d.trace) else Length(d.trace) + 1;
  }

  /** One turn of the closer's loop submits exactly one order for the listed position. */
  lemma PaperSubmit(c: Scene, d: E.Desk, p: Position, attempt: nat, l: E.Ledger) returns (k: nat)
    ensures var v, d1 := At(c, d.trace), E.SubmitAll(PaperEnv(c), d, [p], attempt, l).0;
            && Length(d.trace) <= k < Length(d1.trace) && d1.bypassed == d.bypassed
            && At(c, d1.trace) == SubmitUnchecked(c.cfg, v, CloseRequest(c.useMarket, v.book, p, c.ids(k)), c.now)
  {
    k := PaperSubmitOne(c, d, p, attempt, l);
    OneIsAll(PaperEnv(c), d, p, attempt, l);
  }

  lemma OneIsAll(env: E.Env, d: E.Desk, p: Position, attempt: nat, l: E.Ledger)
    ensures E.SubmitAll(env, d, [p], attempt, l) == E.SubmitOne(env, d, p, attempt, l)
  {
    var (d1, l1) := E.SubmitOne(env, d, p, attempt, l);
    assert [p][1..] == [] && E.SubmitAll(env, d1, [], attempt, l1) == (d1, l1);
  }

  /** A query tells what the broker holds and changes nothing. */
  lemma PaperQuery(c: Scene, d: E.Desk)
    requires !d.bypassed
    ensures var (d', answer) := E.Query(PaperEnv(c), d);
            && At(c, d'.trace) == At(c, d.trace) && answer == Some(Listing(At(c, d'.trace).book, c.symbol))
            && !d'.bypassed && Length(d'.trace) == Length(d.trace) + 2
  {
    var d1 := E.Lock(PaperEnv(c), d).0;
    assert At(c, d1.trace) == At(c, d.trace) && Length(d1.trace) == Length(d.trace) + 1;
  }

  /** What the closer's rounds achieve, and what they end knowing. */
  ghost predicate RoundsEnd(c: Scene, d: E.Desk, end: E.Rounded, rounds: nat)
    requires c.useMarket || At(c, d.trace).book.limits.Some?
  {
    && end.positions == Some(Listing(At(c, end.d.trace).book, c.symbol)) && !end.d.bypassed
    && Achieved(c.cfg, At(c, d.trace), At(c, end.d.trace), c.symbol, c.useMarket, rounds)
  }

  lemma FewerFresh(c: Scene, v: Venue, k: nat, more: nat)
    requires FreshFrom(c, v, k) && k <= more
    ensures FreshFrom(c, v, more)
  {
  }

  lemma NextRound(c: Scene, d: E.Desk, attempt: nat, l: E.Ledger)
    requires Poised(c, d) && Distinct(c.ids) && c.symbol in At(c, d.trace).book.positions
    ensures var d1 := E.SubmitAll(PaperEnv(c), d, Listing(At(c, d.trace).book, c.symbol), attempt, l).0;
            var (d2, answer) := E.Query(PaperEnv(c), d1);
            && Poised(c, d2) && answer == Some(Listing(At(c, d2.trace).book, c.symbol))
            && Achieved(c.cfg, At(c, d.trace), At(c, d2.trace), c.symbol, c.useMarket, 1)
  {
    var d1 := E.SubmitAll(PaperEnv(c), d, Listing(At(c, d.trace).book, c.symbol), attempt, l).0;
    var p := At(c, d.trace).book.positions[c.symbol];
    var k := PaperSubmit(c, d, p, attempt, l);
    FewerFresh(c, At(c, d.trace), Length(d.trace), k);
    OneRound(c, At(c, d.trace), k, CloseRequest(c.useMarket, At(c, d.trace).book, p, c.ids(k)), At(c, d1.trace));
    PaperQuery(c, d1);
    FewerFresh(c, At(c, d1.trace), k + 1, Length(E.Query(PaperEnv(c), d1).0.trace));
  }

  /**
    The closer's own rounds, at the paper broker: they leave exactly what their liquidity cannot reach, or
    everything when the price is locked; they never change the side of the position, leave only close-only
    orders behind, and end knowing what is left.
   */
  lemma {:induction false} RoundsExact(c: Scene, d: E.Desk, attempt: nat, rounds: nat, l: E.Ledger,
                                       ps: seq<Position>, end: E.Rounded)
    requires Poised(c, d) && Distinct(c.ids) && attempt + rounds == c.retries + 1
    requires ps == Listing(At(c, d.trace).book, c.symbol) && end == E.Rounds(PaperEnv(c), d, ps, attempt, l)
    ensures RoundsEnd(c, d, end, rounds)
    decreases rounds, 2
  {
    if attempt > c.retries || ps == [] {
      RoundsOver(c, d, rounds, l, ps);
    } else {
      RoundsContinue(c, d, attempt, rounds, l, ps, end);
    }
  }

  lemma {:induction false} RoundsContinue(c: Scene, d: E.Desk, attempt: nat, rounds: nat, l: E.Ledger,
                                          ps: seq<Position>, end: E.Rounded)
    requires Poised(c, d) && Distinct(c.ids) && attempt + rounds == c.retries + 1 && rounds > 0 && ps != []
    requires ps == Listing(At(c, d.trace).book, c.symbol) && end == E.Rounds(PaperEnv(c), d, ps, attempt, l)
    ensures RoundsEnd(c, d, end, rounds)
    decreases rounds, 1
  {
    var d2, l1, left := RoundDone(c, d, attempt, l, ps, end);
    RoundsGoOn(c, d, d2, attempt + 1, rounds, l1, left, end);
  }

  lemma RoundsOver(c: Scene, d: E.Desk, rounds: nat, l: E.Ledger, ps: seq<Position>)
    requires Poised(c, d) && ps == Listing(At(c, d.trace).book, c.symbol) && (rounds == 0 || ps == [])
    ensures RoundsEnd(c, d, E.Rounded(d, Some(ps), l), rounds)
  {
    NothingToDo(c.cfg, At(c, d.trace), c.symbol, c.useMarket, rounds);
  }

  /** The closer's rounds go on from where its first one has led. */
  lemma RoundDone(c: Scene, d: E.Desk, attempt: nat, l: E.Ledger, ps: seq<Position>, end: E.Rounded)
    returns (d2: E.Desk, l1: E.Ledger, left: seq<Position>)
    requires Poised(c, d) && Distinct(c.ids) && attempt <= c.retries && ps != []
    requires ps == Listing(At(c, d.trace).book, c.symbol) && end == E.Rounds(PaperEnv(c), d, ps, attempt, l)
    ensures Poised(c, d2) && left == Listing(At(c, d2.trace).book, c.symbol)
    ensures Achieved(c.cfg, At(c, d.trace), At(c, d2.trace), c.symbol, c.useMarket, 1)
    ensures end == E.Rounds(PaperEnv(c), d2, left, attempt + 1, l1)
  {
    var submitted := E.SubmitAll(PaperEnv(c), d, ps, attempt, l);
    var queried := E.Query(PaperEnv(c), submitted.0);
    NextRound(c, d, attempt, l);
    d2, l1, left := queried.0, submitted.1, queried.1.value;
    RoundsUnfold(PaperEnv(c), d, ps, attempt, l);
  }

  lemma RoundsUnfold(env: E.Env, d: E.Desk, ps: seq<Position>, attempt: nat, l: E.Ledger)
    requires attempt <= env.maxRetries && ps != []
    ensures var (d1, l1) := E.SubmitAll(env, d, ps, attempt, l);
            var (d2, answer) := E.Query(env, d1);
            answer.Some? ==> E.Rounds(env, d, ps, attempt, l) == E.Rounds(env, d2, answer.value, attempt + 1, l1)
  {
  }

  lemma {:induction false} RoundsGoOn(c: Scene, d: E.Desk, d2: E.Desk, next: nat, rounds: nat, l: E.Ledger,
                                      ps: seq<Position>, end: E.Rounded)
    requires (c.useMarket || At(c, d.trace).book.limits.Some?) && Poised(c, d2) && Distinct(c.ids)
    requires rounds > 0 && next + rounds == c.retries + 2
    requires Achieved(c.cfg, At(c, d.trace), At(c, d2.trace), c.symbol, c.useMarket, 1)
    requires ps == Listing(At(c, d2.trace).book, c.symbol) && end == E.Rounds(PaperEnv(c), d2, ps, next, l)
    ensures RoundsEnd(c, d, end, rounds)
    decreases rounds, 0
  {
    RoundsExact(c, d2, next, rounds - 1, l, ps, end);
    RoundsJoin(c, d, d2, end, rounds);
  }

  lemma RoundsJoin(c: Scene, d: E.Desk, d2: E.Desk, end: E.Rounded, rounds: nat)
    requires (c.useMarket || At(c, d.trace).book.limits.Some?) && rounds > 0
    requires SameMarket(At(c, d.trace).book, At(c, d2.trace).book)
    requires Achieved(c.cfg, At(c, d.trace), At(c, d2.trace), c.symbol, c.useMarket, 1)
             && RoundsEnd(c, d2, end, rounds - 1)
    ensures RoundsEnd(c, d, end, rounds)
  {
    AchievedTwice(c.cfg, At(c, d.trace), At(c, d2.trace), At(c, end.d.trace), c.symbol, c.useMarket, rounds);
  }

  // ---------------------------------------------------------------- the whole emergency close

  lemma {:induction false} CancelAllEffect(cfg: Config, b: Book, id: nat)
    requires Steady(cfg, b) && forall i :: i in b.open ==> i >= id
    ensures var b' := CancelFrom(b, id);
            && Steady(cfg, b') && SameMarket(b, b') && b'.seen == b.seen && b'.lots == b.lots
            && b'.positions == b.positions
            && b'.open == map[]
    decreases b.sequence + 1 - id
  {
    if id <= b.sequence {
      CancelAllEffect(cfg, CancelOrder(b, id), id + 1);
    }
  }

  /** The venue once the broker has cancelled everything and the router has cleared its ledger. */
  function Swept(v: Venue): Venue {
    Venue(ClearAll(v.router), CancelFrom(v.book, 1))
  }

  lemma SweptReady(c: Scene)
    requires Ready(c.cfg, c.start, c.useMarket) && FreshFrom(c, c.start, 0)
    ensures Ready(c.cfg, Swept(c.start), c.useMarket) && forall k: nat :: FreshFrom(c, Swept(c.start), k)
    ensures Swept(c.start).book.positions == c.start.book.positions && Swept(c.start).book.lots == c.start.book.lots
    ensures Swept(c.start).book.open == map[] && SameMarket(c.start.book, Swept(c.start).book)
  {
    CancelAllEffect(c.cfg, c.start.book, 1);
  }

  /** The closer's calls before its first query. */
  function Opening(c: Scene): E.Trace {
    var t1 := E.And(E.And(E.Nothing, E.SetState(E.Halted, false)), E.AskedTradable(Some(true)));
    E.And(E.And(E.And(t1, E.ReadLink(Some(true))), E.TriedLock(true)), E.CancelledAll(true, Some(|c.start.book.open|)))
  }

  lemma OpeningReaches(c: Scene, d: E.Desk, mode: E.Mode)
    requires c.start.book.connected
    ensures At(c, Opening(c)) == Swept(c.start)
    ensures E.Body(PaperEnv(c), d.(bypassed := false, trace := E.Nothing), mode)
            == E.CloseOut(PaperEnv(c), E.Desk(false, None, Opening(c)), mode, |c.start.book.open|)
  {
    var t1 := E.And(E.Nothing, E.SetState(E.Halted, false));
    var t2 := E.And(t1, E.AskedTradable(Some(true)));
    var t3 := E.And(t2, E.ReadLink(Some(true)));
    var t4 := E.And(t3, E.TriedLock(true));
    assert At(c, E.Nothing) == c.start;
    assert At(c, t1) == c.start;
    assert At(c, t2) == c.start;
    assert At(c, t3) == c.start;
    assert At(c, t4) == c.start;
  }

  /** The report of a close that started from one venue and led to another. */
  ghost predicate Reports(c: Scene, w: Venue, r: E.Report) {
    && r.cancelled == |c.start.book.open| && r.before == Listing(c.start.book, c.symbol)
    && r.residual == Listing(w.book, c.symbol) && (r.succeeded <==> NetOf(w.book, c.symbol) == 0)
    && E.InternalFailure !in r.notes && r.notes != [E.Deferred]
  }

  lemma FinishStays(c: Scene, d: E.Desk, mode: E.Mode)
    ensures At(c, E.Finish(PaperEnv(c), d, mode).trace) == At(c, d.trace)
  {
    var d1 := E.Did(d, E.DroppedStrategies(false));
    assert At(c, d1.trace) == At(c, d.trace);
  }

  /** The desk at which the rounds begin. */
  function Surveyed(c: Scene): E.Desk {
    E.Did(E.Query(PaperEnv(c), E.Desk(false, None, Opening(c))).0, E.Reconciled(Some(c.mismatches)))
  }

  function RoundsFrom(c: Scene): E.Rounded {
    E.Rounds(PaperEnv(c), Surveyed(c), Listing(c.start.book, c.symbol), 1,
             E.Ledger([], seq(c.mismatches, _ => E.Mismatch) + []))
  }

  lemma SurveyedPoised(c: Scene)
    requires Ready(c.cfg, c.start, c.useMarket) && FreshFrom(c, c.start, 0) && At(c, Opening(c)) == Swept(c.start)
    ensures Poised(c, Surveyed(c)) && At(c, Surveyed(c).trace) == Swept(c.start)
    ensures E.Query(PaperEnv(c), E.Desk(false, None, Opening(c))).1 == Some(Listing(c.start.book, c.symbol))
  {
    SweptReady(c);
    PaperQuery(c, E.Desk(false, None, Opening(c)));
    var d1 := E.Query(PaperEnv(c), E.Desk(false, None, Opening(c))).0;
    assert At(c, E.Did(d1, E.Reconciled(Some(c.mismatches))).trace) == At(c, d1.trace);
  }

  lemma CloseOutIsRounds(c: Scene, mode: E.Mode)
    requires Ready(c.cfg, c.start, c.useMarket) && FreshFrom(c, c.start, 0) && At(c, Opening(c)) == Swept(c.start)
    requires RoundsFrom(c).positions.Some? && !RoundsFrom(c).d.bypassed
    ensures var end := RoundsFrom(c);
            E.CloseOut(PaperEnv(c), E.Desk(false, None, Opening(c)), mode, |c.start.book.open|)
            == E.Reported(E.Finish(PaperEnv(c), end.d, mode),
                          E.Report(mode, |c.start.book.open|, Listing(c.start.book, c.symbol),
                                   end.l.sent, end.positions.value,
                                   end.positions.value == [], end.l.notes))
  {
    SurveyedPoised(c);
  }

  lemma RoundsFromExact(c: Scene)
    requires Ready(c.cfg, c.start, c.useMarket) && FreshFrom(c, c.start, 0) && Distinct(c.ids)
    requires At(c, Opening(c)) == Swept(c.start) && Ready(c.cfg, Swept(c.start), c.useMarket)
    ensures var end := RoundsFrom(c);
            && end.positions == Some(Listing(At(c, end.d.trace).book, c.symbol)) && !end.d.bypassed
            && Achieved(c.cfg, Swept(c.start), At(c, end.d.trace), c.symbol, c.useMarket, c.retries)
  {
    var notes: seq<E.Note> := seq(c.mismatches, _ => E.Mismatch) + [];
    SweptReady(c);
    SurveyedPoised(c);
    RoundsExact(c, Surveyed(c), 1, c.retries, E.Ledger([], notes), Listing(c.start.book, c.symbol), RoundsFrom(c));
  }

  lemma RoundsFromNotes(c: Scene)
    ensures E.InternalFailure !in RoundsFrom(c).l.notes && E.Deferred !in RoundsFrom(c).l.notes
  {
    var notes: seq<E.Note> := seq(c.mismatches, _ => E.Mismatch) + [];
    T.RoundNotesKeepOut(PaperEnv(c), Surveyed(c), Listing(c.start.book, c.symbol), 1, E.Ledger([], notes));
  }

  lemma ReportIsTrue(c: Scene, w: Venue, r: E.Report)
    requires Cached(w.book, c.cfg.pointValue)
    requires r.cancelled == |c.start.book.open| && r.before == Listing(c.start.book, c.symbol)
    requires r.residual == Listing(w.book, c.symbol) && r.succeeded == (r.residual == [])
    requires E.InternalFailure !in r.notes && E.Deferred !in r.notes
    ensures Reports(c, w, r)
  {
    CachedNet(w.book, c.cfg.pointValue, c.symbol);
  }

  lemma CloseOutExact(c: Scene, mode: E.Mode, e: E.Ending)
    requires Ready(c.cfg, c.start, c.useMarket) && FreshFrom(c, c.start, 0) && Distinct(c.ids)
    requires At(c, Opening(c)) == Swept(c.start) && Ready(c.cfg, Swept(c.start), c.useMarket)
    requires e == E.CloseOut(PaperEnv(c), E.Desk(false, None, Opening(c)), mode, |c.start.book.open|)
    ensures e.Reported? && Reports(c, At(c, e.d.trace), e.report)
    ensures Achieved(c.cfg, Swept(c.start), At(c, e.d.trace), c.symbol, c.useMarket, c.retries)
  {
    var end := RoundsFrom(c);
    RoundsFromExact(c);
    RoundsFromNotes(c);
    CloseOutIsRounds(c, mode);
    FinishStays(c, end.d, mode);
    ReportIsTrue(c, At(c, end.d.trace), e.report);
  }

  /** Everything an emergency close of this scene does and says. */
  ghost predicate ClosesExactly(c: Scene, w: Venue, r: E.Report)
    requires c.useMarket || c.start.book.limits.Some?
  {
    var n, n' := NetOf(c.start.book, c.symbol), NetOf(w.book, c.symbol);
    && Reports(c, w, r)
    && SameSide(n, n')
    && Abs(n') == (if Closeable(c.cfg, c.start.book, Side(n), c.useMarket)
                   then Remainder(c.cfg, Abs(n), c.retries) else Abs(n))
    && (r.succeeded <==>
          n == 0 || (Closeable(c.cfg, c.start.book, Side(n), c.useMarket) && Remainder(c.cfg, Abs(n), c.retries) == 0))
    && AllCloseOnly(w.book.open, c.symbol) && |w.book.open| <= c.retries
    && w.book.positions.Keys <= {c.symbol}
  }

  /**
    The closer, the router and the paper broker together. Of a position of q contracts, with R rounds and m
    contracts of liquidity per match, exactly max(0, q - R * m) are left, or all q when the closing price is
    outside the limits. The side never changes, at most R stale close-only orders stay on the book, and the
    report is true: its residual is what the broker still holds, and it claims success exactly when that is
    nothing.
   */
  lemma EmergencyCloseExact(c: Scene, d: E.Desk, mode: E.Mode)
    requires Ready(c.cfg, c.start, c.useMarket) && FreshFrom(c, c.start, 0) && Distinct(c.ids)
    requires c.start.book.positions.Keys <= {c.symbol}
    ensures var (d', r) := E.Execute(PaperEnv(c), d, mode); ClosesExactly(c, At(c, d'.trace), r)
  {
    OpeningReaches(c, d, mode);
    SweptReady(c);
    assert Ready(c.cfg, Swept(c.start), c.useMarket);
    var e := E.Body(PaperEnv(c), d.(bypassed := false, trace := E.Nothing), mode);
    CloseOutExact(c, mode, e);
    ExactFrom(c, At(c, e.d.trace), e.report);
  }

  lemma ExactFrom(c: Scene, w: Venue, r: E.Report)
    requires Ready(c.cfg, c.start, c.useMarket) && FreshFrom(c, c.start, 0) && c.start.book.positions.Keys <= {c.symbol}
    requires Ready(c.cfg, Swept(c.start), c.useMarket) && Reports(c, w, r)
    requires Achieved(c.cfg, Swept(c.start), w, c.symbol, c.useMarket, c.retries)
    ensures ClosesExactly(c, w, r)
  {
    SweptReady(c);
    LeftClosedForm(c.cfg, Abs(NetOf(c.start.book, c.symbol)), c.retries);
  }

  /** A flatten that cannot close everything tells the engine to run all the same, and says that it failed. */
  lemma FlattenResumesWhileHolding(c: Scene, d: E.Desk)
    requires Ready(c.cfg, c.start, c.useMarket) && FreshFrom(c, c.start, 0) && Distinct(c.ids)
    requires c.start.book.positions.Keys <= {c.symbol} && NetOf(c.start.book, c.symbol) != 0
    requires var n := NetOf(c.start.book, c.symbol);
             !Closeable(c.cfg, c.start.book, Side(n), c.useMarket) || Remainder(c.cfg, Abs(n), c.retries) > 0
    ensures var (d', r) := E.Execute(PaperEnv(c), d, E.Flatten);
            && T.Resumed(d'.trace) && !r.succeeded && r.residual != []
            && NetOf(At(c, d'.trace).book, c.symbol) != 0
  {
    EmergencyCloseExact(c, d, E.Flatten);
    T.ResumesExactlyWhen(PaperEnv(c), d, E.Flatten);
    T.SuccessMeansFlat(PaperEnv(c), d, E.Flatten);
  }

  // ---------------------------------------------------------------- afterwards

  lemma SubmitHolds(cfg: Config, v: Venue, r: OrderRequest, now: int)
    requires Invariant(cfg, v.book)
    ensures Invariant(cfg, SubmitUnchecked(cfg, v, r, now).book)
  {
    PlaceHolds(cfg, v.book, r, false);
  }

  lemma {:induction false} HoldsAt(c: Scene, t: E.Trace)
    requires Invariant(c.cfg, c.start.book)
    ensures Invariant(c.cfg, At(c, t).book)
  {
    if t.And? {
      HoldsAt(c, t.earlier);
      var v := At(c, t.earlier);
      match t.last
      case CancelledAll(_, _) => CancelFromHolds(c.cfg, v.book, 1);
      case Submitted(r, _) => SubmitHolds(c.cfg, v, r, c.now);
      case _ => assert At(c, t) == v;
    }
  }

  /**
    After an emergency close of any reachable book, however many stale closing orders it left behind, no
    later sequence of ticks, cancels and close-only orders can take the position past flat.
   */
  lemma EmergencyCloseIsFinal(c: Scene, d: E.Desk, mode: E.Mode, later: seq<Action>)
    requires Invariant(c.cfg, c.start.book) && Ready(c.cfg, c.start, c.useMarket)
    requires FreshFrom(c, c.start, 0) && Distinct(c.ids) && c.start.book.positions.Keys <= {c.symbol}
    requires NoEntries(later, c.symbol)
    ensures var after := At(c, E.Execute(PaperEnv(c), d, mode).0.trace).book;
            && SameSide(NetOf(c.start.book, c.symbol), NetOf(after, c.symbol))
            && SameSide(NetOf(after, c.symbol), NetOf(Run(c.cfg, after, later), c.symbol))
  {
    var t := E.Execute(PaperEnv(c), d, mode).0.trace;
    EmergencyCloseExact(c, d, mode);
    HoldsAt(c, t);
    NeverReversed(c.cfg, At(c, t).book, At(c, t).book, later, c.symbol);
  }
}
