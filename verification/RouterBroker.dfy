/**
  Router and paper broker together. Submissions, events, cancel-alls and cancel rounds interleave as in
  `RouterProtocol`; the broker answers them, matches on its own, and queues its events, which the router
  handles one at a time in the order in which they were logged.
 */
module RouterBroker {
  import opened Domain
  import opened FifoLedger
  import opened MatchingEngine
  import opened GatewayHistory
  import opened GatewayTheorems
  import opened OrderRouter
  import opened CloseEffects
  import P = RouterProtocol

  /**
    The router's system, the broker, how much of the broker's log the router has handled, and the ids that
    were in flight when a cancel-all cleared the ledger.
   */
  datatype Floor = Floor(s: P.System, b: Book, handled: Log, cleared: set<string>)

  function Opening(price: real): Floor {
    Floor(P.INITIAL, NewBook(price), Start, {})
  }

  datatype Move =
    | Begin(call: nat, request: OrderRequest)
    | Reply(call: nat, rejected: bool)
    | Fail(call: nat, locked: bool)
    | Finish(call: nat, ending: P.Ending, now: int)
    | Deliver(newId: string)
    | Market(action: Action)
    | Sweep
    | Clear
    | CancelDone(clientId: string)
    | Abandon(clientId: string, request: OrderRequest)
    | Forget(clientId: string)

  // ---------------------------------------------------------------- what the router is told

  function Told(e: Event): OrderEvent {
    match e
    case Filled(_, _, _, _) => Fill(ToFill(e))
    case Acked(order, id, _) => AckEvent(Some(order.clientId), id)
    case Cancelled(order, _, _, _) => CancelEvent(Some(order.clientId), 0)
    case Rejected(order, _) => RejectEvent(Some(order.clientId))
  }

  /** The first event of the log that is not yet handled. */
  function Waiting(log: Log, handled: Log): Event
    requires Extends(log, handled) && log != handled
    decreases log
  {
    if log.earlier == handled then log.last else Waiting(log.earlier, handled)
  }

  lemma {:induction false} HandleOne(log: Log, handled: Log)
    requires Extends(log, handled) && log != handled
    ensures Extends(log, Then(handled, Waiting(log, handled)))
    decreases log
  {
    if log.earlier != handled { HandleOne(log.earlier, handled); }
  }

  // ---------------------------------------------------------------- steps

  /** The broker still works an order of this client id. */
  predicate Working(b: Book, c: string) {
    exists id :: id in b.open && b.open[id].request.clientId == c
  }

  ghost predicate Accepted(b: Book, c: string) {
    exists id :: id in b.accepted && b.accepted[id].clientId == c
  }

  ghost predicate Enabled(f: Floor, m: Move) {
    match m
    case Begin(call, _) => call !in f.s.calls
    case Reply(call, _) => f.b.connected && call in f.s.calls && f.s.calls[call].reply.None?
    case Fail(call, _) => call in f.s.calls && f.s.calls[call].reply.None?
    case Finish(call, _, _) => call in f.s.calls && f.s.calls[call].reply.Some?
    case Deliver(_) => Extends(f.b.log, f.handled) && f.b.log != f.handled
    case Market(a) => !a.Place? && !a.CancelAll?
    case Clear => f.s.sweeps > 0
    case CancelDone(c) => Accepted(f.b, c) && !Working(f.b, c)
    case _ => true
  }

  function Answer(f: Floor, call: nat, rejected: bool): OrderAck
    requires call in f.s.calls
  {
    OrderAck(f.s.calls[call].request.clientId, Some(f.b.sequence + 1), !rejected)
  }

  ghost function Next(cfg: Config, f: Floor, m: Move): Floor
    requires Enabled(f, m)
  {
    match m
    case Begin(call, r) => f.(s := P.Next(f.s, P.Begin(call, r)))
    case Reply(call, rejected) =>
      f.(s := P.Next(f.s, P.Reply(call, Answer(f, call, rejected))),
         b := PlaceOrder(cfg, f.b, f.s.calls[call].request, rejected))
    case Fail(call, locked) => f.(s := P.Next(f.s, P.Fail(call, locked)))
    case Finish(call, ending, now) => f.(s := P.Next(f.s, P.Finish(call, ending, now)))
    case Deliver(newId) =>
      var e := Waiting(f.b.log, f.handled);
      f.(s := P.Next(f.s, P.Event(Told(e), newId)), handled := Then(f.handled, e))
    case Market(a) => f.(b := Step(cfg, f.b, a))
    case Sweep => f.(s := P.Next(f.s, P.Sweep), b := Step(cfg, f.b, CancelAll))
    case Clear => f.(s := P.Next(f.s, P.Clear), cleared := f.cleared + f.s.r.inFlight.Keys)
    case CancelDone(c) => f.(s := P.Next(f.s, P.Cancelled(c)))
    case Abandon(c, r) => f.(s := P.Next(f.s, P.Abandoned(c, r)))
    case Forget(c) => f.(s := P.Next(f.s, P.Forgotten(c)))
  }

  ghost predicate Reaches(cfg: Config, f: Floor, moves: seq<Move>, f': Floor)
    decreases |moves|
  {
    if moves == [] then f == f'
    else Enabled(f, moves[0]) && Reaches(cfg, Next(cfg, f, moves[0]), moves[1..], f')
  }

  // ---------------------------------------------------------------- the log names accepted orders

  /** Every event is about an accepted order, but for the rejects, whose client ids were never accepted. */
  ghost predicate Named(log: Log, accepted: Orders, seen: set<string>, sequence: nat)
    decreases log
  {
    log.Start?
    || (&& Named(log.earlier, accepted, seen, sequence)
        && (if log.last.Rejected? then
              && log.last.order.clientId in seen && log.last.id <= sequence && log.last.id !in accepted
              && forall id :: id in accepted ==> accepted[id].clientId != log.last.order.clientId
            else log.last.id in accepted && accepted[log.last.id] == log.last.order))
  }

  ghost predicate Faithful(b: Book) {
    Registered(b.accepted, b.open) && Named(b.log, b.accepted, b.seen, b.sequence)
  }

  lemma FillFaithful(cfg: Config, b: Book, id: nat, q: Quantity, price: real)
    requires Faithful(b) && id in b.open && q <= b.open[id].remaining
    ensures Faithful(DoFill(cfg, b, id, q, price))
  {
    FillFrame(cfg, b, id, q, price);
    TrimRegistered(b.accepted, b.open, id, q);
  }

  lemma LeftoverFaithful(b: Book, id: nat, leftover: Option<CancelReason>)
    requires Faithful(b)
    ensures Faithful(DropLeftover(b, id, leftover))
  {
  }

  lemma PerformFaithful(cfg: Config, b: Book, id: nat, o: Outcome)
    requires Faithful(b) && id in b.open && Sound(cfg, b, b.open[id], o)
    ensures Faithful(Perform(cfg, b, id, o))
  {
    if o.Trade? {
      FillFaithful(cfg, b, id, o.quantity, o.price);
      LeftoverFaithful(DoFill(cfg, b, id, o.quantity, o.price), id, o.leftover);
    }
  }

  lemma EnterFaithful(cfg: Config, b: Book, id: nat)
    requires Faithful(b) && id in b.open
    ensures Faithful(EnterMarket(cfg, b, id))
  {
    var p := b.open[id];
    var o, ack := Decide(cfg, b, p, b.latest, true), Acked(p.request, id, OrderPrice(cfg, p.request, b.latest));
    DecideIsSound(cfg, b, p, b.latest, true);
    if o.Trade? && cfg.eventOrder.FillFirst? {
      var filled := DoFill(cfg, b, id, o.quantity, o.price);
      FillFaithful(cfg, b, id, o.quantity, o.price);
      FillFrame(cfg, b, id, o.quantity, o.price);
      LeftoverFaithful(Emit(filled, ack), id, o.leftover);
    } else {
      PerformFaithful(cfg, Emit(b, ack), id, o);
    }
  }

  lemma {:induction false} NamedGrows(log: Log, accepted: Orders, seen: set<string>, sequence: nat, r: OrderRequest)
    requires Named(log, accepted, seen, sequence) && sequence + 1 !in accepted && r.clientId !in seen
    ensures Named(log, accepted[sequence + 1 := r], seen + {r.clientId}, sequence + 1)
  {
    if log.Then? { NamedGrows(log.earlier, accepted, seen, sequence, r); }
  }

  lemma {:induction false} NamedSees(log: Log, accepted: Orders, seen: set<string>, sequence: nat, c: string)
    requires Named(log, accepted, seen, sequence)
    ensures Named(log, accepted, seen + {c}, sequence + 1)
  {
    if log.Then? { NamedSees(log.earlier, accepted, seen, sequence, c); }
  }

  lemma PlaceFaithful(cfg: Config, b: Book, r: OrderRequest, rejected: bool)
    requires Invariant(cfg, b) && Faithful(b)
    ensures Faithful(PlaceOrder(cfg, b, r, rejected))
  {
    if b.connected && r.clientId !in b.seen {
      if rejected {
        NamedSees(b.log, b.accepted, b.seen, b.sequence, r.clientId);
      } else {
        NamedGrows(b.log, b.accepted, b.seen, b.sequence, r);
        AdmitUnique(b.accepted, b.open, b.seen, b.sequence, b.sequence + 1, r);
        EnterFaithful(cfg, Register(b, r), b.sequence + 1);
      }
    }
  }

  lemma {:induction false} CancelFromFaithful(b: Book, id: nat)
    requires Faithful(b)
    ensures Faithful(CancelFrom(b, id))
    decreases b.sequence + 1 - id
  {
    if id <= b.sequence { CancelFromFaithful(CancelOrder(b, id), id + 1); }
  }

  lemma {:induction false} MatchFromFaithful(cfg: Config, b: Book, id: nat)
    requires Faithful(b)
    ensures Faithful(MatchFrom(cfg, b, id))
    decreases b.sequence + 1 - id
  {
    if id <= b.sequence {
      if id in b.open {
        DecideIsSound(cfg, b, b.open[id], b.latest, false);
        PerformFaithful(cfg, b, id, Decide(cfg, b, b.open[id], b.latest, false));
      }
      MatchFromFaithful(cfg, MatchIfOpen(cfg, b, id), id + 1);
    }
  }

  lemma StepFaithful(cfg: Config, b: Book, a: Action)
    requires Invariant(cfg, b) && Faithful(b)
    ensures Faithful(Step(cfg, b, a))
  {
    match a
    case Place(r, rejected) => PlaceFaithful(cfg, b, r, rejected);
    case CancelAll => CancelFromFaithful(b, 1);
    case Tick(price) => MatchFromFaithful(cfg, SetLatest(cfg, b, price), 1);
    case _ =>
  }

  // ---------------------------------------------------------------- what the broker's steps leave alone

  /** No order comes, and no order that left the book returns. */
  ghost predicate OnlyLeaves(a: Book, b: Book) {
    b.accepted == a.accepted && b.seen == a.seen && b.open.Keys <= a.open.Keys
  }

  lemma PerformLeavesOnly(cfg: Config, a: Book, b: Book, id: nat, o: Outcome)
    requires OnlyLeaves(a, b) && id in b.open && Sound(cfg, b, b.open[id], o)
    ensures OnlyLeaves(a, Perform(cfg, b, id, o))
  {
    if o.Trade? { FillFrame(cfg, b, id, o.quantity, o.price); }
  }

  lemma {:induction false} CancelFromLeaves(a: Book, b: Book, id: nat)
    requires OnlyLeaves(a, b)
    ensures OnlyLeaves(a, CancelFrom(b, id))
    decreases b.sequence + 1 - id
  {
    if id <= b.sequence { CancelFromLeaves(a, CancelOrder(b, id), id + 1); }
  }

  lemma {:induction false} MatchFromLeaves(cfg: Config, a: Book, b: Book, id: nat)
    requires OnlyLeaves(a, b)
    ensures OnlyLeaves(a, MatchFrom(cfg, b, id))
    decreases b.sequence + 1 - id
  {
    if id <= b.sequence {
      if id in b.open {
        DecideIsSound(cfg, b, b.open[id], b.latest, false);
        PerformLeavesOnly(cfg, a, b, id, Decide(cfg, b, b.open[id], b.latest, false));
      }
      MatchFromLeaves(cfg, a, MatchIfOpen(cfg, b, id), id + 1);
    }
  }

  lemma StepLeaves(cfg: Config, b: Book, a: Action)
    requires !a.Place?
    ensures OnlyLeaves(b, Step(cfg, b, a))
  {
    match a
    case CancelAll => CancelFromLeaves(b, b, 1);
    case Tick(price) => MatchFromLeaves(cfg, b, SetLatest(cfg, b, price), 1);
    case _ =>
  }

  /** A new client id becomes an accepted order or a logged reject. */
  ghost predicate Admitted(b: Book, r: OrderRequest, rejected: bool, b': Book) {
    && b'.seen == b.seen + {r.clientId} && Extends(b'.log, b.log)
    && (if rejected then
          b'.accepted == b.accepted && b'.open == b.open && b'.log == Then(b.log, Rejected(r, b.sequence + 1))
        else
          b'.accepted == b.accepted[b.sequence + 1 := r] && b'.open.Keys <= b.open.Keys + {b.sequence + 1})
  }

  lemma PlaceAdmits(cfg: Config, b: Book, r: OrderRequest, rejected: bool)
    requires Invariant(cfg, b) && b.connected && r.clientId !in b.seen
    ensures Admitted(b, r, rejected, PlaceOrder(cfg, b, r, rejected))
  {
    PlaceLater(cfg, b, r, rejected);
    if !rejected {
      PlaceAccepts(cfg, b, r);
      AcceptAdmits(b, r, PlaceOrder(cfg, b, r, false));
    }
  }

  lemma PlaceAccepts(cfg: Config, b: Book, r: OrderRequest)
    requires b.connected && r.clientId !in b.seen
    ensures OnlyLeaves(Register(b, r), PlaceOrder(cfg, b, r, false))
  {
    var b1, id := Register(b, r), b.sequence + 1;
    var o := Decide(cfg, b1, b1.open[id], b1.latest, true);
    PlacedAs(cfg, b, r);
    PerformLeavesOnly(cfg, b1, b1, id, o);
  }

  lemma AcceptAdmits(b: Book, r: OrderRequest, b': Book)
    requires OnlyLeaves(Register(b, r), b') && Extends(b'.log, b.log)
    ensures Admitted(b, r, false, b')
  {
  }

  // ---------------------------------------------------------------- what router and broker know of each other

  ghost predicate Refused(log: Log, c: string) {
    log.Then? && ((log.last.Rejected? && log.last.order.clientId == c) || Refused(log.earlier, c))
  }

  lemma {:induction false} RefusedForGood(log: Log, base: Log, c: string)
    requires Extends(log, base) && Refused(base, c)
    ensures Refused(log, c)
  {
    if log != base { RefusedForGood(log.earlier, base, c); }
  }

  /**
    What the router believes of an accepted order, whose events it has handled up to this tally: while the id
    is in flight, its count is exact and the order is not over; otherwise the ledger was cleared, or the
    broker does not work the order any more.
   */
  ghost predicate Follows(r: RouterState, o: OrderRequest, t: Tally, open: bool, cleared: bool) {
    if o.clientId in r.inFlight then
      && r.inFlight[o.clientId].quantity == o.quantity
      && Get(r.filled, o.clientId) == t.filled < o.quantity && t.cancelled == 0
    else cleared || !open
  }

  ghost predicate AllFollowed(r: RouterState, accepted: Orders, open: set<nat>, handled: Log, cleared: set<string>) {
    forall id :: id in accepted ==>
      Follows(r, accepted[id], TallyOf(handled, id), id in open, accepted[id].clientId in cleared)
  }

  /** The answer to a submission names its order, or a reject is logged. */
  ghost predicate Kept(request: OrderRequest, ack: OrderAck, log: Log, accepted: Orders) {
    if ack.accepted then
      ack.brokerOrderId.Some? && ack.brokerOrderId.value in accepted && accepted[ack.brokerOrderId.value] == request
    else Refused(log, request.clientId)
  }

  /** Submissions under way: before the broker's answer the id is in flight or cleared, then the answer is kept. */
  ghost predicate Underway(s: P.System, log: Log, accepted: Orders, cleared: set<string>) {
    forall k :: k in s.calls ==>
      var c, call := s.calls[k].request.clientId, s.calls[k];
      && (call.reply.None? ==> if c in s.r.inFlight then s.r.inFlight[c] == call.request else c in cleared)
      && (call.reply.Some? ==> Kept(call.request, call.reply.value, log, accepted))
  }

  ghost predicate Seen(s: P.System, b: Book) {
    && (forall c :: c in b.seen <==> Get(s.replies, c) == 1)
    && (forall c :: c in b.seen ==> Refused(b.log, c) || Accepted(b, c))
  }

  ghost predicate Untold(r: RouterState, seen: set<string>, handled: Log) {
    && (forall c :: c !in seen ==> Get(r.filled, c) == 0)
    && (forall c :: c in r.inFlight ==> !Refused(handled, c))
  }

  ghost predicate Linked(cfg: Config, f: Floor) {
    && P.Invariant(f.s) && Invariant(cfg, f.b) && Faithful(f.b) && Extends(f.b.log, f.handled)
    && AllFollowed(f.s.r, f.b.accepted, f.b.open.Keys, f.handled, f.cleared)
    && Underway(f.s, f.b.log, f.b.accepted, f.cleared) && Seen(f.s, f.b) && Untold(f.s.r, f.b.seen, f.handled)
    && f.cleared <= f.s.r.completed
  }

  lemma OpeningLinked(cfg: Config, price: real)
    ensures Linked(cfg, Opening(price))
  {
  }

  // ---------------------------------------------------------------- one ledger section at a time

  /** The section concerns one client id and leaves flight and counts of all others alone. */
  ghost predicate OnlyAbout(a: RouterState, b: RouterState, c: string) {
    && (forall d :: d != c && d in a.inFlight ==> d in b.inFlight && b.inFlight[d] == a.inFlight[d])
    && (forall d :: d != c && d in b.inFlight ==> d in a.inFlight)
    && (forall d :: d != c ==> Get(b.filled, d) == Get(a.filled, d))
  }

  /** A section about a client id that no accepted order has. */
  lemma AboutNoOrder(a: RouterState, b: RouterState, c: string, accepted: Orders, open: set<nat>, handled: Log,
                     handled': Log, cleared: set<string>)
    requires AllFollowed(a, accepted, open, handled, cleared) && OnlyAbout(a, b, c)
    requires forall id :: id in accepted ==> accepted[id].clientId != c
    requires forall id :: id in accepted ==> TallyOf(handled', id) == TallyOf(handled, id)
    ensures AllFollowed(b, accepted, open, handled', cleared)
  {
    forall id | id in accepted
      ensures Follows(b, accepted[id], TallyOf(handled', id), id in open, accepted[id].clientId in cleared)
    {
      assert Follows(a, accepted[id], TallyOf(handled, id), id in open, accepted[id].clientId in cleared);
    }
  }

  /** A section about the client id of one accepted order. */
  lemma AboutOrder(a: RouterState, b: RouterState, id: nat, accepted: Orders, open: set<nat>, handled: Log,
                   handled': Log, cleared: set<string>)
    requires AllFollowed(a, accepted, open, handled, cleared) && Unique(accepted)
    requires id in accepted && OnlyAbout(a, b, accepted[id].clientId)
    requires forall i :: i != id ==> TallyOf(handled', i) == TallyOf(handled, i)
    requires Follows(b, accepted[id], TallyOf(handled', id), id in open, accepted[id].clientId in cleared)
    ensures AllFollowed(b, accepted, open, handled', cleared)
  {
    forall i | i in accepted && i != id
      ensures Follows(b, accepted[i], TallyOf(handled', i), i in open, accepted[i].clientId in cleared)
    {
      assert Follows(a, accepted[i], TallyOf(handled, i), i in open, accepted[i].clientId in cleared);
      assert accepted[i].clientId != accepted[id].clientId;
    }
  }

  // ---------------------------------------------------------------- the broker moves

  lemma UnderwayGrows(s: P.System, log: Log, log': Log, accepted: Orders, accepted': Orders, cleared: set<string>)
    requires Underway(s, log, accepted, cleared) && Extends(log', log)
    requires forall id :: id in accepted ==> id in accepted' && accepted'[id] == accepted[id]
    ensures Underway(s, log', accepted', cleared)
  {
    forall k | k in s.calls && s.calls[k].reply.Some?
      ensures Kept(s.calls[k].request, s.calls[k].reply.value, log', accepted')
    {
      assert Kept(s.calls[k].request, s.calls[k].reply.value, log, accepted);
      if !s.calls[k].reply.value.accepted { RefusedForGood(log', log, s.calls[k].request.clientId); }
    }
  }

  lemma SeenGrows(s: P.System, b: Book, b': Book)
    requires Seen(s, b) && b'.seen == b.seen && b'.accepted == b.accepted && Extends(b'.log, b.log)
    ensures Seen(s, b')
  {
    forall c | c in b'.seen ensures Refused(b'.log, c) || Accepted(b', c) {
      if Refused(b.log, c) { RefusedForGood(b'.log, b.log, c); } else { StillAccepted(b, b', c); }
    }
  }

  lemma StillAccepted(b: Book, b': Book, c: string)
    requires Accepted(b, c) && forall id :: id in b.accepted ==> id in b'.accepted && b'.accepted[id] == b.accepted[id]
    ensures Accepted(b', c)
  {
    var id :| id in b.accepted && b.accepted[id].clientId == c;
    assert b'.accepted[id].clientId == c;
  }

  /** Anything but a placement at the broker; the router's ledger stays as it is. */
  lemma BrokerLinked(cfg: Config, f: Floor, a: Action, s': P.System)
    requires Linked(cfg, f) && !a.Place? && P.Invariant(s')
    requires s'.r == f.s.r && s'.calls == f.s.calls && s'.replies == f.s.replies
    ensures Linked(cfg, Floor(s', Step(cfg, f.b, a), f.handled, f.cleared))
  {
    var b' := Step(cfg, f.b, a);
    StepHolds(cfg, f.b, a);
    StepFaithful(cfg, f.b, a);
    StepLeaves(cfg, f.b, a);
    StepLater(cfg, f.b, a);
    ExtendsTransitive(b'.log, f.b.log, f.handled);
    UnderwayGrows(f.s, f.b.log, b'.log, f.b.accepted, b'.accepted, f.cleared);
    SeenGrows(f.s, f.b, b');
    FewerOpen(f.s.r, f.b.accepted, f.b.open.Keys, b'.open.Keys, f.handled, f.cleared);
  }

  lemma FewerOpen(r: RouterState, accepted: Orders, open: set<nat>, open': set<nat>, handled: Log, cleared: set<string>)
    requires AllFollowed(r, accepted, open, handled, cleared) && open' <= open
    ensures AllFollowed(r, accepted, open', handled, cleared)
  {
    forall id | id in accepted
      ensures Follows(r, accepted[id], TallyOf(handled, id), id in open', accepted[id].clientId in cleared)
    {
      assert Follows(r, accepted[id], TallyOf(handled, id), id in open, accepted[id].clientId in cleared);
    }
  }

  // ---------------------------------------------------------------- a submission begins and is answered

  lemma BeginLinked(cfg: Config, f: Floor, call: nat, r: OrderRequest)
    requires Linked(cfg, f) && Enabled(f, Begin(call, r))
    ensures Linked(cfg, Next(cfg, f, Begin(call, r)))
  {
    var s' := P.Next(f.s, P.Begin(call, r));
    P.StepKeeps(f.s, P.Begin(call, r));
    if !IsDuplicate(f.s.r, r.clientId) {
      assert r.clientId !in f.b.seen by { assert Get(f.s.replies, r.clientId) != 1; }
      AboutNoOrder(f.s.r, s'.r, r.clientId, f.b.accepted, f.b.open.Keys, f.handled, f.handled, f.cleared);
      assert Underway(s', f.b.log, f.b.accepted, f.cleared);
      NotRefused(f.b.log, f.handled, f.b.accepted, f.b.seen, f.b.sequence, r.clientId);
      assert Untold(s'.r, f.b.seen, f.handled);
    }
  }

  lemma {:induction false} RefusedWasSeen(log: Log, accepted: Orders, seen: set<string>, sequence: nat, c: string)
    requires Named(log, accepted, seen, sequence) && Refused(log, c)
    ensures c in seen && forall id :: id in accepted ==> accepted[id].clientId != c
  {
    if !(log.last.Rejected? && log.last.order.clientId == c) {
      RefusedWasSeen(log.earlier, accepted, seen, sequence, c);
    }
  }

  lemma NotRefused(log: Log, handled: Log, accepted: Orders, seen: set<string>, sequence: nat, c: string)
    requires Named(log, accepted, seen, sequence) && Extends(log, handled) && c !in seen
    ensures !Refused(log, c) && !Refused(handled, c)
  {
    if Refused(handled, c) { RefusedForGood(log, handled, c); }
    if Refused(log, c) { RefusedWasSeen(log, accepted, seen, sequence, c); }
  }

  lemma ReplyLinked(cfg: Config, f: Floor, call: nat, rejected: bool)
    requires Linked(cfg, f) && Enabled(f, Reply(call, rejected))
    ensures Linked(cfg, Next(cfg, f, Reply(call, rejected)))
  {
    var r, b, ack := f.s.calls[call].request, f.b, Answer(f, call, rejected);
    var b', s' := PlaceOrder(cfg, b, r, rejected), P.Next(f.s, P.Reply(call, ack));
    P.StepKeeps(f.s, P.Reply(call, ack));
    assert r.clientId !in b.seen by { assert Get(f.s.replies, r.clientId) == 0; }
    PlaceHolds(cfg, b, r, rejected);
    PlaceFaithful(cfg, b, r, rejected);
    PlaceAdmits(cfg, b, r, rejected);
    ExtendsTransitive(b'.log, b.log, f.handled);
    ReplySeen(f, call, rejected, b', s');
    ReplyUnderway(f, call, rejected, b', s');
    ReplyFollowed(cfg, f, call, rejected, b');
  }

  /** The answer that a submission gets is the broker's own. */
  lemma AnswerIsTheBrokers(cfg: Config, f: Floor, call: nat, rejected: bool)
    requires Linked(cfg, f) && Enabled(f, Reply(call, rejected))
    ensures Some(Answer(f, call, rejected)) == AckFor(f.b, f.s.calls[call].request, rejected)
  {
    assert Get(f.s.replies, f.s.calls[call].request.clientId) == 0;
  }

  lemma ReplySeen(f: Floor, call: nat, rejected: bool, b': Book, s': P.System)
    requires Seen(f.s, f.b) && Known(f.b.accepted, f.b.seen, f.b.sequence)
    requires call in f.s.calls && f.s.calls[call].reply.None?
    requires f.s.calls[call].request.clientId !in f.b.seen && Get(f.s.replies, f.s.calls[call].request.clientId) == 0
    requires Admitted(f.b, f.s.calls[call].request, rejected, b')
    requires s' == P.Next(f.s, P.Reply(call, Answer(f, call, rejected)))
    ensures Seen(s', b')
  {
    var r := f.s.calls[call].request;
    assert forall d :: Get(s'.replies, d) == if d == r.clientId then 1 else Get(f.s.replies, d);
    forall c | c in b'.seen ensures Refused(b'.log, c) || Accepted(b', c) {
      if c == r.clientId {
        if !rejected { assert b'.accepted[f.b.sequence + 1].clientId == c; }
      } else if Refused(f.b.log, c) {
        RefusedForGood(b'.log, f.b.log, c);
      } else {
        StillAccepted(f.b, b', c);
      }
    }
  }

  lemma ReplyUnderway(f: Floor, call: nat, rejected: bool, b': Book, s': P.System)
    requires Underway(f.s, f.b.log, f.b.accepted, f.cleared) && Known(f.b.accepted, f.b.seen, f.b.sequence)
    requires call in f.s.calls && f.s.calls[call].reply.None?
    requires Admitted(f.b, f.s.calls[call].request, rejected, b')
    requires s' == P.Next(f.s, P.Reply(call, Answer(f, call, rejected)))
    ensures Underway(s', b'.log, b'.accepted, f.cleared)
  {
    UnderwayGrows(f.s, f.b.log, b'.log, f.b.accepted, b'.accepted, f.cleared);
    assert rejected ==> Refused(b'.log, f.s.calls[call].request.clientId);
  }

  lemma ReplyFollowed(cfg: Config, f: Floor, call: nat, rejected: bool, b': Book)
    requires Linked(cfg, f) && call in f.s.calls && f.s.calls[call].reply.None?
    requires f.s.calls[call].request.clientId !in f.b.seen
    requires Admitted(f.b, f.s.calls[call].request, rejected, b')
    ensures AllFollowed(f.s.r, b'.accepted, b'.open.Keys, f.handled, f.cleared)
  {
    if !rejected {
      var r, id := f.s.calls[call].request, f.b.sequence + 1;
      NothingHandledYet(cfg, f.b, f.handled, id);
      OneMoreFollowed(f.s.r, f.b.accepted, f.b.open.Keys, f.handled, f.cleared, id, r, b'.open.Keys);
    }
  }

  lemma NothingHandledYet(cfg: Config, b: Book, handled: Log, id: nat)
    requires Invariant(cfg, b) && Extends(b.log, handled) && id > b.sequence
    ensures id !in b.accepted && TallyOf(handled, id) == Tally(0, 0, 0)
  {
    assert TallyOf(b.log, id) == Tally(0, 0, 0);
    TallyGrows(b.log, handled, id);
  }

  lemma OneMoreFollowed(s: RouterState, accepted: Orders, open: set<nat>, handled: Log, cleared: set<string>,
                        id: nat, r: OrderRequest, open': set<nat>)
    requires AllFollowed(s, accepted, open, handled, cleared) && id !in accepted && open' <= open + {id}
    requires TallyOf(handled, id) == Tally(0, 0, 0) && Get(s.filled, r.clientId) == 0
    requires if r.clientId in s.inFlight then s.inFlight[r.clientId] == r else r.clientId in cleared
    ensures AllFollowed(s, accepted[id := r], open', handled, cleared)
  {
    forall i | i in accepted && i != id
      ensures Follows(s, accepted[i], TallyOf(handled, i), i in open', accepted[i].clientId in cleared)
    {
      assert Follows(s, accepted[i], TallyOf(handled, i), i in open, accepted[i].clientId in cleared);
    }
  }

  // ---------------------------------------------------------------- a submission ends

  /** A section that ends with its client id out of flight, and touches no other. */
  lemma RetireLinked(cfg: Config, f: Floor, s': P.System, c: string)
    requires Linked(cfg, f) && P.Invariant(s') && OnlyAbout(f.s.r, s'.r, c) && c !in s'.r.inFlight
    requires forall k :: k in s'.calls ==> k in f.s.calls && s'.calls[k] == f.s.calls[k]
    requires forall k :: k in s'.calls && s'.calls[k].reply.None? ==> s'.calls[k].request.clientId != c
    requires s'.replies == f.s.replies && f.s.r.completed <= s'.r.completed
    requires c !in f.b.seen ==> Get(s'.r.filled, c) == 0
    requires forall id :: id in f.b.accepted && f.b.accepted[id].clientId == c ==> c in f.cleared || id !in f.b.open
    ensures Linked(cfg, f.(s := s'))
  {
    forall id | id in f.b.accepted
      ensures Follows(s'.r, f.b.accepted[id], TallyOf(f.handled, id), id in f.b.open.Keys,
                      f.b.accepted[id].clientId in f.cleared)
    {
      assert Follows(f.s.r, f.b.accepted[id], TallyOf(f.handled, id), id in f.b.open.Keys,
                     f.b.accepted[id].clientId in f.cleared);
    }
  }

  lemma FailLinked(cfg: Config, f: Floor, call: nat, locked: bool)
    requires Linked(cfg, f) && Enabled(f, Fail(call, locked))
    ensures Linked(cfg, Next(cfg, f, Fail(call, locked)))
  {
    var s', c := P.Next(f.s, P.Fail(call, locked)), f.s.calls[call].request.clientId;
    P.StepKeeps(f.s, P.Fail(call, locked));
    if locked {
      assert c !in f.b.seen by { assert Get(f.s.replies, c) == 0; }
      RetireLinked(cfg, f, s', c);
    }
  }

  lemma FinishLinked(cfg: Config, f: Floor, call: nat, ending: P.Ending, now: int)
    requires Linked(cfg, f) && Enabled(f, Finish(call, ending, now))
    ensures Linked(cfg, Next(cfg, f, Finish(call, ending, now)))
  {
    var s', c := P.Next(f.s, P.Finish(call, ending, now)), f.s.calls[call].request.clientId;
    P.StepKeeps(f.s, P.Finish(call, ending, now));
    ConcludeAbout(f.s.r, f.s.calls[call].request, f.s.calls[call].reply.value, ending, now);
    P.ConcludeRetires(f.s.r, f.s.calls[call].request, f.s.calls[call].reply.value, ending, now);
    if f.s.calls[call].reply.value.accepted || ending.LockUnavailable? {
      QuietLinked(cfg, f, s');
    } else {
      RefusedWasSeen(f.b.log, f.b.accepted, f.b.seen, f.b.sequence, c);
      RetireLinked(cfg, f, s', c);
    }
  }

  /** A finished submission changes flight or counts only if it was refused, and then only of its own id. */
  lemma ConcludeAbout(r: RouterState, request: OrderRequest, ack: OrderAck, ending: P.Ending, now: int)
    ensures var r' := P.Conclude(r, request, ack, ending, now);
            if ack.accepted || ending.LockUnavailable? then r'.inFlight == r.inFlight && r'.filled == r.filled
            else OnlyAbout(r, r', request.clientId) && request.clientId !in r'.inFlight
  {
  }

  /** A section that changes neither flight nor counts. */
  lemma QuietLinked(cfg: Config, f: Floor, s': P.System)
    requires Linked(cfg, f) && P.Invariant(s')
    requires s'.r.inFlight == f.s.r.inFlight && s'.r.filled == f.s.r.filled && f.s.r.completed <= s'.r.completed
    requires forall k :: k in s'.calls ==> k in f.s.calls && s'.calls[k] == f.s.calls[k]
    requires s'.replies == f.s.replies
    ensures Linked(cfg, f.(s := s'))
  {
    forall id | id in f.b.accepted
      ensures Follows(s'.r, f.b.accepted[id], TallyOf(f.handled, id), id in f.b.open.Keys,
                      f.b.accepted[id].clientId in f.cleared)
    {
      assert Follows(f.s.r, f.b.accepted[id], TallyOf(f.handled, id), id in f.b.open.Keys,
                     f.b.accepted[id].clientId in f.cleared);
    }
  }

  lemma CancelDoneLinked(cfg: Config, f: Floor, c: string)
    requires Linked(cfg, f) && Enabled(f, CancelDone(c))
    ensures Linked(cfg, Next(cfg, f, CancelDone(c)))
  {
    var s' := P.Next(f.s, P.Cancelled(c));
    P.StepKeeps(f.s, P.Cancelled(c));
    assert c in f.b.seen by {
      var id :| id in f.b.accepted && f.b.accepted[id].clientId == c;
    }
    NoneOpen(f.b, c);
    CompleteAbout(f.s.r, c);
    RetireLinked(cfg, f, s', c);
  }

  lemma NoneOpen(b: Book, c: string)
    requires Registered(b.accepted, b.open) && !Working(b, c)
    ensures forall id :: id in b.accepted && b.accepted[id].clientId == c ==> id !in b.open
  {
  }

  lemma CompleteAbout(r: RouterState, c: string)
    ensures OnlyAbout(r, MarkCompleted(r, c), c) && c !in MarkCompleted(r, c).inFlight
    ensures r.completed <= MarkCompleted(r, c).completed
  {
  }

  lemma ClearLinked(cfg: Config, f: Floor)
    requires Linked(cfg, f) && Enabled(f, Clear)
    ensures Linked(cfg, Next(cfg, f, Clear))
  {
    var f' := Next(cfg, f, Clear);
    P.StepKeeps(f.s, P.Clear);
    forall id | id in f.b.accepted
      ensures Follows(f'.s.r, f.b.accepted[id], TallyOf(f.handled, id), id in f.b.open.Keys,
                      f.b.accepted[id].clientId in f'.cleared)
    {
      assert Follows(f.s.r, f.b.accepted[id], TallyOf(f.handled, id), id in f.b.open.Keys,
                     f.b.accepted[id].clientId in f.cleared);
    }
  }

  // ---------------------------------------------------------------- the router handles an event

  lemma {:induction false} WaitingNamed(log: Log, handled: Log, accepted: Orders, seen: set<string>, sequence: nat)
    requires Named(log, accepted, seen, sequence) && Extends(log, handled) && log != handled
    ensures var e := Waiting(log, handled);
            if e.Rejected? then
              && e.order.clientId in seen && e.id !in accepted
              && forall id :: id in accepted ==> accepted[id].clientId != e.order.clientId
            else e.id in accepted && accepted[e.id] == e.order
    decreases log
  {
    if log.earlier != handled { WaitingNamed(log.earlier, handled, accepted, seen, sequence); }
  }

  /** What an event of this client does to flight and counts. */
  lemma ToldOnlyAbout(r: RouterState, e: Event, newId: string)
    ensures OnlyAbout(r, HandleEvent(r, Told(e), newId).0, e.order.clientId)
    ensures HandleEvent(r, Told(e), newId).0.inFlight.Keys <= r.inFlight.Keys
    ensures e.Acked? ==> var r' := HandleEvent(r, Told(e), newId).0; r'.inFlight == r.inFlight && r'.filled == r.filled
    ensures e.Cancelled? || e.Rejected? ==> e.order.clientId !in HandleEvent(r, Told(e), newId).0.inFlight
  {
    if e.Filled? {
      FillIsRecorded(r, e, newId);
      RecordAbout(r, e.order.clientId, e.quantity);
    }
  }

  /** Compensating an abandoned entry leaves flight and counts as recording the fill leaves them. */
  lemma FillIsRecorded(r: RouterState, e: Event, newId: string)
    requires e.Filled?
    ensures var r', r1 := HandleEvent(r, Told(e), newId).0, RecordFill(r, e.order.clientId, e.quantity);
            r'.inFlight == r1.inFlight && r'.filled == r1.filled
  {
  }

  lemma RecordAbout(r: RouterState, c: string, q: nat)
    ensures OnlyAbout(r, RecordFill(r, c, q), c) && RecordFill(r, c, q).inFlight.Keys <= r.inFlight.Keys
  {
  }

  /** A fill is counted exactly, and takes the id out of flight exactly when the order is full. */
  lemma ToldFill(r: RouterState, e: Event, newId: string)
    requires e.Filled?
    ensures var c, r' := e.order.clientId, HandleEvent(r, Told(e), newId).0;
            c in r.inFlight ==>
              && (c in r'.inFlight <==> Get(r.filled, c) + e.quantity < r.inFlight[c].quantity)
              && (c in r'.inFlight ==>
                    r'.inFlight[c] == r.inFlight[c] && Get(r'.filled, c) == Get(r.filled, c) + e.quantity)
  {
    FillIsRecorded(r, e, newId);
  }

  /** The router's view of the order after it handled the event. */
  lemma ToldFollows(r: RouterState, e: Event, newId: string, t: Tally, open: bool, cleared: bool)
    requires Follows(r, e.order, t, open, cleared) && !e.Rejected?
    requires var t' := Count(t, e, e.id); open ==> t'.filled < e.order.quantity && t'.cancelled == 0
    ensures Follows(HandleEvent(r, Told(e), newId).0, e.order, Count(t, e, e.id), open, cleared)
  {
    ToldOnlyAbout(r, e, newId);
    if e.Filled? { ToldFill(r, e, newId); }
  }

  lemma OpenIsUnfinished(cfg: Config, b: Book, handled: Log, id: nat)
    requires Invariant(cfg, b) && Extends(b.log, handled) && id in b.accepted && id in b.open
    ensures TallyOf(handled, id).filled < b.accepted[id].quantity && TallyOf(handled, id).cancelled == 0
  {
    TallyGrows(b.log, handled, id);
    assert Account(b.accepted[id], b.open, TallyOf(b.log, id), id, id in {});
  }

  lemma DeliverLinked(cfg: Config, f: Floor, newId: string)
    requires Linked(cfg, f) && Enabled(f, Deliver(newId))
    ensures Linked(cfg, Next(cfg, f, Deliver(newId)))
  {
    var e, f' := Waiting(f.b.log, f.handled), Next(cfg, f, Deliver(newId));
    P.StepKeeps(f.s, P.Event(Told(e), newId));
    P.EventRetires(f.s.r, Told(e), newId);
    HandleOne(f.b.log, f.handled);
    WaitingNamed(f.b.log, f.handled, f.b.accepted, f.b.seen, f.b.sequence);
    ToldOnlyAbout(f.s.r, e, newId);
    DeliverFollowed(cfg, f, newId, e);
  }

  lemma DeliverFollowed(cfg: Config, f: Floor, newId: string, e: Event)
    requires Linked(cfg, f) && Extends(f.b.log, Then(f.handled, e))
    requires if e.Rejected? then forall id :: id in f.b.accepted ==> f.b.accepted[id].clientId != e.order.clientId
             else e.id in f.b.accepted && f.b.accepted[e.id] == e.order
    ensures AllFollowed(HandleEvent(f.s.r, Told(e), newId).0, f.b.accepted, f.b.open.Keys, Then(f.handled, e),
                        f.cleared)
  {
    var r', handled' := HandleEvent(f.s.r, Told(e), newId).0, Then(f.handled, e);
    ToldOnlyAbout(f.s.r, e, newId);
    if e.Rejected? {
      AboutNoOrder(f.s.r, r', e.order.clientId, f.b.accepted, f.b.open.Keys, f.handled, handled', f.cleared);
    } else {
      if e.id in f.b.open { OpenIsUnfinished(cfg, f.b, handled', e.id); }
      assert Follows(f.s.r, e.order, TallyOf(f.handled, e.id), e.id in f.b.open.Keys, e.order.clientId in f.cleared);
      ToldFollows(f.s.r, e, newId, TallyOf(f.handled, e.id), e.id in f.b.open.Keys, e.order.clientId in f.cleared);
      AboutOrder(f.s.r, r', e.id, f.b.accepted, f.b.open.Keys, f.handled, handled', f.cleared);
    }
  }

  // ---------------------------------------------------------------- every run

  lemma StepLinked(cfg: Config, f: Floor, m: Move)
    requires Linked(cfg, f) && Enabled(f, m)
    ensures Linked(cfg, Next(cfg, f, m))
  {
    match m
    case Begin(call, r) => BeginLinked(cfg, f, call, r);
    case Reply(call, rejected) => ReplyLinked(cfg, f, call, rejected);
    case Fail(call, locked) => FailLinked(cfg, f, call, locked);
    case Finish(call, ending, now) => FinishLinked(cfg, f, call, ending, now);
    case Deliver(newId) => DeliverLinked(cfg, f, newId);
    case Market(a) => BrokerLinked(cfg, f, a, f.s);
    case Sweep =>
      P.StepKeeps(f.s, P.Sweep);
      BrokerLinked(cfg, f, CancelAll, P.Next(f.s, P.Sweep));
    case Clear => ClearLinked(cfg, f);
    case CancelDone(c) => CancelDoneLinked(cfg, f, c);
    case Abandon(c, r) =>
      P.StepKeeps(f.s, P.Abandoned(c, r));
      QuietLinked(cfg, f, P.Next(f.s, P.Abandoned(c, r)));
    case Forget(c) =>
      P.StepKeeps(f.s, P.Forgotten(c));
      QuietLinked(cfg, f, P.Next(f.s, P.Forgotten(c)));
  }

  lemma {:induction false} RunLinked(cfg: Config, f: Floor, moves: seq<Move>, f': Floor)
    requires Linked(cfg, f) && Reaches(cfg, f, moves, f')
    ensures Linked(cfg, f')
    decreases |moves|
  {
    if moves != [] {
      StepLinked(cfg, f, moves[0]);
      RunLinked(cfg, Next(cfg, f, moves[0]), moves[1..], f');
    }
  }

  // ---------------------------------------------------------------- once every event is handled

  lemma WorkingIsAccepted(cfg: Config, f: Floor, c: string)
    requires Linked(cfg, f) && Working(f.b, c)
    ensures Accepted(f.b, c) && c in f.b.seen
  {
    var id :| id in f.b.open && f.b.open[id].request.clientId == c;
    assert f.b.accepted[id].clientId == c;
  }

  lemma FlightOf(cfg: Config, f: Floor, id: nat)
    requires Linked(cfg, f) && f.handled == f.b.log && id in f.b.accepted
    ensures var c := f.b.accepted[id].clientId;
            && (c in f.s.r.inFlight <==> id in f.b.open && c !in f.cleared)
            && (c in f.s.r.inFlight ==> Get(f.s.r.filled, c) == f.b.open[id].filled)
  {
    assert Follows(f.s.r, f.b.accepted[id], TallyOf(f.handled, id), id in f.b.open.Keys,
                   f.b.accepted[id].clientId in f.cleared);
    assert Account(f.b.accepted[id], f.b.open, TallyOf(f.b.log, id), id, id in {});
  }

  /**
    In every run of router and broker together: once the router has handled all events, the ids in flight that
    the broker has answered are exactly those of the orders that the broker works, but for orders whose
    ledger entry a cancel-all cleared; and the router's fill count of each is exact.
   */
  lemma FlightIsWhatWorks(cfg: Config, price: real, moves: seq<Move>, f: Floor, c: string)
    requires Reaches(cfg, Opening(price), moves, f) && f.handled == f.b.log && Get(f.s.replies, c) == 1
    ensures c in f.s.r.inFlight <==> Working(f.b, c) && c !in f.cleared
    ensures c in f.s.r.inFlight ==>
              exists id :: id in f.b.open && f.b.open[id].request.clientId == c
                && f.b.open[id].filled == Get(f.s.r.filled, c)
  {
    OpeningLinked(cfg, price);
    RunLinked(cfg, Opening(price), moves, f);
    if Accepted(f.b, c) {
      var id :| id in f.b.accepted && f.b.accepted[id].clientId == c;
      FlightOf(cfg, f, id);
      if id in f.b.open { assert f.b.open[id].request.clientId == c; }
      if Working(f.b, c) {
        var j :| j in f.b.open && f.b.open[j].request.clientId == c;
        assert f.b.accepted[j].clientId == f.b.accepted[id].clientId;
      }
    } else {
      if Working(f.b, c) { WorkingIsAccepted(cfg, f, c); }
    }
  }

  // ---------------------------------------------------------------- events handled before the submission ends

  /**
    If the router handles every event before an accepted entry's submission ends, that end finds the entry
    orphaned, and neutralizes it, exactly when a cancel-all cleared the ledger or the order is finished.
   */
  lemma NeutralizedExactlyWhen(cfg: Config, f: Floor, call: nat, now: int)
    requires Linked(cfg, f) && f.handled == f.b.log && Enabled(f, Finish(call, P.Checked, now))
    requires f.s.calls[call].request.intent.Entry? && f.s.calls[call].reply.value.accepted
    ensures var c, ack := f.s.calls[call].request.clientId, f.s.calls[call].reply.value;
            && ack.brokerOrderId.Some?
            && (P.Neutralizes(f.s, P.Finish(call, P.Checked, now)) <==>
                  c in f.cleared || ack.brokerOrderId.value !in f.b.open)
  {
    var request, ack := f.s.calls[call].request, f.s.calls[call].reply.value;
    assert Kept(request, ack, f.b.log, f.b.accepted);
    FlightOf(cfg, f, ack.brokerOrderId.value);
  }

  ghost predicate OnlyDelivers(moves: seq<Move>) {
    forall i :: 0 <= i < |moves| ==> moves[i].Deliver?
  }

  lemma {:induction false} DeliversKeep(cfg: Config, f: Floor, moves: seq<Move>, f': Floor)
    requires Reaches(cfg, f, moves, f') && OnlyDelivers(moves)
    ensures f'.b == f.b && f'.s.calls == f.s.calls && f'.cleared == f.cleared
    decreases |moves|
  {
    if moves != [] { DeliversKeep(cfg, Next(cfg, f, moves[0]), moves[1..], f'); }
  }
}
