/**
  The risk check over the router's concurrent runs: which orders pass, in plain terms, and how far apart in time
  the entries are that the cooldown lets through.
 */
module OrderThrottle {
  import opened Domain
  import opened OrderRouter
  import opened RiskManager
  import P = RouterProtocol

  // ---------------------------------------------------------------- what the check lets through

  /** Signed contracts after the whole order. */
  function PositionAfter(position: int, r: OrderRequest): int {
    if r.action.Long? then position + r.quantity else position - r.quantity
  }

  /** The order has no price, the limits are unknown, or the price lies between them. */
  predicate PriceAllowed(r: OrderRequest, limits: Option<(real, real)>) {
    r.price.None? || limits.None? || !(r.price.value < limits.value.0 || r.price.value > limits.value.1)
  }

  /**
    An emergency order always passes, any other closing order whenever the session is open and its price allowed;
    an entry only while the engine runs, the day's loss and number of trades are below their limits, the position
    cannot exceed its own, and the cooldown since the last accepted order is over.
   */
  lemma PassesExactlyWhen(l: Limits, r: OrderRequest, ctx: Context)
    ensures Check(l, r, ctx) == Approved <==>
            match r.intent
            case Emergency => true
            case Entry =>
              && ctx.sessionOpen && !ctx.halted && PriceAllowed(r, ctx.priceLimits)
              && -ctx.totalPnl < l.maxDailyLoss && ctx.tradeCount + 1 <= l.maxTrades
              && 0 <= PositionAfter(ctx.position, r) + l.maxPosition && PositionAfter(ctx.position, r) <= l.maxPosition
              && (ctx.lastOrderAt.Some? ==> ctx.lastOrderAt.value + l.cooldown <= ctx.now)
            case _ => ctx.sessionOpen && PriceAllowed(r, ctx.priceLimits)
  {
  }

  // ---------------------------------------------------------------- the cooldown over every run

  /** The step records the acceptance of an order: its submission ends, and its id is known to the ledger. */
  predicate Records(s: P.System, step: P.Step)
    requires P.Enabled(s, step)
  {
    step.Finish? && s.calls[step.call].reply.value.accepted
    && match step.ending
       case Checked => s.calls[step.call].request.clientId in s.r.inFlight
       case Unchecked => true
       case LockUnavailable => false
  }

  /** The time of the last acceptance recorded over these steps. */
  ghost function LastRecorded(s: P.System, steps: seq<P.Step>, s': P.System, last: Option<int>): Option<int>
    requires P.Reachable(s, steps, s')
    decreases |steps|
  {
    if steps == [] then last
    else
      LastRecorded(P.Next(s, steps[0]), steps[1..], s', if Records(s, steps[0]) then Some(steps[0].now) else last)
  }

  lemma EventKeepsTime(r: RouterState, e: OrderEvent, newId: string)
    ensures HandleEvent(r, e, newId).0.lastSubmit == r.lastSubmit
  {
    if e.Fill? && EventClient(e).Some? {
      assert RecordFill(r, EventClient(e).value, e.fill.quantity).lastSubmit == r.lastSubmit;
    }
  }

  lemma StepRecords(s: P.System, step: P.Step)
    requires P.Enabled(s, step)
    ensures P.Next(s, step).r.lastSubmit == if Records(s, step) then Some(step.now) else s.r.lastSubmit
  {
    if step.Event? { EventKeepsTime(s.r, step.event, step.newId); }
  }

  lemma {:induction false} RunRecords(s: P.System, steps: seq<P.Step>, s': P.System)
    requires P.Reachable(s, steps, s')
    ensures s'.r.lastSubmit == LastRecorded(s, steps, s', s.r.lastSubmit)
    decreases |steps|
  {
    if steps != [] {
      StepRecords(s, steps[0]);
      RunRecords(P.Next(s, steps[0]), steps[1..], s');
    }
  }

  /**
    In every run, whatever submissions are under way: an entry that would otherwise pass is let through exactly when
    the cooldown has run since the last acceptance that a finished submission recorded.
   */
  lemma EntriesKeepDistance(steps: seq<P.Step>, s: P.System, l: Limits, r: OrderRequest, ctx: Context)
    requires P.Reachable(P.INITIAL, steps, s) && r.intent == Entry
    requires Check(l, r, ctx.(lastOrderAt := None)) == Approved
    ensures var last := LastRecorded(P.INITIAL, steps, s, None);
            Check(l, r, ctx.(lastOrderAt := s.r.lastSubmit)) == Approved
            <==> last.None? || ctx.now - last.value >= l.cooldown
  {
    RunRecords(P.INITIAL, steps, s);
    PassesExactlyWhen(l, r, ctx.(lastOrderAt := None));
    PassesExactlyWhen(l, r, ctx.(lastOrderAt := s.r.lastSubmit));
  }

  /**
    The cooldown does not separate submissions that overlap: while one entry's broker call is under way, the next
    entry passes the check at the same instant, and both are accepted.
   */
  lemma OverlappingEntriesPass(l: Limits, r1: OrderRequest, r2: OrderRequest, ack1: OrderAck, ack2: OrderAck,
                               ctx: Context) returns (steps: seq<P.Step>, more: seq<P.Step>, s: P.System, s': P.System)
    requires r1.intent == r2.intent == Entry && r1.clientId != r2.clientId && ack1.accepted && ack2.accepted
    requires Check(l, r1, ctx.(lastOrderAt := None)) == Check(l, r2, ctx.(lastOrderAt := None)) == Approved
    ensures P.Reachable(P.INITIAL, steps, s) && Check(l, r2, ctx.(lastOrderAt := s.r.lastSubmit)) == Approved
    ensures steps != [] && steps[0] == P.Begin(1, r1)
    ensures P.Reachable(s, more, s') && s'.taken.Keys == {r1.clientId, r2.clientId}
  {
    steps, more := [P.Begin(1, r1), P.Reply(1, ack1)], [P.Begin(2, r2), P.Reply(2, ack2)];
    var s1 := P.Next(P.INITIAL, steps[0]);
    s := P.Next(s1, steps[1]);
    var s2 := P.Next(s, more[0]);
    s' := P.Next(s2, more[1]);
    assert steps[1..] == [steps[1]] && more[1..] == [more[1]] && [steps[1]][1..] == [] && [more[1]][1..] == [];
    assert P.Reachable(s1, [steps[1]], s) && P.Reachable(s2, [more[1]], s');
  }
}
