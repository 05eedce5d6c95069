/**
  The router under concurrency. The broker call of a submission happens outside the lock, so any number
  of submissions, events, cancel-alls and cancel rounds interleave between the locked sections. A run is
  any sequence of the steps below; the broker may answer anything or fail. A reply is the moment at which
  the broker takes or refuses the order; a cancel-all is a sweep at the broker and, later, the clearing of
  the ledger.
 */
module RouterProtocol {
  import opened Domain
  import opened OrderRouter

  /** An outstanding submission; the reply is absent while the broker call is still running. */
  datatype Call = Call(request: OrderRequest, reply: Option<OrderAck>)

  datatype Ending = Checked | Unchecked | LockUnavailable

  datatype Step =
    | Begin(call: nat, request: OrderRequest)
    | Reply(call: nat, ack: OrderAck)
    | Fail(call: nat, locked: bool)
    | Finish(call: nat, ending: Ending, now: int)
    | Event(event: OrderEvent, newId: string)
    | Sweep
    | Clear
    | Cancelled(clientId: string)
    | Abandoned(clientId: string, request: OrderRequest)
    | Forgotten(clientId: string)

  /**
    `replies` counts, per client id, the broker calls that returned without an error. The next three are the
    broker's side: the quantity of each order it accepted, the contracts each has filled, and the orders it
    refused, cancelled or swept. `sweeps` counts sweeps whose ledger clearing is still due; `neutralized` holds
    the late entries that were dealt with.
   */
  datatype System = System(
    r: RouterState, calls: map<nat, Call>, replies: map<string, nat>,
    taken: map<string, nat>, fills: map<string, nat>, over: set<string>, sweeps: nat, neutralized: set<string>)

  const INITIAL: System := System(EMPTY, map[], map[], map[], map[], {}, 0, {})

  /** The broker accepted the order, has not ended it, and has not filled all of it. */
  predicate AtWork(s: System, c: string) {
    c in s.taken && c !in s.over && Get(s.fills, c) < s.taken[c]
  }

  predicate Enabled(s: System, step: Step) {
    match step
    case Begin(call, _) => call !in s.calls
    case Reply(call, _) => call in s.calls && s.calls[call].reply.None?
    case Fail(call, _) => call in s.calls && s.calls[call].reply.None?
    case Finish(call, _, _) => call in s.calls && s.calls[call].reply.Some?
    case Clear => s.sweeps > 0
    case _ => true
  }

  function Conclude(s: RouterState, r: OrderRequest, ack: OrderAck, ending: Ending, now: int): RouterState {
    match ending
    case Checked => if r.clientId in s.inFlight then Finalize(s, r, ack, now) else s
    case Unchecked => Finalize(s, r, ack, now)
    case LockUnavailable => s
  }

  /** The orphan test at the end of a checked submission asks for the entry to be neutralized. */
  predicate Neutralizes(s: System, step: Step)
    requires Enabled(s, step)
  {
    step.Finish? && step.ending.Checked? && s.calls[step.call].request.clientId !in s.r.inFlight
    && s.calls[step.call].reply.value.accepted && s.calls[step.call].request.intent.Entry?
  }

  predicate Completes(r: RouterState, c: string, q: nat) {
    c in r.inFlight && Get(r.filled, c) + q >= r.inFlight[c].quantity
  }

  /** The event tells the router that the order is over: refused, cancelled, or filled completely. */
  predicate Ends(r: RouterState, e: OrderEvent, c: string) {
    && EventClient(e) == Some(c)
    && match e
       case AckEvent(_, _) => false
       case Fill(f) => Completes(r, c, f.quantity)
       case RejectEvent(_) => true
       case CancelEvent(_, remaining) => remaining == 0
  }

  /** The event tells that the broker refused the order or cancelled what was left of it. */
  predicate Refuses(e: OrderEvent) {
    e.RejectEvent? || (e.CancelEvent? && e.remainingQuantity == 0)
  }

  function TellFill(fills: map<string, nat>, e: OrderEvent): map<string, nat> {
    if e.Fill? && EventClient(e).Some? then
      fills[EventClient(e).value := Get(fills, EventClient(e).value) + e.fill.quantity]
    else fills
  }

  function TellOver(over: set<string>, e: OrderEvent): set<string> {
    if Refuses(e) && EventClient(e).Some? then over + {EventClient(e).value} else over
  }

  function Next(s: System, step: Step): System
    requires Enabled(s, step)
  {
    match step
    case Begin(call, r) =>
      if IsDuplicate(s.r, r.clientId) then s
      else s.(r := Reserve(s.r, r), calls := s.calls[call := Call(r, None)])
    case Reply(call, ack) =>
      var c := s.calls[call].request.clientId;
      s.(calls := s.calls[call := s.calls[call].(reply := Some(ack))], replies := s.replies[c := Get(s.replies, c) + 1],
         taken := if ack.accepted then s.taken[c := s.calls[call].request.quantity] else s.taken)
    case Fail(call, locked) =>
      s.(r := if locked then Release(s.r, s.calls[call].request.clientId) else s.r, calls := s.calls - {call})
    case Finish(call, ending, now) =>
      s.(r := Conclude(s.r, s.calls[call].request, s.calls[call].reply.value, ending, now), calls := s.calls - {call},
         neutralized := if Neutralizes(s, step) then s.neutralized + {s.calls[call].request.clientId}
                        else s.neutralized)
    case Event(e, newId) =>
      s.(r := HandleEvent(s.r, e, newId).0, fills := TellFill(s.fills, e), over := TellOver(s.over, e))
    case Sweep => s.(over := s.over + s.taken.Keys, sweeps := s.sweeps + 1)
    case Clear => s.(r := ClearAll(s.r), sweeps := s.sweeps - 1)
    case Cancelled(c) => s.(r := MarkCompleted(s.r, c), over := s.over + {c})
    case Abandoned(c, r) => s.(r := MarkAbandoned(s.r, c, r))
    case Forgotten(c) => s.(r := DropAbandoned(s.r, c), over := s.over + {c})
  }

  ghost predicate Reachable(s: System, steps: seq<Step>, s': System)
    decreases |steps|
  {
    if steps == [] then s == s'
    else Enabled(s, steps[0]) && Reachable(Next(s, steps[0]), steps[1..], s')
  }

  // ---------------------------------------------------------------- at most once

  ghost predicate Known(r: RouterState, c: string) {
    c in r.inFlight || c in r.completed
  }

  ghost predicate Disjoint(r: RouterState) {
    forall c :: c in r.inFlight ==> c !in r.completed
  }

  ghost predicate OneCallEach(calls: map<nat, Call>) {
    forall j, k :: j in calls && k in calls && j != k ==> calls[j].request.clientId != calls[k].request.clientId
  }

  /** An id has an outstanding call or an answered one, and is taken exactly when the answer accepted it. */
  ghost predicate Answered(calls: map<nat, Call>, replies: map<string, nat>, taken: map<string, nat>) {
    && (forall k :: k in calls ==> Get(replies, calls[k].request.clientId) == if calls[k].reply.Some? then 1 else 0)
    && (forall k :: k in calls && calls[k].reply.Some? ==>
          (calls[k].reply.value.accepted <==> calls[k].request.clientId in taken))
    && (forall c :: c in taken ==> Get(replies, c) == 1)
  }

  ghost predicate AllKnown(r: RouterState, calls: map<nat, Call>, replies: map<string, nat>) {
    && (forall k :: k in calls ==> Known(r, calls[k].request.clientId))
    && (forall c :: Get(replies, c) == 1 ==> Known(r, c))
  }

  ghost predicate Invariant(s: System) {
    && Disjoint(s.r) && OneCallEach(s.calls)
    && Answered(s.calls, s.replies, s.taken) && AllKnown(s.r, s.calls, s.replies)
    && (forall c :: Get(s.replies, c) <= 1)
    && (forall c :: c in s.neutralized ==> Get(s.replies, c) == 1)
  }

  /** What a ledger section may do to a client id: keep it, or retire it for good. */
  ghost predicate Retires(a: RouterState, b: RouterState) {
    && (forall c :: c in b.inFlight ==> c in a.inFlight && c !in b.completed)
    && (forall c :: Known(a, c) ==> Known(b, c))
    && a.completed <= b.completed
  }

  lemma EventRetires(s: RouterState, e: OrderEvent, newId: string)
    requires Disjoint(s)
    ensures Retires(s, HandleEvent(s, e, newId).0)
  {
    if EventClient(e).Some? {
      var c := EventClient(e).value;
      if e.Fill? {
        FillRetires(s, c, e.fill.quantity);
      } else {
        assert Retires(s, MarkCompleted(s, c));
      }
    }
  }

  lemma FillRetires(s: RouterState, c: string, q: nat)
    requires Disjoint(s)
    ensures Retires(s, RecordFill(s, c, q))
  {
  }

  lemma ConcludeRetires(s: RouterState, r: OrderRequest, ack: OrderAck, ending: Ending, now: int)
    requires Disjoint(s)
    ensures Retires(s, Conclude(s, r, ack, ending, now))
  {
  }

  lemma RetireKeeps(s: System, r: RouterState, fills: map<string, nat>, over: set<string>, sweeps: nat)
    requires Invariant(s) && Retires(s.r, r)
    ensures Invariant(s.(r := r, fills := fills, over := over, sweeps := sweeps))
  {
  }

  lemma StepKeeps(s: System, step: Step)
    requires Invariant(s) && Enabled(s, step)
    ensures Invariant(Next(s, step))
  {
    match step
    case Begin(call, r) => BeginKeeps(s, call, r);
    case Reply(call, ack) => ReplyKeeps(s, call, ack);
    case Fail(call, locked) => FailKeeps(s, call, locked);
    case Finish(call, ending, now) =>
      ConcludeRetires(s.r, s.calls[call].request, s.calls[call].reply.value, ending, now);
      var r := Conclude(s.r, s.calls[call].request, s.calls[call].reply.value, ending, now);
      RetireKeeps(s, r, s.fills, s.over, s.sweeps);
    case Event(e, newId) =>
      EventRetires(s.r, e, newId);
      RetireKeeps(s, HandleEvent(s.r, e, newId).0, TellFill(s.fills, e), TellOver(s.over, e), s.sweeps);
    case Sweep => RetireKeeps(s, s.r, s.fills, s.over + s.taken.Keys, s.sweeps + 1);
    case Clear => RetireKeeps(s, ClearAll(s.r), s.fills, s.over, s.sweeps - 1);
    case Cancelled(c) => RetireKeeps(s, MarkCompleted(s.r, c), s.fills, s.over + {c}, s.sweeps);
    case Abandoned(c, r) => RetireKeeps(s, MarkAbandoned(s.r, c, r), s.fills, s.over, s.sweeps);
    case Forgotten(c) => RetireKeeps(s, DropAbandoned(s.r, c), s.fills, s.over + {c}, s.sweeps);
  }

  lemma BeginKeeps(s: System, call: nat, r: OrderRequest)
    requires Invariant(s) && Enabled(s, Begin(call, r))
    ensures Invariant(Next(s, Begin(call, r)))
  {
  }

  lemma ReplyKeeps(s: System, call: nat, ack: OrderAck)
    requires Invariant(s) && Enabled(s, Reply(call, ack))
    ensures Invariant(Next(s, Reply(call, ack)))
  {
    var s', c := Next(s, Reply(call, ack)), s.calls[call].request.clientId;
    assert Known(s.r, c) && Get(s.replies, c) == 0;
    ReplyAnswered(s.calls, s.replies, s.taken, call, ack);
    assert forall d :: Get(s'.replies, d) == if d == c then 1 else Get(s.replies, d);
  }

  lemma ReplyAnswered(calls: map<nat, Call>, replies: map<string, nat>, taken: map<string, nat>, call: nat,
                      ack: OrderAck)
    requires OneCallEach(calls) && Answered(calls, replies, taken) && call in calls && calls[call].reply.None?
    ensures var c, calls' := calls[call].request.clientId, calls[call := calls[call].(reply := Some(ack))];
            && OneCallEach(calls')
            && Answered(calls', replies[c := Get(replies, c) + 1],
                        if ack.accepted then taken[c := calls[call].request.quantity] else taken)
  {
  }

  lemma FailKeeps(s: System, call: nat, locked: bool)
    requires Invariant(s) && Enabled(s, Fail(call, locked))
    ensures Invariant(Next(s, Fail(call, locked)))
  {
  }

  lemma EventOnlyGrows(r: RouterState, e: OrderEvent, newId: string)
    ensures r.completed <= HandleEvent(r, e, newId).0.completed
  {
    if e.Fill? && EventClient(e).Some? {
      assert r.completed <= RecordFill(r, EventClient(e).value, e.fill.quantity).completed;
    }
  }

  lemma StepOnlyCompletes(s: System, step: Step)
    requires Enabled(s, step)
    ensures s.r.completed <= Next(s, step).r.completed
  {
    match step
    case Event(e, newId) => EventOnlyGrows(s.r, e, newId);
    case _ =>
  }

  lemma StepOnlyReplies(s: System, step: Step)
    requires Enabled(s, step)
    ensures forall c :: Get(s.replies, c) <= Get(Next(s, step).replies, c)
  {
  }

  lemma StepOnlyGrows(s: System, step: Step)
    requires Enabled(s, step)
    ensures s.r.completed <= Next(s, step).r.completed
    ensures forall c :: Get(s.replies, c) <= Get(Next(s, step).replies, c)
  {
    StepOnlyCompletes(s, step);
    StepOnlyReplies(s, step);
  }

  lemma {:induction false} RunKeeps(s: System, steps: seq<Step>, s': System)
    requires Invariant(s) && Reachable(s, steps, s')
    ensures Invariant(s') && s.r.completed <= s'.r.completed
    ensures forall c :: Get(s.replies, c) <= Get(s'.replies, c)
    decreases |steps|
  {
    if steps != [] {
      StepKeeps(s, steps[0]);
      StepOnlyGrows(s, steps[0]);
      RunKeeps(Next(s, steps[0]), steps[1..], s');
    }
  }

  /**
    At most once: over every interleaving, a client id gets at most one successful broker call, and from
    that call on it is refused for ever.
   */
  lemma AtMostOnce(steps: seq<Step>, s: System, more: seq<Step>, s': System, c: string)
    requires Reachable(INITIAL, steps, s) && Reachable(s, more, s')
    ensures s.r.inFlight.Keys * s.r.completed == {}
    ensures Get(s'.replies, c) <= 1
    ensures Get(s.replies, c) == 1 ==> IsDuplicate(s'.r, c)
  {
    assert Invariant(INITIAL);
    RunKeeps(INITIAL, steps, s);
    RunKeeps(s, more, s');
  }

  /** At the finish of any submission the orphan test fires exactly when the id is already completed. */
  lemma OrphanMeansCompleted(steps: seq<Step>, s: System, call: nat)
    requires Reachable(INITIAL, steps, s) && call in s.calls
    ensures var c := s.calls[call].request.clientId; c !in s.r.inFlight <==> c in s.r.completed
  {
    assert Invariant(INITIAL);
    RunKeeps(INITIAL, steps, s);
  }

  /**
    A submission outstanding while cancel-all clears the ledger is orphaned at its finish, whatever happens in
    between.
   */
  lemma BarrierOrphans(steps: seq<Step>, s: System, more: seq<Step>, s': System, call: nat)
    requires Reachable(INITIAL, steps, s) && call in s.calls && Enabled(s, Clear)
    requires Reachable(Next(s, Clear), more, s')
    ensures s.calls[call].request.clientId !in s'.r.inFlight
  {
    assert Invariant(INITIAL);
    RunKeeps(INITIAL, steps, s);
    StepKeeps(s, Clear);
    RunKeeps(Next(s, Clear), more, s');
  }

  /**
    The orphan test cannot tell a cancel-all from an entry that filled completely before its submission
    finished: there is a run without any cancel-all in which it fires on a filled entry.
   */
  lemma FullFillLooksOrphaned(r: OrderRequest, f: FillEvent, ack: OrderAck, newId: string)
    requires r.intent.Entry? && ack.accepted
    requires f.clientId == Some(r.clientId) && f.quantity == r.quantity
    ensures var steps := [Begin(0, r), Reply(0, ack), Event(Fill(f), newId)];
            exists s :: Reachable(INITIAL, steps, s) && 0 in s.calls && r.clientId !in s.r.inFlight
  {
    var steps := [Begin(0, r), Reply(0, ack), Event(Fill(f), newId)];
    var s1 := Next(INITIAL, steps[0]);
    var s2 := Next(s1, steps[1]);
    var s3 := Next(s2, steps[2]);
    assert steps[1..] == [steps[1], steps[2]] && steps[1..][1..] == [steps[2]] && [steps[2]][1..] == [];
    assert Reachable(s3, [], s3);
    assert Reachable(s2, [steps[2]], s3);
    assert Reachable(s1, steps[1..], s3);
    assert Reachable(INITIAL, steps, s3);
  }

  // ---------------------------------------------------------------- exactly when the orphan test fires

  /** The step takes this client id out of flight although its submission goes on. */
  predicate RetiresId(r: RouterState, step: Step, c: string) {
    match step
    case Clear => true
    case Cancelled(d) => d == c
    case Event(e, _) => Ends(r, e, c)
    case _ => false
  }

  /** Something retired the id of this call since the call began; `so` says whether it had happened before. */
  ghost predicate RetiredSinceBegin(s: System, steps: seq<Step>, s': System, call: nat, so: bool)
    requires Reachable(s, steps, s')
    decreases |steps|
  {
    if steps == [] then so
    else
      RetiredSinceBegin(Next(s, steps[0]), steps[1..], s', call,
                        call in s.calls && (so || RetiresId(s.r, steps[0], s.calls[call].request.clientId)))
  }

  predicate Orphaned(s: System, call: nat) {
    call in s.calls && s.calls[call].request.clientId !in s.r.inFlight
  }

  lemma StepOrphans(s: System, step: Step, call: nat)
    requires Invariant(s) && Enabled(s, step) && call in Next(s, step).calls
    ensures Orphaned(Next(s, step), call)
            <==> call in s.calls && (Orphaned(s, call) || RetiresId(s.r, step, s.calls[call].request.clientId))
  {
    if call in s.calls {
      var c := s.calls[call].request.clientId;
      match step
      case Fail(other, _) => assert other != call && s.calls[other].request.clientId != c;
      case Finish(other, _, _) => FinishOrphans(s, step, call);
      case Begin(_, r) => assert r.clientId == c ==> IsDuplicate(s.r, c);
      case Event(e, newId) => EventOrphans(s.r, e, newId, c);
      case _ =>
    }
  }

  lemma FinishOrphans(s: System, step: Step, call: nat)
    requires Invariant(s) && step.Finish? && Enabled(s, step) && call in s.calls && step.call != call
    ensures var c := s.calls[call].request.clientId; c in Next(s, step).r.inFlight <==> c in s.r.inFlight
  {
    assert s.calls[step.call].request.clientId != s.calls[call].request.clientId;
  }

  lemma EventOrphans(r: RouterState, e: OrderEvent, newId: string, c: string)
    ensures c in HandleEvent(r, e, newId).0.inFlight <==> c in r.inFlight && !Ends(r, e, c)
  {
  }

  lemma {:induction false} RunOrphans(s: System, steps: seq<Step>, s': System, call: nat, so: bool)
    requires Invariant(s) && Reachable(s, steps, s') && call in s'.calls
    requires call in s.calls ==> (so <==> Orphaned(s, call))
    requires steps == [] ==> call in s.calls
    ensures Orphaned(s', call) <==> RetiredSinceBegin(s, steps, s', call, so)
    decreases |steps|
  {
    if steps != [] {
      var next := Next(s, steps[0]);
      StepKeeps(s, steps[0]);
      if call in next.calls { StepOrphans(s, steps[0], call); }
      RunOrphans(next, steps[1..], s', call,
                 call in s.calls && (so || RetiresId(s.r, steps[0], s.calls[call].request.clientId)));
    }
  }

  /**
    In every run the orphan test finds an outstanding submission missing exactly when, since the submission
    began, the ledger was cleared, its own cancel succeeded, or an event said that its order was refused,
    cancelled or completely filled.
   */
  lemma OrphanExactlyWhen(steps: seq<Step>, s: System, call: nat)
    requires Reachable(INITIAL, steps, s) && call in s.calls
    ensures s.calls[call].request.clientId !in s.r.inFlight <==> RetiredSinceBegin(INITIAL, steps, s, call, false)
  {
    assert Invariant(INITIAL);
    RunOrphans(INITIAL, steps, s, call, false);
  }

  // ---------------------------------------------------------------- exactly what slips through a cancel-all

  /** The broker took the order with this step, and it was not already over by what was heard of it. */
  predicate AcceptsId(s: System, step: Step, c: string)
    requires Enabled(s, step)
  {
    step.Reply? && step.ack.accepted && s.calls[step.call].request.clientId == c
    && c !in s.over && Get(s.fills, c) < s.calls[step.call].request.quantity
  }

  /** The order is over at the broker with this step: cancelled, refused, or filled to its last contract. */
  predicate EndsId(s: System, step: Step, c: string) {
    match step
    case Cancelled(d) => d == c
    case Forgotten(d) => d == c
    case Event(e, _) =>
      EventClient(e) == Some(c)
      && (Refuses(e) || (e.Fill? && c in s.taken && Get(s.fills, c) + e.fill.quantity >= s.taken[c]))
    case _ => false
  }

  /** The broker took the order during these steps, and nothing ended it since. */
  ghost predicate TakenDuring(s: System, steps: seq<Step>, s': System, c: string, so: bool)
    requires Reachable(s, steps, s')
    decreases |steps|
  {
    if steps == [] then so
    else TakenDuring(Next(s, steps[0]), steps[1..], s', c, AcceptsId(s, steps[0], c) || (so && !EndsId(s, steps[0], c)))
  }

  /** A checked submission of this entry ends with the step and finds its id out of flight. */
  predicate FindsOrphan(s: System, step: Step, c: string)
    requires Enabled(s, step)
  {
    step.Finish? && step.ending.Checked?
    && s.calls[step.call].request.clientId == c && s.calls[step.call].request.intent.Entry? && c !in s.r.inFlight
  }

  ghost predicate OrphanFound(s: System, steps: seq<Step>, s': System, c: string)
    requires Reachable(s, steps, s')
    decreases |steps|
  {
    steps != [] && (FindsOrphan(s, steps[0], c) || OrphanFound(Next(s, steps[0]), steps[1..], s', c))
  }

  predicate Outstanding(s: System, c: string) {
    exists k :: k in s.calls && s.calls[k].request.clientId == c
  }

  /** An order at work at the broker that the router has written off: completed, unwatched, and never undone. */
  predicate Slipped(s: System, c: string) {
    AtWork(s, c) && c in s.r.completed && c !in s.r.abandoned && c !in s.neutralized && !Outstanding(s, c)
  }

  predicate Unswept(steps: seq<Step>) {
    Sweep !in steps
  }

  lemma StepWorks(s: System, step: Step, c: string)
    requires Invariant(s) && Enabled(s, step) && !step.Sweep?
    ensures AtWork(Next(s, step), c) <==> AcceptsId(s, step, c) || (AtWork(s, c) && !EndsId(s, step, c))
  {
    if step.Reply? && s.calls[step.call].request.clientId == c { assert Get(s.replies, c) == 0; }
  }

  lemma {:induction false} RunWorks(s: System, steps: seq<Step>, s': System, c: string)
    requires Invariant(s) && Reachable(s, steps, s') && Unswept(steps)
    ensures AtWork(s', c) <==> TakenDuring(s, steps, s', c, AtWork(s, c))
    decreases |steps|
  {
    if steps != [] {
      assert steps[0] in steps && steps[0] != Sweep;
      StepWorks(s, steps[0], c);
      StepKeeps(s, steps[0]);
      RunWorks(Next(s, steps[0]), steps[1..], s', c);
    }
  }

  /** A client id that the broker has answered otherwise is never taken. */
  lemma {:induction false} AnsweredForGood(s: System, steps: seq<Step>, s': System, c: string)
    requires Invariant(s) && Reachable(s, steps, s') && Get(s.replies, c) == 1 && c !in s.taken
    ensures c !in s'.taken
    decreases |steps|
  {
    if steps != [] {
      StepKeeps(s, steps[0]);
      StepOnlyGrows(s, steps[0]);
      if steps[0].Reply? { assert s.calls[steps[0].call].request.clientId != c; }
      AnsweredForGood(Next(s, steps[0]), steps[1..], s', c);
    }
  }

  /** Of the orders that the broker took, exactly those are neutralized that the orphan test found. */
  lemma {:induction false} RunNeutralizes(s: System, steps: seq<Step>, s': System, c: string)
    requires Invariant(s) && Reachable(s, steps, s') && c in s'.taken
    ensures c in s'.neutralized <==> c in s.neutralized || OrphanFound(s, steps, s', c)
    decreases |steps|
  {
    if steps != [] {
      StepKeeps(s, steps[0]);
      if FindsOrphan(s, steps[0], c) && !s.calls[steps[0].call].reply.value.accepted {
        AnsweredForGood(s, steps, s', c);
      }
      RunNeutralizes(Next(s, steps[0]), steps[1..], s', c);
    }
  }

  /** An order is taken at most once, and not before its reply is counted. */
  lemma {:induction false} TakenMeansReplied(s: System, steps: seq<Step>, s': System, c: string)
    requires Reachable(s, steps, s') && TakenDuring(s, steps, s', c, false)
    ensures Get(s'.replies, c) > Get(s.replies, c)
    decreases |steps|
  {
    if steps != [] {
      StepOnlyGrows(s, steps[0]);
      if AcceptsId(s, steps[0], c) {
        RepliesGrow(Next(s, steps[0]), steps[1..], s');
      } else {
        TakenMeansReplied(Next(s, steps[0]), steps[1..], s', c);
      }
    }
  }

  lemma {:induction false} RepliesGrow(s: System, steps: seq<Step>, s': System)
    requires Reachable(s, steps, s')
    ensures forall c :: Get(s.replies, c) <= Get(s'.replies, c)
    decreases |steps|
  {
    if steps != [] {
      StepOnlyGrows(s, steps[0]);
      RepliesGrow(Next(s, steps[0]), steps[1..], s');
    }
  }

  /**
    What a cancel-all misses, in every run: between its sweep at the broker and the clearing of the ledger,
    exactly those orders slip through that the broker took and neither cancelled, refused nor filled whole,
    and whose submission was finished by the time of the clearing, the id of an entry being still in flight
    if its submission was a checked one.
   */
  lemma SlipsExactlyWhen(before: seq<Step>, s: System, between: seq<Step>, s': System, c: string)
    requires Reachable(INITIAL, before, s) && Unswept(between)
    requires Reachable(Next(s, Sweep), between, s') && Enabled(s', Clear)
    ensures Slipped(Next(s', Clear), c)
            <==> && TakenDuring(Next(s, Sweep), between, s', c, false)
                 && !Outstanding(s', c)
                 && !OrphanFound(Next(s, Sweep), between, s', c)
  {
    assert Invariant(INITIAL);
    RunKeeps(INITIAL, before, s);
    StepKeeps(s, Sweep);
    RunKeeps(Next(s, Sweep), between, s');
    ClearWritesOff(s', c);
    WorksAfterSweep(Next(s, Sweep), between, s', c);
  }

  lemma WorksAfterSweep(swept: System, between: seq<Step>, s': System, c: string)
    requires Invariant(swept) && !AtWork(swept, c) && Reachable(swept, between, s') && Invariant(s') && Unswept(between)
    ensures AtWork(s', c) <==> TakenDuring(swept, between, s', c, false)
    ensures AtWork(s', c) ==> (c in s'.neutralized <==> OrphanFound(swept, between, s', c))
  {
    RunWorks(swept, between, s', c);
    if AtWork(s', c) {
      RunNeutralizes(swept, between, s', c);
      TakenMeansReplied(swept, between, s', c);
      assert Get(s'.replies, c) <= 1;
    }
  }

  /** The clearing completes everything the ledger still knows, and so writes off what is at work. */
  lemma ClearWritesOff(s: System, c: string)
    requires Invariant(s) && Enabled(s, Clear)
    ensures Slipped(Next(s, Clear), c) <==> AtWork(s, c) && !Outstanding(s, c) && c !in s.neutralized
  {
    assert AtWork(s, c) ==> Get(s.replies, c) == 1 && Known(s.r, c);
  }

  /** The shortest such run: one entry, submitted entirely between the sweep and the clearing. */
  lemma SlipsThroughCancelAll(r: OrderRequest, ack: OrderAck, now: int) returns (between: seq<Step>, s: System)
    requires r.intent.Entry? && ack.accepted && ack.clientId == r.clientId
    ensures Reachable(Next(INITIAL, Sweep), between, s) && Enabled(s, Clear) && Unswept(between)
    ensures Slipped(Next(s, Clear), r.clientId)
  {
    var s0 := Next(INITIAL, Sweep);
    between := [Begin(0, r), Reply(0, ack), Finish(0, Checked, now)];
    var s1 := Next(s0, between[0]);
    var s2 := Next(s1, between[1]);
    s := Next(s2, between[2]);
    assert between[1..] == [between[1], between[2]] && between[1..][1..] == [between[2]] && [between[2]][1..] == [];
    assert Reachable(s2, [between[2]], s);
    assert Reachable(s1, between[1..], s);
  }
}
