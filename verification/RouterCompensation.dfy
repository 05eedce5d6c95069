/**
  Bookkeeping of abandoned entries over whole runs. An entry whose cancel failed stays under watch: every
  fill it still produces is answered by an equal and opposite emergency order.
 */
module RouterCompensation {
  import opened Domain
  import opened FifoLedger
  import opened OrderRouter
  import opened RouterProtocol

  /**
    One watch over an abandoned entry: the entry; contracts received, and of those recorded by the router,
    when it began; contracts answered by a compensation order since; and contracts not answered by one.
   */
  datatype Watch = Watch(request: OrderRequest, atStart: nat, recorded: nat, compensated: nat, missed: nat)

  /**
    An auditor's view since the last cancel-all: contracts received per client id, the watches, and the
    signed totals of fills received while their entry was abandoned and of compensation orders issued.
   */
  datatype Audit = Audit(got: map<string, nat>, watches: map<string, Watch>, fills: int, orders: int)

  const NO_AUDIT: Audit := Audit(map[], map[], 0, 0)

  function Receive(got: map<string, nat>, c: string, q: nat): map<string, nat> {
    got[c := Get(got, c) + q]
  }

  /** The watches after one more fill of c, answered by a compensation order or not. */
  function Tell(watches: map<string, Watch>, c: string, q: nat, answered: bool): map<string, Watch> {
    if c !in watches then watches
    else
      var w := watches[c];
      watches[c := if answered then w.(compensated := w.compensated + q) else w.(missed := w.missed + q)]
  }

  /** One more fill of c; it was due an answer if its entry was abandoned, whatever answer the router gave. */
  function AuditFill(a: Audit, c: string, f: FillEvent, due: bool, answer: Option<OrderRequest>): Audit {
    Audit(Receive(a.got, c, f.quantity), Tell(a.watches, c, f.quantity, answer.Some?),
          a.fills + (if due then Signed(f.action, f.quantity) else 0),
          a.orders + (if answer.Some? then Signed(answer.value.action, answer.value.quantity) else 0))
  }

  function StartWatch(r: RouterState, a: Audit, c: string, request: OrderRequest): Audit {
    if c in a.watches then a
    else a.(watches := a.watches[c := Watch(request, Get(a.got, c), Get(r.filled, c), 0, 0)])
  }

  function EndWatch(a: Audit, c: string): Audit {
    a.(watches := a.watches - {c})
  }

  function AuditEvent(r: RouterState, a: Audit, e: OrderEvent, newId: string): Audit {
    if EventClient(e).None? then a
    else
      var c := EventClient(e).value;
      match e
      case Fill(f) => AuditFill(a, c, f, c in r.abandoned, HandleEvent(r, e, newId).1)
      case RejectEvent(_) => EndWatch(a, c)
      case CancelEvent(_, remaining) => if remaining == 0 then EndWatch(a, c) else a
      case AckEvent(_, _) => a
  }

  function AuditNext(s: System, a: Audit, step: Step): Audit {
    match step
    case Event(e, newId) => AuditEvent(s.r, a, e, newId)
    case Clear => Audit(map[], map[], a.fills, a.orders)
    case Abandoned(c, request) => StartWatch(s.r, a, c, request)
    case _ => a
  }

  ghost predicate Reaches(s: System, a: Audit, steps: seq<Step>, s': System, a': Audit)
    decreases |steps|
  {
    if steps == [] then s == s' && a == a'
    else Enabled(s, steps[0]) && Reaches(Next(s, steps[0]), AuditNext(s, a, steps[0]), steps[1..], s', a')
  }

  // ---------------------------------------------------------------- the books balance

  ghost predicate Matches(w: Watch, count: nat, got: nat) {
    count == w.recorded + w.compensated && w.recorded <= w.atStart && got == w.atStart + w.compensated + w.missed
  }

  ghost predicate Watched(counts: map<string, nat>, got: map<string, nat>, watches: map<string, Watch>) {
    && counts.Keys == watches.Keys
    && forall c :: c in watches ==> Matches(watches[c], counts[c], Get(got, c))
  }

  /** The router's own fill counts are exact for every order it has not completed. */
  ghost predicate Counted(filled: map<string, nat>, completed: set<string>, got: map<string, nat>) {
    forall c :: Get(filled, c) <= Get(got, c) && (c !in completed ==> Get(filled, c) == Get(got, c))
  }

  ghost predicate Balanced(r: RouterState, a: Audit) {
    && a.fills + a.orders == 0
    && r.abandoned.Keys <= r.abandonedFilled.Keys
    && Watched(r.abandonedFilled, a.got, a.watches)
    && Counted(r.filled, r.completed, a.got)
  }

  lemma OneMoreCounted(filled: map<string, nat>, completed: set<string>, got: map<string, nat>, c: string, q: nat)
    requires Counted(filled, completed, got)
    ensures Counted(filled[c := Get(filled, c) + q], completed, Receive(got, c, q))
  {
    assert Get(filled, c) <= Get(got, c);
    forall d
      ensures Get(filled[c := Get(filled, c) + q], d) == Get(filled, d) + if d == c then q else 0
      ensures Get(Receive(got, c, q), d) == Get(got, d) + if d == c then q else 0
    {
    }
  }

  lemma RetiredCounted(filled: map<string, nat>, completed: set<string>, got: map<string, nat>, c: string)
    requires Counted(filled, completed, got)
    ensures Counted(filled - {c}, completed + {c}, got)
  {
  }

  lemma RecordCounts(r: RouterState, got: map<string, nat>, c: string, q: nat)
    requires Counted(r.filled, r.completed, got)
    ensures Counted(RecordFill(r, c, q).filled, RecordFill(r, c, q).completed, Receive(got, c, q))
    ensures RecordFill(r, c, q).abandoned == r.abandoned && RecordFill(r, c, q).abandonedFilled == r.abandonedFilled
  {
    OneMoreCounted(r.filled, r.completed, got, c, q);
    RetiredCounted(r.filled[c := Get(r.filled, c) + q], r.completed, Receive(got, c, q), c);
  }

  lemma TellWatched(counts: map<string, nat>, got: map<string, nat>, watches: map<string, Watch>, c: string, q: nat,
                    answered: bool)
    requires Watched(counts, got, watches) && (answered ==> c in counts)
    ensures Watched(if answered then counts[c := Get(counts, c) + q] else counts,
                    Receive(got, c, q), Tell(watches, c, q, answered))
  {
    var counts' := if answered then counts[c := Get(counts, c) + q] else counts;
    var watches' := Tell(watches, c, q, answered);
    assert watches'.Keys == watches.Keys;
    forall d | d in watches' ensures Matches(watches'[d], counts'[d], Get(Receive(got, c, q), d)) {
      assert Matches(watches[d], counts[d], Get(got, d));
    }
  }

  /** What handling a fill does to the parts of the ledger that the auditor compares. */
  lemma FillHandled(r: RouterState, c: string, f: FillEvent, newId: string)
    requires f.clientId == Some(c)
    ensures var (r', order) := HandleEvent(r, Fill(f), newId);
            && r'.filled == RecordFill(r, c, f.quantity).filled
            && r'.completed == RecordFill(r, c, f.quantity).completed
            && r'.abandonedFilled == (if c in r.abandoned
                                      then r.abandonedFilled[c := Get(r.abandonedFilled, c) + f.quantity]
                                      else r.abandonedFilled)
            && r'.abandoned.Keys <= r.abandoned.Keys && (order.Some? <==> c in r.abandoned)
            && (order.Some? ==> Signed(order.value.action, order.value.quantity) == -Signed(f.action, f.quantity))
  {
    assert RecordFill(r, c, f.quantity).abandoned == r.abandoned;
    assert RecordFill(r, c, f.quantity).abandonedFilled == r.abandonedFilled;
  }

  lemma FillBalances(r: RouterState, a: Audit, c: string, f: FillEvent, newId: string, r': RouterState,
                     order: Option<OrderRequest>)
    requires Balanced(r, a) && f.clientId == Some(c) && (r', order) == HandleEvent(r, Fill(f), newId)
    ensures Balanced(r', AuditFill(a, c, f, c in r.abandoned, order))
  {
    FillHandled(r, c, f, newId);
    RecordCounts(r, a.got, c, f.quantity);
    TellWatched(r.abandonedFilled, a.got, a.watches, c, f.quantity, c in r.abandoned);
  }

  lemma CompleteBalances(r: RouterState, a: Audit, c: string)
    requires Balanced(r, a)
    ensures Balanced(MarkCompleted(r, c), a)
  {
  }

  lemma ConcludeBalances(r: RouterState, a: Audit, request: OrderRequest, ack: OrderAck, ending: Ending, now: int)
    requires Balanced(r, a)
    ensures Balanced(Conclude(r, request, ack, ending, now), a)
  {
    CompleteBalances(r, a, request.clientId);
  }

  lemma CloseBalances(r: RouterState, a: Audit, c: string)
    requires Balanced(r, a)
    ensures Balanced(Close(r, c), EndWatch(a, c))
  {
  }

  lemma WatchBalances(r: RouterState, a: Audit, c: string, request: OrderRequest)
    requires Balanced(r, a)
    ensures Balanced(MarkAbandoned(r, c, request), StartWatch(r, a, c, request))
  {
    assert Get(r.filled, c) <= Get(a.got, c);
    if c !in a.watches { OneMoreWatched(r.abandonedFilled, a.got, a.watches, c, request, Get(r.filled, c)); }
  }

  lemma OneMoreWatched(counts: map<string, nat>, got: map<string, nat>, watches: map<string, Watch>,
                       c: string, request: OrderRequest, recorded: nat)
    requires Watched(counts, got, watches) && c !in watches && recorded <= Get(got, c)
    ensures Watched(counts[c := recorded], got, watches[c := Watch(request, Get(got, c), recorded, 0, 0)])
  {
  }

  lemma StepBalances(s: System, a: Audit, step: Step)
    requires Balanced(s.r, a) && Enabled(s, step)
    ensures Balanced(Next(s, step).r, AuditNext(s, a, step))
  {
    match step
    case Event(e, newId) => EventBalances(s.r, a, e, newId);
    case Finish(call, ending, now) =>
      ConcludeBalances(s.r, a, s.calls[call].request, s.calls[call].reply.value, ending, now);
    case Cancelled(c) => CompleteBalances(s.r, a, c);
    case Abandoned(c, r) => WatchBalances(s.r, a, c, r);
    case _ =>
  }

  lemma EventBalances(r: RouterState, a: Audit, e: OrderEvent, newId: string)
    requires Balanced(r, a)
    ensures Balanced(HandleEvent(r, e, newId).0, AuditEvent(r, a, e, newId))
  {
    if EventClient(e).Some? {
      if e.Fill? {
        FillBalances(r, a, EventClient(e).value, e.fill, newId, HandleEvent(r, e, newId).0, HandleEvent(r, e, newId).1);
      } else {
        CloseBalances(r, a, EventClient(e).value);
      }
    }
  }

  lemma {:induction false} RunBalances(s: System, a: Audit, steps: seq<Step>, s': System, a': Audit)
    requires Balanced(s.r, a) && Reaches(s, a, steps, s', a')
    ensures Balanced(s'.r, a')
    decreases |steps|
  {
    if steps != [] {
      StepBalances(s, a, steps[0]);
      RunBalances(Next(s, steps[0]), AuditNext(s, a, steps[0]), steps[1..], s', a');
    }
  }

  lemma ReachedBalanced(steps: seq<Step>, s: System, a: Audit)
    requires Reaches(INITIAL, NO_AUDIT, steps, s, a)
    ensures Balanced(s.r, a)
  {
    RunBalances(INITIAL, NO_AUDIT, steps, s, a);
  }

  /**
    Over every run, with every outcome of every cancel: compensation orders exactly offset the fills received
    while their entry was abandoned; the router's count of a watched entry is what it had recorded at the
    start plus what it compensated; and if the broker never overfills an entry, all its compensation together
    is at most what the entry could still fill when the watch began.
   */
  lemma CompensationConserves(steps: seq<Step>, s: System, a: Audit)
    requires Reaches(INITIAL, NO_AUDIT, steps, s, a)
    ensures a.fills + a.orders == 0
    ensures s.r.abandoned.Keys <= s.r.abandonedFilled.Keys == a.watches.Keys
    ensures forall c :: c in a.watches ==> Matches(a.watches[c], s.r.abandonedFilled[c], Get(a.got, c))
    ensures forall c :: c in a.watches && Get(a.got, c) <= a.watches[c].request.quantity ==>
              a.watches[c].compensated <= a.watches[c].request.quantity - a.watches[c].atStart
  {
    ReachedBalanced(steps, s, a);
  }

  /** A watch that begins on an uncompleted entry begins from the true number of contracts received. */
  lemma WatchStartsExact(steps: seq<Step>, s: System, a: Audit, c: string, request: OrderRequest)
    requires Reaches(INITIAL, NO_AUDIT, steps, s, a) && c !in s.r.completed && c !in a.watches
    ensures StartWatch(s.r, a, c, request).watches[c] == Watch(request, Get(a.got, c), Get(a.got, c), 0, 0)
  {
    ReachedBalanced(steps, s, a);
  }

  /** A fill takes an entry off the watch only when its whole quantity has really been received. */
  lemma WatchEndsOnlyWhenFull(steps: seq<Step>, s: System, a: Audit, f: FillEvent, newId: string, c: string)
    requires Reaches(INITIAL, NO_AUDIT, steps, s, a)
    requires f.clientId == Some(c) && c in s.r.abandoned && c !in HandleEvent(s.r, Fill(f), newId).0.abandoned
    ensures Get(a.got, c) + f.quantity >= s.r.abandoned[c].quantity
  {
    ReachedBalanced(steps, s, a);
    assert Matches(a.watches[c], s.r.abandonedFilled[c], Get(a.got, c));
  }

  // ---------------------------------------------------------------- exactly which fills are missed

  /**
    In every state, a fill of an entry under watch is answered exactly when the entry is still abandoned, else
    missed.
   */
  lemma MissedExactlyWhenPaused(s: System, a: Audit, f: FillEvent, newId: string, c: string)
    requires f.clientId == Some(c) && c in a.watches
    ensures var a' := AuditNext(s, a, Event(Fill(f), newId));
            && (a'.watches[c].missed > a.watches[c].missed <==> c !in s.r.abandoned)
            && (a'.watches[c].compensated > a.watches[c].compensated <==> c in s.r.abandoned)
  {
  }

  /** Where a client id stands: not watched, watched, or with its watch paused. */
  datatype Phase = Unwatched | Watching | Paused

  /** A fill that makes the router stop watching the entry because it counts it as complete. */
  predicate FillsUp(r: RouterState, c: string, q: nat) {
    c in r.abandoned && Get(r.abandonedFilled, c) + q >= r.abandoned[c].quantity
  }

  function Moved(r: RouterState, phase: Phase, step: Step, c: string): Phase {
    match step
    case Abandoned(d, _) => if d == c then Watching else phase
    case Forgotten(d) => if d == c && phase.Watching? then Paused else phase
    case Clear => Unwatched
    case Event(e, _) =>
      if EventClient(e) != Some(c) then phase
      else (match e
            case Fill(f) => if phase.Watching? && FillsUp(r, c, f.quantity) then Paused else phase
            case RejectEvent(_) => Unwatched
            case CancelEvent(_, remaining) => if remaining == 0 then Unwatched else phase
            case AckEvent(_, _) => phase)
    case _ => phase
  }

  /**
    Within the current watch of c, a fill of c came after a forgotten cancel or a completing fill and before
    the next time the entry was abandoned; `so` says whether that had happened before these steps.
   */
  ghost predicate FilledWhilePaused(s: System, steps: seq<Step>, c: string, phase: Phase, so: bool)
    decreases |steps|
  {
    if steps == [] || !Enabled(s, steps[0]) then so
    else
      FilledWhilePaused(Next(s, steps[0]), steps[1..], c, Moved(s.r, phase, steps[0], c),
                        StillMissed(steps[0], c, s.r, phase, so))
  }

  predicate StillMissed(step: Step, c: string, r: RouterState, phase: Phase, so: bool) {
    !Moved(r, phase, step, c).Unwatched? && (so || (phase.Paused? && IsFillOf(step, c)))
  }

  predicate IsFillOf(step: Step, c: string) {
    step.Event? && step.event.Fill? && step.event.fill.clientId == Some(c)
  }

  /** The phase says what ledger and auditor say. */
  ghost predicate InPhase(r: RouterState, a: Audit, c: string, phase: Phase, so: bool) {
    && (c in a.watches <==> !phase.Unwatched?)
    && (c in r.abandoned <==> phase.Watching?)
    && (if c in a.watches then a.watches[c].missed > 0 <==> so else !so)
  }

  lemma FillPhase(s: System, a: Audit, f: FillEvent, newId: string, c: string, phase: Phase, so: bool)
    requires InPhase(s.r, a, c, phase, so) && f.clientId == Some(c)
    ensures var step := Event(Fill(f), newId);
            InPhase(Next(s, step).r, AuditNext(s, a, step), c, Moved(s.r, phase, step, c),
                    StillMissed(step, c, s.r, phase, so))
  {
    assert RecordFill(s.r, c, f.quantity).abandoned == s.r.abandoned;
    assert RecordFill(s.r, c, f.quantity).abandonedFilled == s.r.abandonedFilled;
  }

  /** A fill of another order leaves the phase alone. */
  lemma OtherFillPhase(r: RouterState, a: Audit, f: FillEvent, newId: string, c: string, phase: Phase, so: bool)
    requires InPhase(r, a, c, phase, so) && f.clientId != Some(c)
    ensures InPhase(HandleEvent(r, Fill(f), newId).0, AuditEvent(r, a, Fill(f), newId), c, phase, so)
  {
    if f.clientId.Some? {
      assert RecordFill(r, f.clientId.value, f.quantity).abandoned == r.abandoned;
      assert RecordFill(r, f.clientId.value, f.quantity).abandonedFilled == r.abandonedFilled;
    }
  }

  lemma EventPhase(s: System, a: Audit, e: OrderEvent, newId: string, c: string, phase: Phase, so: bool)
    requires InPhase(s.r, a, c, phase, so) && !IsFillOf(Event(e, newId), c)
    ensures var step := Event(e, newId);
            InPhase(Next(s, step).r, AuditNext(s, a, step), c, Moved(s.r, phase, step, c),
                    StillMissed(step, c, s.r, phase, so))
  {
    if e.Fill? { OtherFillPhase(s.r, a, e.fill, newId, c, phase, so); }
  }

  /** Only abandoning, forgetting and clearing touch the watch from outside the event handling. */
  function AbandonedAfter(abandoned: map<string, OrderRequest>, step: Step): map<string, OrderRequest> {
    match step
    case Abandoned(c, request) => abandoned[c := request]
    case Forgotten(c) => abandoned - {c}
    case Clear => map[]
    case _ => abandoned
  }

  lemma OtherLeavesWatch(s: System, step: Step)
    requires Enabled(s, step) && !step.Event?
    ensures Next(s, step).r.abandoned == AbandonedAfter(s.r.abandoned, step)
  {
  }

  lemma OtherMoves(s: System, r': RouterState, a: Audit, step: Step, c: string, phase: Phase, so: bool)
    requires InPhase(s.r, a, c, phase, so) && !step.Event? && r'.abandoned == AbandonedAfter(s.r.abandoned, step)
    ensures InPhase(r', AuditNext(s, a, step), c, Moved(s.r, phase, step, c), StillMissed(step, c, s.r, phase, so))
  {
  }

  lemma OtherPhase(s: System, a: Audit, step: Step, c: string, phase: Phase, so: bool)
    requires Enabled(s, step) && InPhase(s.r, a, c, phase, so) && !step.Event?
    ensures InPhase(Next(s, step).r, AuditNext(s, a, step), c, Moved(s.r, phase, step, c),
                    StillMissed(step, c, s.r, phase, so))
  {
    OtherLeavesWatch(s, step);
    OtherMoves(s, Next(s, step).r, a, step, c, phase, so);
  }

  lemma {:induction false} RunPhase(s: System, a: Audit, steps: seq<Step>, s': System, a': Audit, c: string,
                                    phase: Phase, so: bool)
    requires Reaches(s, a, steps, s', a') && InPhase(s.r, a, c, phase, so)
    ensures c in a'.watches ==> (a'.watches[c].missed > 0 <==> FilledWhilePaused(s, steps, c, phase, so))
    decreases |steps|
  {
    if steps != [] {
      var step := steps[0];
      if IsFillOf(step, c) {
        FillPhase(s, a, step.event.fill, step.newId, c, phase, so);
      } else if step.Event? {
        EventPhase(s, a, step.event, step.newId, c, phase, so);
      } else {
        OtherPhase(s, a, step, c, phase, so);
      }
      RunPhase(Next(s, step), AuditNext(s, a, step), steps[1..], s', a', c, Moved(s.r, phase, step, c),
               StillMissed(step, c, s.r, phase, so));
    }
  }

  /**
    Every fill since the watch began was compensated exactly when none of them came while the watch was
    paused, that is, between a successful retry of the cancel (or a fill that completed the entry) and the
    next time the entry was abandoned.
   */
  lemma NothingMissedExactlyWhen(steps: seq<Step>, s: System, a: Audit, c: string)
    requires Reaches(INITIAL, NO_AUDIT, steps, s, a) && c in a.watches
    ensures a.watches[c].missed == 0 <==> !FilledWhilePaused(INITIAL, steps, c, Unwatched, false)
  {
    RunPhase(INITIAL, NO_AUDIT, steps, s, a, c, Unwatched, false);
  }

  /**
    A successful retry takes the entry off the watch but leaves its count behind, so a fill that arrives
    before the watch resumes is never compensated and never counted.
   */
  lemma GapFillIsMissed(r: OrderRequest, f: FillEvent) returns (steps: seq<Step>, s: System, a: Audit)
    requires r.quantity > 1 && f.clientId == Some(r.clientId) && f.quantity == 1
    ensures Reaches(INITIAL, NO_AUDIT, steps, s, a)
    ensures r.clientId in s.r.abandoned && r.clientId in s.r.abandonedFilled
    ensures s.r.abandonedFilled[r.clientId] < Get(a.got, r.clientId)
  {
    var c := r.clientId;
    var t4 := [Abandoned(c, r)];
    var t3 := [Event(Fill(f), "")] + t4;
    var t2 := [Forgotten(c)] + t3;
    var t1 := [Abandoned(c, r)] + t2;
    steps := [Begin(0, r)] + t1;
    var s1, a1 := Next(INITIAL, steps[0]), NO_AUDIT;
    var s2, a2 := Next(s1, t1[0]), AuditNext(s1, a1, t1[0]);
    var s3, a3 := Next(s2, t2[0]), a2;
    var s4, a4 := Next(s3, t3[0]), AuditNext(s3, a3, t3[0]);
    s, a := Next(s4, t4[0]), AuditNext(s4, a4, t4[0]);
    assert Reaches(s4, a4, t4, s, a) by { assert t4[1..] == []; }
    assert Reaches(s3, a3, t3, s, a) by { assert t3[1..] == t4; }
    assert Reaches(s2, a2, t2, s, a) by { assert t2[1..] == t3; }
    assert Reaches(s1, a1, t1, s, a) by { assert t1[1..] == t2; }
    assert steps[1..] == t1;
  }
}
