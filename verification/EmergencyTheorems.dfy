/** What the emergency close guarantees against every environment. */
module EmergencyTheorems {
  import opened Domain
  import opened EmergencyRules

  // ---------------------------------------------------------------- reading a trace

  /** Cancel-all has returned. */
  predicate HasCancelled(t: Trace) {
    t.And? && ((t.last.CancelledAll? && t.last.count.Some?) || HasCancelled(t.earlier))
  }

  /** A wait for the shared lock has timed out. */
  predicate TimedOut(t: Trace) {
    t.And? && ((t.last.TriedLock? && !t.last.got) || TimedOut(t.earlier))
  }

  /** Positions listed by the last query and not tried yet. */
  function Todo(t: Trace): seq<Position> {
    match t
    case Nothing => []
    case And(_, Queried(answer)) => if answer.Some? then answer.value else []
    case And(_, Reconciled(None)) => []
    case And(e, Submitted(_, _)) => if Todo(e) == [] then [] else Todo(e)[1..]
    case And(e, _) => Todo(e)
  }

  /** The answer to the last position query, if there was one. */
  function Answered(t: Trace): Option<Option<seq<Position>>> {
    match t
    case Nothing => None
    case And(_, Queried(answer)) => Some(answer)
    case And(e, _) => Answered(e)
  }

  /** The positions in the last answer; none if the query failed or was never made. */
  function LastListed(t: Trace): seq<Position> {
    if Answered(t).Some? && Answered(t).value.Some? then Answered(t).value.value else []
  }

  function Queries(t: Trace): nat {
    if t.Nothing? then 0 else Queries(t.earlier) + if t.last.Queried? then 1 else 0
  }

  function Acks(t: Trace): seq<OrderAck> {
    match t
    case Nothing => []
    case And(e, Submitted(_, Some(ack))) => Acks(e) + [ack]
    case And(e, _) => Acks(e)
  }

  /** The engine states asked for, in order, and whether the request failed. */
  function Switches(t: Trace): seq<(EngineState, bool)> {
    match t
    case Nothing => []
    case And(e, SetState(state, failed)) => Switches(e) + [(state, failed)]
    case And(e, _) => Switches(e)
  }

  predicate Resumed(t: Trace) {
    exists i :: 0 <= i < |Switches(t)| && Switches(t)[i].0.Running?
  }

  /** First a halt, and then a resumption exactly for a flatten that was not deferred. */
  predicate Switched(t: Trace, mode: Mode, deferred: bool) {
    var w := Switches(t);
    && w != [] && w[0].0.Halted?
    && if mode.Flatten? && !deferred then |w| == 2 && w[1].0.Running? else |w| == 1
  }

  /** An immediate emergency order that closes exactly this position. */
  predicate Closes(r: OrderRequest, p: Position) {
    && r.symbol == p.code && r.action == p.direction.Opposite() && r.quantity == p.quantity
    && r.intent.Emergency? && r.tif.IOC?
  }

  /** The shared lock has just been had. */
  predicate JustLocked(t: Trace) {
    t.And? && t.last == TriedLock(true)
  }

  /**
    The protocol: no closing order before cancel-all returned; closing orders follow the last listed
    positions, in order; no new query before each of them was tried; cancel-all goes through the router
    exactly when the lock was just had; every query is made with the lock just had, or after it was given up; and
    the lock is not waited for again after a timeout.
   */
  predicate Orderly(t: Trace) {
    t.And? ==>
      && Orderly(t.earlier)
      && match t.last
         case Submitted(r, _) => HasCancelled(t.earlier) && Todo(t.earlier) != [] && Closes(r, Todo(t.earlier)[0])
         case Queried(_) => Todo(t.earlier) == [] && (JustLocked(t.earlier) || TimedOut(t.earlier))
         case TriedLock(_) => !TimedOut(t.earlier)
         case CancelledAll(locked, _) =>
           && (locked <==> JustLocked(t.earlier)) && (locked <==> !TimedOut(t.earlier)) && Acks(t.earlier) == []
         case _ => true
  }

  predicate Tidy(d: Desk) {
    Orderly(d.trace) && d.bypassed == TimedOut(d.trace)
  }

  /** A call that is neither a query nor a submission changes none of this. */
  predicate SameProgress(t: Trace, u: Trace) {
    && HasCancelled(u) == HasCancelled(t) && Todo(u) == Todo(t) && Answered(u) == Answered(t)
    && Queries(u) == Queries(t) && Acks(u) == Acks(t)
  }

  // ---------------------------------------------------------------- step by step

  lemma LockTidy(env: Env, d: Desk)
    requires Tidy(d)
    ensures var (d', got) := Lock(env, d);
            && Tidy(d') && SameProgress(d.trace, d'.trace) && (got <==> !TimedOut(d'.trace))
            && Switches(d'.trace) == Switches(d.trace) && d'.pending == d.pending
  {
  }

  lemma QueryTidy(env: Env, d: Desk)
    requires Tidy(d) && Todo(d.trace) == []
    ensures var (d', answer) := Query(env, d);
            && Tidy(d') && HasCancelled(d'.trace) == HasCancelled(d.trace) && Acks(d'.trace) == Acks(d.trace)
            && Todo(d'.trace) == (if answer.Some? then answer.value else []) && Answered(d'.trace) == Some(answer)
            && Queries(d'.trace) == Queries(d.trace) + 1 && Switches(d'.trace) == Switches(d.trace)
            && d'.pending == d.pending
  {
  }

  lemma SubmitTidy(env: Env, d: Desk, p: Position, attempt: nat, l: Ledger)
    requires Tidy(d) && HasCancelled(d.trace) && Todo(d.trace) != [] && Todo(d.trace)[0] == p && l.sent == Acks(d.trace)
    ensures var (d', l') := SubmitOne(env, d, p, attempt, l);
            && Tidy(d') && HasCancelled(d'.trace) && Todo(d'.trace) == Todo(d.trace)[1..] && l'.sent == Acks(d'.trace)
            && Queries(d'.trace) == Queries(d.trace) && Switches(d'.trace) == Switches(d.trace)
            && d'.pending == d.pending
  {
  }

  lemma {:induction false} SubmitAllTidy(env: Env, d: Desk, ps: seq<Position>, attempt: nat, l: Ledger)
    requires Tidy(d) && HasCancelled(d.trace) && Todo(d.trace) == ps && l.sent == Acks(d.trace)
    ensures var (d', l') := SubmitAll(env, d, ps, attempt, l);
            && Tidy(d') && HasCancelled(d'.trace) && Todo(d'.trace) == [] && l'.sent == Acks(d'.trace)
            && Queries(d'.trace) == Queries(d.trace) && Switches(d'.trace) == Switches(d.trace)
            && d'.pending == d.pending
    decreases |ps|
  {
    if ps != [] {
      var (d1, l1) := SubmitOne(env, d, ps[0], attempt, l);
      SubmitTidy(env, d, ps[0], attempt, l);
      SubmitAllTidy(env, d1, ps[1..], attempt, l1);
    }
  }

  lemma {:induction false} RoundsTidy(env: Env, d: Desk, ps: seq<Position>, attempt: nat, l: Ledger)
    requires Tidy(d) && HasCancelled(d.trace) && Todo(d.trace) == ps && l.sent == Acks(d.trace)
    requires attempt <= env.maxRetries + 1 && Answered(d.trace) == Some(Some(ps))
    ensures var end := Rounds(env, d, ps, attempt, l);
            && Tidy(end.d) && end.l.sent == Acks(end.d.trace) && Switches(end.d.trace) == Switches(d.trace)
            && Queries(end.d.trace) <= Queries(d.trace) + env.maxRetries + 1 - attempt
            && Answered(end.d.trace) == Some(end.positions)
            && Todo(end.d.trace) == (if end.positions.Some? then end.positions.value else [])
            && end.d.pending == d.pending
    decreases env.maxRetries + 1 - attempt
  {
    if attempt <= env.maxRetries && ps != [] {
      var (d1, l1) := SubmitAll(env, d, ps, attempt, l);
      var (d2, answer) := Query(env, d1);
      SubmitAllTidy(env, d, ps, attempt, l);
      QueryTidy(env, d1);
      if answer.Some? { RoundsTidy(env, d2, answer.value, attempt + 1, l1); }
    }
  }

  lemma LinkCallTidy(d: Desk, c: Call)
    requires Tidy(d) && (c.Connected? || c.ReadLink?)
    ensures Tidy(Did(d, c)) && SameProgress(d.trace, Did(d, c).trace) && Switches(Did(d, c).trace) == Switches(d.trace)
  {
  }

  lemma {:induction false} ReconnectTidy(env: Env, d: Desk, tries: nat)
    requires Tidy(d)
    ensures var d' := Reconnect(env, d, tries).0;
            && Tidy(d') && SameProgress(d.trace, d'.trace) && Switches(d'.trace) == Switches(d.trace)
            && d'.pending == d.pending
    decreases tries
  {
    if tries > 0 {
      var d1 := Did(d, Connected(env.connectFails(d.trace)));
      LinkCallTidy(d, Connected(env.connectFails(d.trace)));
      if env.connectFails(d.trace) {
        ReconnectTidy(env, d1, tries - 1);
      } else {
        LinkCallTidy(d1, ReadLink(env.connected(d1.trace)));
        ReconnectTidy(env, Did(d1, ReadLink(env.connected(d1.trace))), tries - 1);
      }
    }
  }

  /** Whether the final request to run again fails. */
  function ResumeFails(env: Env, d: Desk): bool {
    env.stateFails(Did(d, DroppedStrategies(env.strategiesFail(d.trace))).trace)
  }

  lemma FinishTidy(env: Env, d: Desk, mode: Mode)
    requires Tidy(d)
    ensures var d' := Finish(env, d, mode);
            && Tidy(d') && SameProgress(d.trace, d'.trace)
            && Switches(d'.trace)
               == Switches(d.trace) + (if mode.Flatten? then [(Running, ResumeFails(env, d))] else [])
            && d'.pending == d.pending
  {
  }

  /** A desk that has not listed positions or sent anything yet. */
  predicate Untouched(d: Desk) {
    && Tidy(d) && Todo(d.trace) == [] && Answered(d.trace) == None && Queries(d.trace) == 0
    && Acks(d.trace) == [] && Switches(d.trace) == [(Halted, false)]
  }

  /** What an ending promises: a faithful report, or a desk fit for the failure report. */
  predicate Ends(env: Env, e: Ending, mode: Mode) {
    && Tidy(e.d) && Queries(e.d.trace) <= env.maxRetries + 1
    && match e
       case Threw(d) => Todo(d.trace) == [] && |Switches(d.trace)| == 1 && Switches(d.trace)[0].0.Halted?
       case Reported(d, r) =>
         && r.sent == Acks(d.trace) && InternalFailure !in r.notes
         && (r.succeeded <==> Answered(d.trace) == Some(Some([])))
         && r.residual == LastListed(d.trace)
         && Switched(d.trace, mode, r.notes == [Deferred])
         && d.pending == (if r.notes == [Deferred] then Some(mode) else None)
  }

  lemma {:induction false} NotesKeepOut(env: Env, d: Desk, ps: seq<Position>, attempt: nat, l: Ledger)
    requires InternalFailure !in l.notes && Deferred !in l.notes
    ensures var l' := SubmitAll(env, d, ps, attempt, l).1; InternalFailure !in l'.notes && Deferred !in l'.notes
    decreases |ps|
  {
    if ps != [] {
      var (d1, l1) := SubmitOne(env, d, ps[0], attempt, l);
      NotesKeepOut(env, d1, ps[1..], attempt, l1);
    }
  }

  lemma {:induction false} RoundNotesKeepOut(env: Env, d: Desk, ps: seq<Position>, attempt: nat, l: Ledger)
    requires InternalFailure !in l.notes && Deferred !in l.notes
    ensures var l' := Rounds(env, d, ps, attempt, l).l; InternalFailure !in l'.notes && Deferred !in l'.notes
    decreases env.maxRetries + 1 - attempt
  {
    if attempt <= env.maxRetries && ps != [] {
      var (d1, l1) := SubmitAll(env, d, ps, attempt, l);
      var (d2, answer) := Query(env, d1);
      NotesKeepOut(env, d, ps, attempt, l);
      if answer.Some? { RoundNotesKeepOut(env, d2, answer.value, attempt + 1, l1); }
    }
  }

  lemma CloseOutEnds(env: Env, d: Desk, mode: Mode, cancelled: nat)
    requires Untouched(d) && HasCancelled(d.trace) && d.pending.None?
    ensures Ends(env, CloseOut(env, d, mode, cancelled), mode)
  {
    var (d1, answer) := Query(env, d);
    QueryTidy(env, d);
    if answer.Some? {
      var found := env.mismatches(d1.trace);
      var d2 := Did(d1, Reconciled(found));
      if found.Some? {
        var notes := seq(found.value, _ => Mismatch) + if d2.bypassed then [Unlocked] else [];
        assert InternalFailure !in notes && Deferred !in notes;
        RoundsTidy(env, d2, answer.value, 1, Ledger([], notes));
        RoundNotesKeepOut(env, d2, answer.value, 1, Ledger([], notes));
        FinishTidy(env, Rounds(env, d2, answer.value, 1, Ledger([], notes)).d, mode);
      }
    }
  }

  lemma CancelEnds(env: Env, d: Desk, mode: Mode)
    requires Untouched(d) && d.pending.None?
    ensures Ends(env, CancelThenClose(env, d, mode), mode)
  {
    var (d1, locked) := Lock(env, d);
    var answer := env.cancelAll(d1.trace);
    LockTidy(env, d);
    if answer.Some? { CloseOutEnds(env, Did(d1, CancelledAll(locked, answer)), mode, answer.value); }
  }

  lemma BodyEnds(env: Env, d: Desk, mode: Mode)
    requires d.trace == Nothing && !d.bypassed
    ensures Ends(env, Body(env, d, mode), mode)
  {
    var d1 := Did(d, SetState(Halted, env.stateFails(d.trace)));
    var d2 := Did(d1, AskedTradable(env.tradable(d1.trace)));
    assert !HasCancelled(d.trace) && !TimedOut(d.trace) && Todo(d.trace) == [] && Answered(d.trace) == None;
    assert Queries(d.trace) == 0 && Acks(d.trace) == [] && Switches(d.trace) == [];
    assert Switches(d1.trace) == [(Halted, env.stateFails(d.trace))];
    if !env.stateFails(d.trace) {
      assert Untouched(d1);
      assert Untouched(d2);
      if env.tradable(d1.trace) != Some(false) {
        LinkThenEnds(env, d2.(pending := None), mode);
      }
    }
  }

  lemma LinkThenEnds(env: Env, d: Desk, mode: Mode)
    requires Untouched(d) && d.pending.None?
    ensures var (d', up) := EnsureConnected(env, d);
            Ends(env, if up then CancelThenClose(env, d', mode)
                      else Reported(Finish(env, d', mode), Plain(mode, CloseByHand)), mode)
  {
    var (d', up) := EnsureConnected(env, d);
    var d1 := Did(d, ReadLink(env.connected(d.trace)));
    assert Untouched(d1);
    ReconnectTidy(env, d1, RECONNECTS);
    if up { CancelEnds(env, d', mode); } else { FinishTidy(env, d', mode); }
  }

  // ---------------------------------------------------------------- the whole execution

  /**
    Whatever the environment does, an execution ends with a report and its calls follow the protocol: no
    closing order before cancel-all returned, every listed position tried before the next query, at most one
    query per retry, one before and one after.
   */
  lemma ExecutionIsOrderly(env: Env, d: Desk, mode: Mode)
    ensures var (d', r) := Execute(env, d, mode);
            && Orderly(d'.trace) && Queries(d'.trace) <= env.maxRetries + 2
            && (InternalFailure !in r.notes ==> Queries(d'.trace) <= env.maxRetries + 1 && r.sent == Acks(d'.trace))
  {
    ExecutionEnds(env, d, mode);
  }

  lemma ExecutionEnds(env: Env, d: Desk, mode: Mode)
    ensures var (d', r) := Execute(env, d, mode);
            && Tidy(d') && Queries(d'.trace) <= env.maxRetries + 2
            && (InternalFailure !in r.notes ==> Ends(env, Reported(d', r), mode))
            && (InternalFailure in r.notes ==>
                  && !r.succeeded && r.notes == [InternalFailure] && Answered(d'.trace).Some?
                  && r.residual == LastListed(d'.trace)
                  && Switched(d'.trace, mode, false))
  {
    var start := d.(bypassed := false, trace := Nothing);
    var e := Body(env, start, mode);
    BodyEnds(env, start, mode);
    if e.Threw? {
      QueryTidy(env, e.d);
      FinishTidy(env, Query(env, e.d).0, mode);
    }
  }

  /** Success is reported exactly when nothing failed and the last position query found nothing left. */
  lemma SuccessMeansFlat(env: Env, d: Desk, mode: Mode)
    ensures var (d', r) := Execute(env, d, mode);
            && (r.succeeded <==> InternalFailure !in r.notes && Answered(d'.trace) == Some(Some([])))
            && r.residual == LastListed(d'.trace)
  {
    ExecutionEnds(env, d, mode);
  }

  /**
    The engine is told to run again exactly by a flatten that was not deferred, whether or not it succeeded;
    a deferred close is remembered, and any other close that ran to its own report forgets an earlier deferral.
   */
  lemma ResumesExactlyWhen(env: Env, d: Desk, mode: Mode)
    ensures var (d', r) := Execute(env, d, mode);
            && (Resumed(d'.trace) <==> mode.Flatten? && r.notes != [Deferred])
            && Switched(d'.trace, mode, r.notes == [Deferred])
            && (InternalFailure !in r.notes ==> d'.pending == if r.notes == [Deferred] then Some(mode) else None)
  {
    ExecutionEnds(env, d, mode);
  }

  /** Closing orders tried, whether acknowledged or not. */
  function SubmissionsIn(t: Trace): nat {
    if t.Nothing? then 0 else SubmissionsIn(t.earlier) + if t.last.Submitted? then 1 else 0
  }

  /** When cancel-all fails, no closing order is even tried, and the report admits failure. */
  lemma FailedCancelSendsNothing(env: Env, d: Desk, mode: Mode)
    requires forall t :: env.cancelAll(t).None?
    ensures var (d', r) := Execute(env, d, mode);
            SubmissionsIn(d'.trace) == 0 && !HasCancelled(d'.trace) && !r.succeeded && r.sent == []
  {
    var start := d.(bypassed := false, trace := Nothing);
    var e := Body(env, start, mode);
    BodyEnds(env, start, mode);
    BodyWithoutCancel(env, start, mode);
    if e.Threw? {
      QueryTidy(env, e.d);
      FinishTidy(env, Query(env, e.d).0, mode);
    }
    NothingWithoutCancel(Execute(env, d, mode).0.trace);
  }

  lemma BodyWithoutCancel(env: Env, d: Desk, mode: Mode)
    requires d.trace == Nothing && !d.bypassed && forall t :: env.cancelAll(t).None?
    ensures var e := Body(env, d, mode);
            Tidy(e.d) && !HasCancelled(e.d.trace) && (e.Reported? ==> !e.report.succeeded && e.report.sent == [])
  {
    var d1 := Did(d, SetState(Halted, env.stateFails(d.trace)));
    var d2 := Did(d1, AskedTradable(env.tradable(d1.trace)));
    assert !HasCancelled(d.trace) && !TimedOut(d.trace) && Acks(d.trace) == [];
    assert Tidy(d1) && !HasCancelled(d1.trace) && Acks(d1.trace) == [];
    assert Tidy(d2) && !HasCancelled(d2.trace) && Acks(d2.trace) == [];
    if !env.stateFails(d.trace) && env.tradable(d1.trace) != Some(false) {
      LinkWithoutCancel(env, d2.(pending := None), mode);
    }
  }

  lemma LinkWithoutCancel(env: Env, d: Desk, mode: Mode)
    requires Tidy(d) && !HasCancelled(d.trace) && Acks(d.trace) == [] && forall t :: env.cancelAll(t).None?
    ensures var (d', up) := EnsureConnected(env, d);
            var e := if up then CancelThenClose(env, d', mode)
                     else Reported(Finish(env, d', mode), Plain(mode, CloseByHand));
            Tidy(e.d) && !HasCancelled(e.d.trace) && (e.Reported? ==> !e.report.succeeded && e.report.sent == [])
  {
    var d' := EnsureConnected(env, d).0;
    LinkCallTidy(d, ReadLink(env.connected(d.trace)));
    ReconnectTidy(env, Did(d, ReadLink(env.connected(d.trace))), RECONNECTS);
    LockTidy(env, d');
    FinishTidy(env, d', mode);
  }

  /** Without a returned cancel-all, an orderly trace holds no closing order at all. */
  lemma {:induction false} NothingWithoutCancel(t: Trace)
    requires Orderly(t) && !HasCancelled(t)
    ensures SubmissionsIn(t) == 0
  {
    if t.And? { NothingWithoutCancel(t.earlier); }
  }
}
