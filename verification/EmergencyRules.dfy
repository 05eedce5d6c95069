/**
  Specification of the emergency close against an arbitrary environment: the broker, the router, the lock
  and the callbacks may answer anything, fail at any call, and change their minds between calls.
 */
module EmergencyRules {
  import opened Domain

  datatype Mode = Flatten | Panic

  datatype EngineState = Running | Halted

  datatype Note =
    | Deferred
    | CloseByHand
    | Unlocked
    | Mismatch
    | SubmitFailed(code: string, attempt: nat)
    | InternalFailure
    | AlreadyRunning

  datatype Report = Report(
    mode: Mode, cancelled: nat, before: seq<Position>, sent: seq<OrderAck>, residual: seq<Position>,
    succeeded: bool, notes: seq<Note>)

  datatype Call =
    | SetState(state: EngineState, failed: bool)
    | AskedTradable(tradable: Option<bool>)
    | DroppedStrategies(failed: bool)
    | ReadLink(up: Option<bool>)
    | Connected(failed: bool)
    | TriedLock(got: bool)
    | CancelledAll(locked: bool, count: Option<nat>)
    | Queried(positions: Option<seq<Position>>)
    | Reconciled(mismatches: Option<nat>)
    | AskedLimits(limits: Option<(real, real)>)
    | Submitted(request: OrderRequest, ack: Option<OrderAck>)

  /** The calls made during one execution, most recent last. */
  datatype Trace = Nothing | And(earlier: Trace, last: Call)

  /**
    The settings, and the answers of the outside world, which may depend on every call made before; an absent
    answer is an exception. `lockFree` says whether the bounded wait for the shared lock ends with the lock.
   */
  datatype Env = Env(
    maxRetries: nat, useMarket: bool,
    stateFails: Trace -> bool, strategiesFail: Trace -> bool, tradable: Trace -> Option<bool>,
    connected: Trace -> Option<bool>, connectFails: Trace -> bool, lockFree: Trace -> bool,
    cancelAll: Trace -> Option<nat>, positions: Trace -> Option<seq<Position>>, mismatches: Trace -> Option<nat>,
    limits: Trace -> Option<(real, real)>, submit: (Trace, OrderRequest) -> Option<OrderAck>, newId: Trace -> string)

  datatype Desk = Desk(bypassed: bool, pending: Option<Mode>, trace: Trace)

  function Did(d: Desk, c: Call): Desk {
    d.(trace := And(d.trace, c))
  }

  /** Once a wait for the lock has timed out, the lock is not waited for again. */
  function Lock(env: Env, d: Desk): (Desk, bool) {
    if d.bypassed then (d, false)
    else (Did(d, TriedLock(env.lockFree(d.trace))).(bypassed := !env.lockFree(d.trace)), env.lockFree(d.trace))
  }

  function Query(env: Env, d: Desk): (Desk, Option<seq<Position>>) {
    var d1 := Lock(env, d).0;
    (Did(d1, Queried(env.positions(d1.trace))), env.positions(d1.trace))
  }

  function Reconnect(env: Env, d: Desk, tries: nat): (Desk, bool)
    decreases tries
  {
    if tries == 0 then (d, false)
    else
      var d1 := Did(d, Connected(env.connectFails(d.trace)));
      if env.connectFails(d.trace) then Reconnect(env, d1, tries - 1)
      else
        var d2 := Did(d1, ReadLink(env.connected(d1.trace)));
        if env.connected(d1.trace) == Some(true) then (d2, true) else Reconnect(env, d2, tries - 1)
  }

  const RECONNECTS: nat := 3

  function EnsureConnected(env: Env, d: Desk): (Desk, bool) {
    var d1 := Did(d, ReadLink(env.connected(d.trace)));
    if env.connected(d.trace) == Some(true) then (d1, true) else Reconnect(env, d1, RECONNECTS)
  }

  /** A market order, or a limit order at the far limit when the limits can be had. */
  function CloseOrder(p: Position, limits: Option<(real, real)>, id: string): OrderRequest {
    var action := p.direction.Opposite();
    if limits.None? then Order(p.code, action, p.quantity, None, MKP, IOC, Emergency, id, "")
    else
      var far := if action.Long? then limits.value.1 else limits.value.0;
      Order(p.code, action, p.quantity, Some(far), LMT, IOC, Emergency, id, "")
  }

  function MakeClose(env: Env, d: Desk, p: Position): (Desk, OrderRequest) {
    if env.useMarket then (d, CloseOrder(p, None, env.newId(d.trace)))
    else
      var d1 := Did(d, AskedLimits(env.limits(d.trace)));
      (d1, CloseOrder(p, env.limits(d.trace), env.newId(d1.trace)))
  }

  /** Orders acknowledged and notes taken so far. */
  datatype Ledger = Ledger(sent: seq<OrderAck>, notes: seq<Note>)

  function SubmitOne(env: Env, d: Desk, p: Position, attempt: nat, l: Ledger): (Desk, Ledger) {
    var (d1, r) := MakeClose(env, d, p);
    var answer := env.submit(d1.trace, r);
    (Did(d1, Submitted(r, answer)),
     if answer.Some? then l.(sent := l.sent + [answer.value])
     else l.(notes := l.notes + [SubmitFailed(p.code, attempt)]))
  }

  function SubmitAll(env: Env, d: Desk, ps: seq<Position>, attempt: nat, l: Ledger): (Desk, Ledger)
    decreases |ps|
  {
    if ps == [] then (d, l)
    else
      var (d1, l1) := SubmitOne(env, d, ps[0], attempt, l);
      SubmitAll(env, d1, ps[1..], attempt, l1)
  }

  /** How the rounds end; no positions means that a position query failed. */
  datatype Rounded = Rounded(d: Desk, positions: Option<seq<Position>>, l: Ledger)

  function Rounds(env: Env, d: Desk, ps: seq<Position>, attempt: nat, l: Ledger): Rounded
    decreases env.maxRetries + 1 - attempt
  {
    if attempt > env.maxRetries || ps == [] then Rounded(d, Some(ps), l)
    else
      var (d1, l1) := SubmitAll(env, d, ps, attempt, l);
      var (d2, answer) := Query(env, d1);
      if answer.None? then Rounded(d2, None, l1) else Rounds(env, d2, answer.value, attempt + 1, l1)
  }

  function Finish(env: Env, d: Desk, mode: Mode): Desk {
    var d1 := Did(d, DroppedStrategies(env.strategiesFail(d.trace)));
    if mode.Flatten? then Did(d1, SetState(Running, env.stateFails(d1.trace))) else d1
  }

  function Plain(mode: Mode, note: Note): Report {
    Report(mode, 0, [], [], [], false, [note])
  }

  /** A body ends with a report, or with an exception. */
  datatype Ending = Reported(d: Desk, report: Report) | Threw(d: Desk)

  /** From the first position query on: compare with the tracker, close in rounds, report. */
  function CloseOut(env: Env, d: Desk, mode: Mode, cancelled: nat): Ending {
    var (d1, answer) := Query(env, d);
    if answer.None? then Threw(d1)
    else
      var found := env.mismatches(d1.trace);
      var d2 := Did(d1, Reconciled(found));
      if found.None? then Threw(d2)
      else
        var notes := seq(found.value, _ => Mismatch) + if d2.bypassed then [Unlocked] else [];
        var end := Rounds(env, d2, answer.value, 1, Ledger([], notes));
        if end.positions.None? then Threw(end.d)
        else
          var all := if end.d.bypassed && Unlocked !in end.l.notes then end.l.notes + [Unlocked] else end.l.notes;
          Reported(Finish(env, end.d, mode),
                   Report(mode, cancelled, answer.value, end.l.sent, end.positions.value,
                          end.positions.value == [], all))
  }

  function CancelThenClose(env: Env, d: Desk, mode: Mode): Ending {
    var (d1, locked) := Lock(env, d);
    var answer := env.cancelAll(d1.trace);
    var d2 := Did(d1, CancelledAll(locked, answer));
    if answer.None? then Threw(d2) else CloseOut(env, d2, mode, answer.value)
  }

  function Defer(env: Env, d: Desk, mode: Mode): Ending {
    var failed := env.strategiesFail(d.trace);
    var d1 := Did(d, DroppedStrategies(failed));
    if failed then Threw(d1) else Reported(d1.(pending := Some(mode)), Plain(mode, Deferred))
  }

  function Body(env: Env, d: Desk, mode: Mode): Ending {
    var failed := env.stateFails(d.trace);
    var d1 := Did(d, SetState(Halted, failed));
    if failed then Threw(d1)
    else
      var tradable := env.tradable(d1.trace);
      var d2 := Did(d1, AskedTradable(tradable));
      if tradable == Some(false) then Defer(env, d2, mode)
      else
        var (d3, up) := EnsureConnected(env, d2.(pending := None));
        if !up then Reported(Finish(env, d3, mode), Plain(mode, CloseByHand)) else CancelThenClose(env, d3, mode)
  }

  /** Every exception ends in a report too. */
  function Recover(env: Env, e: Ending, mode: Mode): (Desk, Report) {
    match e
    case Reported(d, report) => (d, report)
    case Threw(d) =>
      var (d1, answer) := Query(env, d);
      var residual := if answer.Some? then answer.value else [];
      (Finish(env, d1, mode), Plain(mode, InternalFailure).(residual := residual))
  }

  function Execute(env: Env, d: Desk, mode: Mode): (Desk, Report) {
    Recover(env, Body(env, d.(bypassed := false, trace := Nothing), mode), mode)
  }
}
