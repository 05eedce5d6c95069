/** The emergency closer itself, proved against `EmergencyRules`. */
module EmergencyCloser {
  import opened Domain
  import opened EmergencyRules

  /**
    `env` stands for the settings and everything outside the closer during one call; its answers may depend on
    `trace`.
   */
  class EmergencyCloser {
    var isClosing: bool
    var pending: Option<Mode>
    var lastReport: Option<Report>
    var lockBypassed: bool
    var trace: Trace

    ghost function Value(): Desk
      reads this
    {
      Desk(lockBypassed, pending, trace)
    }

    constructor ()
      ensures !isClosing && lastReport.None? && Value() == Desk(false, None, Nothing)
    {
      isClosing, pending, lastReport, lockBypassed, trace := false, None, None, false, Nothing;
    }

    /** A repeated trigger only repeats the last report; any other call runs to its own report. */
    method Execute(env: Env, mode: Mode) returns (report: Report)
      modifies this
      ensures old(isClosing) ==> unchanged(this)
                                 && report == if lastReport.Some? then lastReport.value else Plain(mode, AlreadyRunning)
      ensures !old(isClosing) ==> (Value(), report) == EmergencyRules.Execute(env, old(Value()), mode)
      ensures !old(isClosing) ==> !isClosing && lastReport == Some(report)
    {
      if isClosing {
        return if lastReport.Some? then lastReport.value else Plain(mode, AlreadyRunning);
      }
      isClosing, lockBypassed, trace := true, false, Nothing;
      var ended := Body(env, mode);
      if ended.Some? {
        report := ended.value;
      } else {
        var residual := ListPositions(env);
        report := Report(mode, 0, [], [], if residual.Some? then residual.value else [], false, [InternalFailure]);
        FinishStrategiesAndState(env, mode);
      }
      lastReport, isClosing := Some(report), false;
    }

    /** The body of a close; no report means that an exception escaped from it. */
    method Body(env: Env, mode: Mode) returns (report: Option<Report>)
      modifies this
      ensures unchanged(`isClosing) && unchanged(`lastReport)
      ensures var e := EmergencyRules.Body(env, old(Value()), mode);
              Value() == e.d && report == if e.Reported? then Some(e.report) else None
    {
      report := None;
      var failed := env.stateFails(trace);
      Record(SetState(Halted, failed));
      if failed {
        return;
      }
      var tradable := env.tradable(trace);
      Record(AskedTradable(tradable));
      if tradable == Some(false) {
        failed := env.strategiesFail(trace);
        Record(DroppedStrategies(failed));
        if failed {
          return;
        }
        pending := Some(mode);
        return Some(Plain(mode, Deferred));
      }
      pending := None;
      var up := EnsureConnected(env);
      if !up {
        FinishStrategiesAndState(env, mode);
        return Some(Plain(mode, CloseByHand));
      }
      var locked := EmergencyLock(env);
      var cancelled := env.cancelAll(trace);
      Record(CancelledAll(locked, cancelled));
      if cancelled.Some? {
        report := CloseOut(env, mode, cancelled.value);
      }
    }

    method CloseOut(env: Env, mode: Mode, cancelled: nat) returns (report: Option<Report>)
      modifies this
      ensures unchanged(`isClosing) && unchanged(`lastReport)
      ensures var e := EmergencyRules.CloseOut(env, old(Value()), mode, cancelled);
              Value() == e.d && report == if e.Reported? then Some(e.report) else None
    {
      var before := ListPositions(env);
      if before.None? {
        return None;
      }
      var found := env.mismatches(trace);
      Record(Reconciled(found));
      if found.None? {
        return None;
      }
      var notes := seq(found.value, _ => Mismatch) + if lockBypassed then [Unlocked] else [];
      var residual, sent, after := CloseRounds(env, before.value, notes);
      if residual.None? {
        return None;
      }
      if lockBypassed && Unlocked !in after {
        after := after + [Unlocked];
      }
      report := Some(Report(mode, cancelled, before.value, sent, residual.value, residual.value == [], after));
      FinishStrategiesAndState(env, mode);
    }

    /** Rounds of closing orders, each followed by a fresh position query, until flat or out of retries. */
    method CloseRounds(env: Env, before: seq<Position>, notes0: seq<Note>)
      returns (residual: Option<seq<Position>>, sent: seq<OrderAck>, notes: seq<Note>)
      modifies this`trace, this`lockBypassed
      ensures Rounded(Value(), residual, Ledger(sent, notes))
              == Rounds(env, old(Value()), before, 1, Ledger([], notes0))
    {
      sent, notes := [], notes0;
      var positions, attempt := before, 1;
      while attempt <= env.maxRetries && positions != []
        invariant 1 <= attempt <= env.maxRetries + 1 && pending == old(pending)
        invariant Rounds(env, Value(), positions, attempt, Ledger(sent, notes))
               == Rounds(env, old(Value()), before, 1, Ledger([], notes0))
      {
        sent, notes := SubmitAll(env, positions, attempt, sent, notes);
        residual := ListPositions(env);
        if residual.None? {
          return;
        }
        positions, attempt := residual.value, attempt + 1;
      }
      residual := Some(positions);
    }

    /** Tries to close every listed position once; a failed submission is noted and the others still go out. */
    method SubmitAll(env: Env, positions: seq<Position>, attempt: nat, sent0: seq<OrderAck>, notes0: seq<Note>)
      returns (sent: seq<OrderAck>, notes: seq<Note>)
      modifies this`trace
      ensures (Value(), Ledger(sent, notes))
              == EmergencyRules.SubmitAll(env, old(Value()), positions, attempt, Ledger(sent0, notes0))
    {
      sent, notes := sent0, notes0;
      var i := 0;
      while i < |positions|
        invariant 0 <= i <= |positions|
        invariant EmergencyRules.SubmitAll(env, Value(), positions[i..], attempt, Ledger(sent, notes))
               == EmergencyRules.SubmitAll(env, old(Value()), positions, attempt, Ledger(sent0, notes0))
        invariant lockBypassed == old(lockBypassed) && pending == old(pending)
      {
        assert positions[i..][1..] == positions[i + 1..];
        var request := CloseRequest(env, positions[i]);
        var answer := env.submit(trace, request);
        Record(Submitted(request, answer));
        if answer.Some? {
          sent := sent + [answer.value];
        } else {
          notes := notes + [SubmitFailed(positions[i].code, attempt)];
        }
        i := i + 1;
      }
    }

    method CloseRequest(env: Env, p: Position) returns (r: OrderRequest)
      modifies this`trace
      ensures (Value(), r) == MakeClose(env, old(Value()), p)
    {
      var action := p.direction.Opposite();
      var priceType, price := MKP, None;
      if !env.useMarket {
        var limits := env.limits(trace);
        Record(AskedLimits(limits));
        if limits.Some? {
          priceType := LMT;
          price := Some(if action.Long? then limits.value.1 else limits.value.0);
        }
      }
      r := Order(p.code, action, p.quantity, price, priceType, IOC, Emergency, env.newId(trace), "");
    }

    method EnsureConnected(env: Env) returns (up: bool)
      modifies this`trace
      ensures (Value(), up) == EmergencyRules.EnsureConnected(env, old(Value()))
    {
      var answer := env.connected(trace);
      Record(ReadLink(answer));
      if answer == Some(true) {
        return true;
      }
      ghost var start := Value();
      var attempt := 1;
      while attempt <= RECONNECTS
        invariant 1 <= attempt <= RECONNECTS + 1
        invariant Reconnect(env, Value(), RECONNECTS + 1 - attempt) == Reconnect(env, start, RECONNECTS)
        invariant lockBypassed == old(lockBypassed) && pending == old(pending)
      {
        var failed := env.connectFails(trace);
        Record(Connected(failed));
        if !failed {
          answer := env.connected(trace);
          Record(ReadLink(answer));
          if answer == Some(true) {
            return true;
          }
        }
        attempt := attempt + 1;
      }
      return false;
    }

    method ListPositions(env: Env) returns (answer: Option<seq<Position>>)
      modifies this`trace, this`lockBypassed
      ensures (Value(), answer) == Query(env, old(Value()))
    {
      var _ := EmergencyLock(env);
      answer := env.positions(trace);
      Record(Queried(answer));
    }

    method EmergencyLock(env: Env) returns (locked: bool)
      modifies this`trace, this`lockBypassed
      ensures (Value(), locked) == Lock(env, old(Value()))
    {
      if lockBypassed {
        return false;
      }
      locked := env.lockFree(trace);
      Record(TriedLock(locked));
      if !locked {
        lockBypassed := true;
      }
    }

    method FinishStrategiesAndState(env: Env, mode: Mode)
      modifies this`trace
      ensures Value() == Finish(env, old(Value()), mode)
    {
      Record(DroppedStrategies(env.strategiesFail(trace)));
      if mode == Flatten {
        Record(SetState(Running, env.stateFails(trace)));
      }
    }

    /** One call to the outside world has been made. */
    method Record(c: Call)
      modifies this`trace
      ensures Value() == Did(old(Value()), c)
    {
      trace := And(trace, c);
    }
  }
}
