/** What the report of an emergency close says, compared with the calls that were made. */
module EmergencyReports {
  import opened Domain
  import opened EmergencyRules
  import T = EmergencyTheorems

  /**
    What a trace tells: attempts to reconnect, whether the link was up at the last look, the count that cancel-all
    returned, the answer to the first query, the mismatches found, the failed submissions, the queries so far,
    the times the limits were asked for, the closing orders, whether each of these was priced as it should
    be, and the times the strategies were dropped.
   */
  datatype Story = Story(
    connects: nat, up: bool, cancelled: Option<nat>, before: Option<seq<Position>>, found: nat,
    failures: seq<Note>, queries: nat, asks: nat, submissions: nat, priced: bool, drops: nat)

  const BLANK: Story := Story(0, false, None, None, 0, [], 0, 0, 0, true, 0)

  /** The last call asked for the daily limits. */
  predicate JustAsked(t: Trace) {
    t.And? && t.last.AskedLimits?
  }

  /** At the limit that buys at the most, or sells at the least, if the limits were just had; else at market. */
  predicate Priced(t: Trace, r: OrderRequest) {
    if JustAsked(t) && t.last.limits.Some? then
      r.priceType == LMT && r.price == Some(if r.action.Long? then t.last.limits.value.1 else t.last.limits.value.0)
    else r.priceType == MKP && r.price == None
  }

  /** A failed submission is noted under the round it belongs to, and every round begins with a query. */
  function Tell(t: Trace): Story {
    match t
    case Nothing => BLANK
    case And(e, c) =>
      var s := Tell(e);
      match c
      case Connected(_) => s.(connects := s.connects + 1)
      case ReadLink(up) => s.(up := up == Some(true))
      case CancelledAll(_, count) => s.(cancelled := count)
      case Queried(answer) => s.(before := if s.queries == 0 then answer else s.before, queries := s.queries + 1)
      case Reconciled(found) => s.(found := if found.Some? then found.value else 0)
      case AskedLimits(_) => s.(asks := s.asks + 1)
      case DroppedStrategies(_) => s.(drops := s.drops + 1)
      case Submitted(r, ack) =>
        s.(priced := s.priced && Priced(e, r),
           failures := if ack.None? then s.failures + [SubmitFailed(r.symbol, s.queries)] else s.failures,
           submissions := s.submissions + 1)
      case _ => s
  }

  // ---------------------------------------------------------------- deferral

  /** The calls of a deferred close: the engine is halted, the session asked for, the strategies dropped. */
  function DeferredCalls(): Trace {
    And(And(And(Nothing, SetState(Halted, false)), AskedTradable(Some(false))), DroppedStrategies(false))
  }

  /**
    A close is deferred exactly when the engine could be halted, the tradability test answered no, and the
    strategies could be dropped; a test that raises counts as a yes. Nothing is cancelled, asked or sent then.
   */
  lemma DefersExactlyWhen(env: Env, d: Desk, mode: Mode)
    ensures var (d', r) := Execute(env, d, mode);
            var halted := And(Nothing, SetState(Halted, false));
            && (Deferred in r.notes <==>
                  && !env.stateFails(Nothing) && env.tradable(halted) == Some(false)
                  && !env.strategiesFail(And(halted, AskedTradable(Some(false)))))
            && (Deferred in r.notes ==> d'.trace == DeferredCalls() && r == Plain(mode, Deferred))
  {
    var start := d.(bypassed := false, trace := Nothing);
    var d1 := Did(start, SetState(Halted, false));
    var d2 := Did(d1, AskedTradable(env.tradable(d1.trace)));
    if !env.stateFails(Nothing) && env.tradable(d1.trace) != Some(false) {
      var (d3, up) := EnsureConnected(env, d2.(pending := None));
      if up { CloseNotDeferred(env, d3, mode); }
    }
  }

  lemma CloseNotDeferred(env: Env, d: Desk, mode: Mode)
    ensures var e := CancelThenClose(env, d, mode); e.Reported? ==> Deferred !in e.report.notes
  {
    var (d1, locked) := Lock(env, d);
    var answer := env.cancelAll(d1.trace);
    var d2 := Did(d1, CancelledAll(locked, answer));
    var (d3, listed) := Query(env, d2);
    var found := env.mismatches(d3.trace);
    var d4 := Did(d3, Reconciled(found));
    if answer.Some? && listed.Some? && found.Some? {
      var notes := seq(found.value, _ => Mismatch) + if d4.bypassed then [Unlocked] else [];
      assert InternalFailure !in notes && Deferred !in notes;
      T.RoundNotesKeepOut(env, d4, listed.value, 1, Ledger([], notes));
    }
  }

  // ---------------------------------------------------------------- the link

  /** The calls only look at the link or try to bring it up. */
  predicate SameButLink(s: Story, s': Story) {
    s'.(connects := 0, up := false) == s.(connects := 0, up := false)
  }

  lemma {:induction false} ReconnectTells(env: Env, d: Desk, tries: nat)
    requires !Tell(d.trace).up
    ensures var (d', up) := Reconnect(env, d, tries);
            var s, s' := Tell(d.trace), Tell(d'.trace);
            && SameButLink(s, s') && s'.up == up && s.connects <= s'.connects <= s.connects + tries
            && (!up ==> s'.connects == s.connects + tries) && T.TimedOut(d'.trace) == T.TimedOut(d.trace)
            && d'.bypassed == d.bypassed
    decreases tries
  {
    if tries > 0 {
      var d1 := Did(d, Connected(env.connectFails(d.trace)));
      assert Tell(d1.trace) == Tell(d.trace).(connects := Tell(d.trace).connects + 1);
      if env.connectFails(d.trace) {
        ReconnectTells(env, d1, tries - 1);
      } else {
        var d2 := Did(d1, ReadLink(env.connected(d1.trace)));
        assert Tell(d2.trace) == Tell(d1.trace).(up := env.connected(d1.trace) == Some(true));
        if env.connected(d1.trace) != Some(true) { ReconnectTells(env, d2, tries - 1); }
      }
    }
  }

  /** The link is looked at once, and unless it is up, up to three reconnections follow, all three if none helps. */
  lemma LinkTells(env: Env, d: Desk)
    requires Tell(d.trace) == BLANK && !T.TimedOut(d.trace) && !d.bypassed
    ensures var (d', up) := EnsureConnected(env, d);
            var s := Tell(d'.trace);
            && SameButLink(BLANK, s) && s.up == up && s.connects <= 3 && (!up ==> s.connects == 3)
            && !T.TimedOut(d'.trace) && !d'.bypassed
            && (env.connected(d.trace) == Some(true) ==> s.connects == 0)
  {
    var d1 := Did(d, ReadLink(env.connected(d.trace)));
    assert Tell(d1.trace) == BLANK.(up := env.connected(d.trace) == Some(true));
    if env.connected(d.trace) != Some(true) { ReconnectTells(env, d1, 3); }
  }

  // ---------------------------------------------------------------- the rounds

  /** What waiting for the lock and looking at the clock never changes. */
  lemma LockTells(env: Env, d: Desk)
    requires d.bypassed == T.TimedOut(d.trace)
    ensures var d' := Lock(env, d).0;
            Tell(d'.trace) == Tell(d.trace) && d'.bypassed == T.TimedOut(d'.trace) && (d.bypassed ==> d'.bypassed)
  {
  }

  lemma QueryTells(env: Env, d: Desk)
    requires d.bypassed == T.TimedOut(d.trace)
    ensures var (d', answer) := Query(env, d);
            var s := Tell(d.trace);
            && Tell(d'.trace) == s.(before := if s.queries == 0 then answer else s.before, queries := s.queries + 1)
            && d'.bypassed == T.TimedOut(d'.trace) && (d.bypassed ==> d'.bypassed)
  {
    LockTells(env, d);
  }

  /** The notes are those taken before the rounds, and one for each failed submission since. */
  predicate Noted(env: Env, d: Desk, l: Ledger, first: seq<Note>) {
    && d.bypassed == T.TimedOut(d.trace) && l.notes == first + Tell(d.trace).failures
    && !JustAsked(d.trace) && Tell(d.trace).priced
    && Tell(d.trace).asks == if env.useMarket then 0 else Tell(d.trace).submissions
  }

  lemma SubmitTells(env: Env, d: Desk, p: Position, attempt: nat, l: Ledger, first: seq<Note>)
    requires Noted(env, d, l, first) && Tell(d.trace).queries == attempt
    ensures var (d', l') := SubmitOne(env, d, p, attempt, l);
            var s, s' := Tell(d.trace), Tell(d'.trace);
            && Noted(env, d', l', first) && d'.bypassed == d.bypassed
            && s' == s.(failures := s'.failures, asks := s'.asks, submissions := s.submissions + 1)
  {
    var (d1, r) := MakeClose(env, d, p);
    assert r.symbol == p.code && Priced(d1.trace, r);
    assert Tell(d1.trace) == Tell(d.trace).(asks := Tell(d.trace).asks + if env.useMarket then 0 else 1);
  }

  lemma {:induction false} SubmitAllTells(env: Env, d: Desk, ps: seq<Position>, attempt: nat, l: Ledger,
                                          first: seq<Note>)
    requires Noted(env, d, l, first) && Tell(d.trace).queries == attempt
    ensures var (d', l') := SubmitAll(env, d, ps, attempt, l);
            var s, s' := Tell(d.trace), Tell(d'.trace);
            && Noted(env, d', l', first) && d'.bypassed == d.bypassed
            && s' == s.(failures := s'.failures, asks := s'.asks, submissions := s.submissions + |ps|)
    decreases |ps|
  {
    if ps != [] {
      var (d1, l1) := SubmitOne(env, d, ps[0], attempt, l);
      SubmitTells(env, d, ps[0], attempt, l, first);
      SubmitAllTells(env, d1, ps[1..], attempt, l1, first);
    }
  }

  /** One round: its closing orders, and the query after them. */
  lemma RoundTells(env: Env, d: Desk, ps: seq<Position>, attempt: nat, l: Ledger, first: seq<Note>)
    requires Noted(env, d, l, first) && Tell(d.trace).queries == attempt >= 1
    ensures var (d1, l1) := SubmitAll(env, d, ps, attempt, l);
            var (d2, answer) := Query(env, d1);
            var s, s' := Tell(d.trace), Tell(d2.trace);
            && Noted(env, d2, l1, first) && s'.queries == attempt + 1 && (d.bypassed ==> d2.bypassed)
            && s' == s.(failures := s'.failures, asks := s'.asks, submissions := s'.submissions, queries := s'.queries)
  {
    SubmitAllTells(env, d, ps, attempt, l, first);
    QueryTells(env, SubmitAll(env, d, ps, attempt, l).0);
  }

  lemma {:induction false} RoundsTell(env: Env, d: Desk, ps: seq<Position>, attempt: nat, l: Ledger, first: seq<Note>)
    requires Noted(env, d, l, first) && Tell(d.trace).queries == attempt >= 1
    ensures var end := Rounds(env, d, ps, attempt, l);
            var s, s' := Tell(d.trace), Tell(end.d.trace);
            && Noted(env, end.d, end.l, first) && (d.bypassed ==> end.d.bypassed)
            && s' == s.(failures := s'.failures, asks := s'.asks, submissions := s'.submissions, queries := s'.queries)
    decreases env.maxRetries + 1 - attempt
  {
    if attempt <= env.maxRetries && ps != [] {
      var (d1, l1) := SubmitAll(env, d, ps, attempt, l);
      var (d2, answer) := Query(env, d1);
      RoundTells(env, d, ps, attempt, l, first);
      if answer.Some? { RoundsTell(env, d2, answer.value, attempt + 1, l1, first); }
    }
  }

  lemma FinishTells(env: Env, d: Desk, mode: Mode)
    ensures var d' := Finish(env, d, mode);
            && Tell(d'.trace) == Tell(d.trace).(drops := Tell(d.trace).drops + 1)
            && T.TimedOut(d'.trace) == T.TimedOut(d.trace)
  {
  }

  // ---------------------------------------------------------------- the report

  /**
    One note for each mismatch, then one for each failed submission in order, and exactly one, before or after
    these, if the lock was ever given up.
   */
  predicate NotesTell(notes: seq<Note>, found: nat, failures: seq<Note>, timedOut: bool) {
    var mismatches := seq(found, _ => Mismatch);
    || (!timedOut && notes == mismatches + failures)
    || (timedOut && (notes == mismatches + [Unlocked] + failures || notes == mismatches + failures + [Unlocked]))
  }

  /** The report of a close that got as far as its rounds repeats what the calls told. */
  predicate Repeats(useMarket: bool, r: Report, t: Trace) {
    var s := Tell(t);
    && s.priced && s.asks == (if useMarket then 0 else s.submissions)
    && s.up && s.connects <= 3
    && s.cancelled == Some(r.cancelled) && s.before == Some(r.before)
    && NotesTell(r.notes, s.found, s.failures, T.TimedOut(t))
  }

  /** The failures are notes of failed submissions, so the notes can be told apart. */
  lemma {:induction false} FailuresAreFailures(t: Trace)
    ensures forall n :: n in Tell(t).failures ==> n.SubmitFailed?
  {
    if t.And? { FailuresAreFailures(t.earlier); }
  }

  lemma NotesFit(found: nat, early: bool, failures: seq<Note>, late: bool)
    requires (early ==> late) && forall n :: n in failures ==> n.SubmitFailed?
    ensures var first := seq(found, _ => Mismatch) + if early then [Unlocked] else [];
            var notes := first + failures;
            NotesTell(if late && Unlocked !in notes then notes + [Unlocked] else notes, found, failures, late)
  {
    var mismatches := seq(found, _ => Mismatch);
    assert mismatches + [] == mismatches;
    assert Unlocked !in mismatches && Unlocked !in failures;
  }

  lemma CloseOutTells(env: Env, d: Desk, mode: Mode, cancelled: nat)
    requires d.bypassed == T.TimedOut(d.trace) && Tell(d.trace).up && Tell(d.trace).connects <= 3
    requires SameButLink(BLANK.(cancelled := Some(cancelled)), Tell(d.trace))
    ensures var e := CloseOut(env, d, mode, cancelled); e.Reported? ==> Repeats(env.useMarket, e.report, e.d.trace)
  {
    var (d1, answer) := Query(env, d);
    var found := env.mismatches(d1.trace);
    var d2 := Did(d1, Reconciled(found));
    QueryTells(env, d);
    if answer.Some? && found.Some? {
      var first := seq(found.value, _ => Mismatch) + if d2.bypassed then [Unlocked] else [];
      var end := Rounds(env, d2, answer.value, 1, Ledger([], first));
      assert first + [] == first;
      RoundsTell(env, d2, answer.value, 1, Ledger([], first), first);
      FailuresAreFailures(end.d.trace);
      FinishTells(env, end.d, mode);
      NotesFit(found.value, d2.bypassed, Tell(end.d.trace).failures, end.d.bypassed);
    }
  }

  /** What the report says against what happened, whatever the environment did. */
  ghost predicate ReportTells(useMarket: bool, d: Desk, r: Report) {
    var s := Tell(d.trace);
    && s.drops >= 1
    && if InternalFailure in r.notes then r.notes == [InternalFailure] && r.cancelled == 0 && r.before == []
    else if Deferred in r.notes then d.trace == DeferredCalls() && r == Plain(r.mode, Deferred)
    else if !s.up then
      && r == Plain(r.mode, CloseByHand) && s.connects == 3
      && s.cancelled.None? && s.queries == 0 && s.submissions == 0
    else Repeats(useMarket, r, d.trace)
  }

  lemma CancelTells(env: Env, d: Desk, mode: Mode)
    requires d.bypassed == T.TimedOut(d.trace) && Tell(d.trace).up && Tell(d.trace).connects <= 3
    requires SameButLink(BLANK, Tell(d.trace))
    ensures var e := CancelThenClose(env, d, mode); e.Reported? ==> Repeats(env.useMarket, e.report, e.d.trace)
  {
    var (d1, locked) := Lock(env, d);
    var answer := env.cancelAll(d1.trace);
    var d2 := Did(d1, CancelledAll(locked, answer));
    LockTells(env, d);
    if answer.Some? { CloseOutTells(env, d2, mode, answer.value); }
  }

  /** From the look at the link on. */
  lemma LinkedTells(env: Env, d: Desk, mode: Mode)
    requires Tell(d.trace) == BLANK && !T.TimedOut(d.trace) && !d.bypassed
    ensures var (d', up) := EnsureConnected(env, d);
            var e := if up then CancelThenClose(env, d', mode)
                     else Reported(Finish(env, d', mode), Plain(mode, CloseByHand));
            e.Reported? && InternalFailure !in e.report.notes && Deferred !in e.report.notes
            ==> ReportTells(env.useMarket, e.d, e.report)
  {
    var (d', up) := EnsureConnected(env, d);
    LinkTells(env, d);
    FinishTells(env, d', mode);
    if up { CancelTells(env, d', mode); }
  }

  lemma BodyTells(env: Env, d: Desk, mode: Mode)
    requires d.trace == Nothing && !d.bypassed
    ensures var e := Body(env, d, mode);
            e.Reported? && InternalFailure !in e.report.notes && Deferred !in e.report.notes
            ==> ReportTells(env.useMarket, e.d, e.report)
  {
    var d1 := Did(d, SetState(Halted, false));
    var d2 := Did(d1, AskedTradable(env.tradable(d1.trace))).(pending := None);
    assert Tell(d1.trace) == BLANK && Tell(d2.trace) == BLANK && !T.TimedOut(d2.trace);
    if !env.stateFails(Nothing) && env.tradable(d1.trace) != Some(false) { LinkedTells(env, d2, mode); }
  }

  /**
    Whatever the environment does, the report tells what was done. Closing by hand is asked for exactly when the
    link is down after three reconnections, and then nothing was cancelled or sent; any other close that ran through
    reports the count that cancel-all returned, the positions first listed, every mismatch, every failed
    submission with its round, and whether the lock was given up; and each of its orders was priced as it should be.
    The strategies are dropped in every case.
   */
  lemma ReportTellsAll(env: Env, d: Desk, mode: Mode)
    ensures var (d', r) := Execute(env, d, mode); ReportTells(env.useMarket, d', r)
  {
    var start := d.(bypassed := false, trace := Nothing);
    DefersExactlyWhen(env, d, mode);
    BodyTells(env, start, mode);
    T.BodyEnds(env, start, mode);
  }
}
