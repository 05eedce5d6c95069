/**
  Concurrent triggers of the emergency close. Setting and clearing the flag are atomic under their own lock;
  halting and resuming the engine happen separately, inside the body that the flag admits. A run is any
  interleaving of the steps below.
 */
module EmergencyReentry {
  import opened Domain
  import opened EmergencyRules
  import opened EmergencyTheorems

  /**
    A body that has entered: the engine state it found; whether its halt and its resumption were asked for,
    and succeeded; and its report, once there is one.
   */
  datatype Body = Body(
    mode: Mode, found: EngineState, halted: Option<bool>, report: Option<Report>, resumed: Option<bool>)

  /** `bodies` holds the bodies now running, by caller; `last` the most recent one to leave. */
  datatype System = System(
    isClosing: bool, lastReport: Option<Report>, engine: EngineState, bodies: map<nat, Body>, last: Option<Body>)

  function Initial(engine: EngineState): System {
    System(false, None, engine, map[], None)
  }

  datatype Step =
    | Enter(caller: nat, mode: Mode)
    | Halt(caller: nat, failed: bool)
    | Settle(caller: nat, report: Report)
    | Resume(caller: nat, failed: bool)
    | Leave(caller: nat)

  /** A body asks for a resumption exactly when it is a flatten that was not deferred. */
  predicate WillResume(b: Body) {
    b.mode.Flatten? && b.report.Some? && b.report.value.notes != [Deferred]
  }

  predicate Enabled(s: System, step: Step) {
    if step.Enter? then step.caller !in s.bodies
    else
      && step.caller in s.bodies
      && var b := s.bodies[step.caller];
         match step
         case Halt(_, _) => b.halted.None?
         case Settle(_, _) => b.halted.Some? && b.report.None?
         case Resume(_, _) => WillResume(b) && b.resumed.None?
         case Leave(_) => b.report.Some? && (WillResume(b) ==> b.resumed.Some?)
         case Enter(_, _) => false
  }

  /** What a caller that is turned away is told. */
  function TurnedAway(s: System, mode: Mode): Report {
    if s.lastReport.Some? then s.lastReport.value else Plain(mode, AlreadyRunning)
  }

  function Next(s: System, step: Step): System
    requires Enabled(s, step)
  {
    match step
    case Enter(caller, mode) =>
      if s.isClosing then s
      else s.(isClosing := true, bodies := s.bodies[caller := Body(mode, s.engine, None, None, None)])
    case Halt(caller, failed) =>
      s.(engine := if failed then s.engine else Halted,
         bodies := s.bodies[caller := s.bodies[caller].(halted := Some(!failed))])
    case Settle(caller, report) => s.(bodies := s.bodies[caller := s.bodies[caller].(report := Some(report))])
    case Resume(caller, failed) =>
      s.(engine := if failed then s.engine else Running,
         bodies := s.bodies[caller := s.bodies[caller].(resumed := Some(!failed))])
    case Leave(caller) =>
      System(false, s.bodies[caller].report, s.engine, s.bodies - {caller}, Some(s.bodies[caller]))
  }

  ghost predicate Reachable(s: System, steps: seq<Step>, s': System)
    decreases |steps|
  {
    if steps == [] then s == s'
    else Enabled(s, steps[0]) && Reachable(Next(s, steps[0]), steps[1..], s')
  }

  // ---------------------------------------------------------------- the engine's state

  /** The engine's state as one body accounts for it. */
  function EngineAfter(b: Body): EngineState {
    if b.resumed == Some(true) then Running else if b.halted == Some(true) then Halted else b.found
  }

  predicate Staged(b: Body) {
    && (b.report.Some? ==> b.halted.Some?)
    && (b.resumed.Some? ==> WillResume(b))
  }

  ghost predicate Invariant(s: System) {
    && (s.isClosing <==> s.bodies != map[])
    && (forall i, j :: i in s.bodies && j in s.bodies ==> i == j)
    && (forall i :: i in s.bodies ==> Staged(s.bodies[i]) && s.engine == EngineAfter(s.bodies[i]))
    && (s.last.None? ==> s.lastReport.None?)
    && (s.last.Some? ==>
          var b := s.last.value;
          && b.report.Some? && s.lastReport == b.report && Staged(b) && (WillResume(b) <==> b.resumed.Some?)
          && (!s.isClosing ==> s.engine == EngineAfter(b)))
  }

  lemma StepKeeps(s: System, step: Step)
    requires Invariant(s) && Enabled(s, step)
    ensures Invariant(Next(s, step))
  {
    var s' := Next(s, step);
    if step.Leave? {
      assert s'.bodies == map[];
    } else if !step.Enter? || !s.isClosing {
      assert step.caller in s'.bodies;
    }
  }

  lemma {:induction false} RunKeeps(s: System, steps: seq<Step>, s': System)
    requires Invariant(s) && Reachable(s, steps, s')
    ensures Invariant(s')
    decreases |steps|
  {
    if steps != [] {
      StepKeeps(s, steps[0]);
      RunKeeps(Next(s, steps[0]), steps[1..], s');
    }
  }

  /**
    Over any interleaving at most one body runs and the flag says whether one does. A caller that is turned
    away hears the last report, never that of the running body.
   */
  lemma OneBodyAtATime(engine: EngineState, steps: seq<Step>, s: System, mode: Mode)
    requires Reachable(Initial(engine), steps, s)
    ensures forall i, j :: i in s.bodies && j in s.bodies ==> i == j
    ensures s.isClosing <==> exists i :: i in s.bodies
    ensures s.last.None? ==> TurnedAway(s, mode) == Plain(mode, AlreadyRunning)
    ensures s.last.Some? ==> s.last.value.report == Some(TurnedAway(s, mode))
  {
    RunKeeps(Initial(engine), steps, s);
    if s.bodies != map[] {
      assert s.bodies.Keys != {};
      var i :| i in s.bodies.Keys;
      assert i in s.bodies;
    }
  }

  /**
    The engine's state at every moment. While a body runs it is halted exactly between a successful halt and
    a successful resumption, and otherwise as the body found it; the flag alone does not mean halted.
   */
  lemma EngineWhileClosing(engine: EngineState, steps: seq<Step>, s: System, caller: nat)
    requires Reachable(Initial(engine), steps, s) && caller in s.bodies
    ensures var b := s.bodies[caller];
            s.engine.Running? <==> b.resumed == Some(true) || (b.halted != Some(true) && b.found.Running?)
  {
    RunKeeps(Initial(engine), steps, s);
  }

  /**
    Between executions the engine runs exactly when the last body resumed it, or neither halted it nor found it
    halted.
   */
  lemma EngineBetweenClosings(engine: EngineState, steps: seq<Step>, s: System)
    requires Reachable(Initial(engine), steps, s) && !s.isClosing && s.last.Some?
    ensures var b := s.last.value;
            && b.report.Some? && (b.resumed.Some? <==> b.mode.Flatten? && b.report.value.notes != [Deferred])
            && (s.engine.Running? <==> b.resumed == Some(true) || (b.halted != Some(true) && b.found.Running?))
  {
    RunKeeps(Initial(engine), steps, s);
  }

  // ---------------------------------------------------------------- executions are such runs

  /** The steps of one execution, read off its trace and its report. */
  function StepsOf(caller: nat, mode: Mode, t: Trace, r: Report): seq<Step>
    requires Switched(t, mode, r.notes == [Deferred])
  {
    var w := Switches(t);
    [Enter(caller, mode), Halt(caller, w[0].1), Settle(caller, r)]
    + if |w| == 2 then [Resume(caller, w[1].1), Leave(caller)] else [Leave(caller)]
  }

  lemma OneStep(s: System, step: Step, rest: seq<Step>, s': System)
    requires Enabled(s, step) && Reachable(Next(s, step), rest, s')
    ensures Reachable(s, [step] + rest, s')
  {
    assert ([step] + rest)[1..] == rest;
  }

  lemma NoSteps(s: System)
    ensures Reachable(s, [], s)
  {
  }

  /**
    Every execution against every environment, when nobody interferes, is a run of these steps: it enters,
    halts, reports, resumes exactly when `ResumesExactlyWhen` says so, and leaves its report behind.
   */
  lemma ExecutionIsARun(env: Env, d: Desk, mode: Mode, s: System, caller: nat) returns (s': System)
    requires !s.isClosing && s.bodies == map[]
    ensures var (d', r) := Execute(env, d, mode);
            && Switched(d'.trace, mode, r.notes == [Deferred])
            && Reachable(s, StepsOf(caller, mode, d'.trace, r), s')
            && !s'.isClosing && s'.lastReport == Some(r)
            && s'.last.Some? && (s'.last.value.resumed.Some? <==> Resumed(d'.trace))
  {
    var (d', r) := Execute(env, d, mode);
    ResumesExactlyWhen(env, d, mode);
    var w := Switches(d'.trace);
    var s1 := Next(s, Enter(caller, mode));
    var s2 := Next(s1, Halt(caller, w[0].1));
    var s3 := Next(s2, Settle(caller, r));
    if |w| == 2 {
      var s4 := Next(s3, Resume(caller, w[1].1));
      s' := Next(s4, Leave(caller));
      NoSteps(s');
      OneStep(s4, Leave(caller), [], s');
      assert [Leave(caller)] + [] == [Leave(caller)];
      OneStep(s3, Resume(caller, w[1].1), [Leave(caller)], s');
      assert [Resume(caller, w[1].1)] + [Leave(caller)] == [Resume(caller, w[1].1), Leave(caller)];
      Chain(s, s1, s2, s3, caller, mode, w[0].1, r, [Resume(caller, w[1].1), Leave(caller)], s');
    } else {
      s' := Next(s3, Leave(caller));
      NoSteps(s');
      OneStep(s3, Leave(caller), [], s');
      assert [Leave(caller)] + [] == [Leave(caller)];
      Chain(s, s1, s2, s3, caller, mode, w[0].1, r, [Leave(caller)], s');
    }
  }

  lemma Chain(s: System, s1: System, s2: System, s3: System, caller: nat, mode: Mode, failed: bool, r: Report,
              rest: seq<Step>, s': System)
    requires Enabled(s, Enter(caller, mode)) && s1 == Next(s, Enter(caller, mode))
    requires Enabled(s1, Halt(caller, failed)) && s2 == Next(s1, Halt(caller, failed))
    requires Enabled(s2, Settle(caller, r)) && s3 == Next(s2, Settle(caller, r))
    requires Reachable(s3, rest, s')
    ensures Reachable(s, [Enter(caller, mode), Halt(caller, failed), Settle(caller, r)] + rest, s')
  {
    OneStep(s2, Settle(caller, r), rest, s');
    OneStep(s1, Halt(caller, failed), [Settle(caller, r)] + rest, s');
    OneStep(s, Enter(caller, mode), [Halt(caller, failed)] + ([Settle(caller, r)] + rest), s');
    assert [Enter(caller, mode), Halt(caller, failed), Settle(caller, r)] + rest
        == [Enter(caller, mode)] + ([Halt(caller, failed)] + ([Settle(caller, r)] + rest));
  }

  // ---------------------------------------------------------------- two surprises

  /**
    A flatten asks the engine to run before it clears its flag, and sets the flag before it halts the engine,
    so there are two windows in which a running engine is being closed.
   */
  lemma RunsWhileClosing(caller: nat, report: Report) returns (before: System, after: System)
    requires report.notes != [Deferred]
    ensures Reachable(Initial(Running), [Enter(caller, Flatten)], before)
    ensures Reachable(Initial(Running), [Enter(caller, Flatten), Halt(caller, false), Settle(caller, report)]
                                        + [Resume(caller, false)], after)
    ensures before.isClosing && before.engine.Running? && after.isClosing && after.engine.Running?
  {
    var s := Initial(Running);
    before := Next(s, Enter(caller, Flatten));
    NoSteps(before);
    OneStep(s, Enter(caller, Flatten), [], before);
    assert [Enter(caller, Flatten)] + [] == [Enter(caller, Flatten)];
    var s2 := Next(before, Halt(caller, false));
    var s3 := Next(s2, Settle(caller, report));
    after := Next(s3, Resume(caller, false));
    NoSteps(after);
    OneStep(s3, Resume(caller, false), [], after);
    assert [Resume(caller, false)] + [] == [Resume(caller, false)];
    Chain(s, before, s2, s3, caller, Flatten, false, report, [Resume(caller, false)], after);
  }

  /** A panic triggered while a flatten is running is lost: the engine ends up running, not halted. */
  lemma PanicDuringFlattenIsLost(report: Report) returns (steps: seq<Step>, s: System)
    requires report.notes != [Deferred]
    ensures Reachable(Initial(Running), steps, s) && Enter(1, Panic) in steps
    ensures !s.isClosing && s.engine.Running?
  {
    var start := Initial(Running);
    var s1 := Next(start, Enter(0, Flatten));
    var s2 := Next(s1, Halt(0, false));
    var s3 := Next(s2, Settle(0, report));
    var s4 := Next(s3, Enter(1, Panic));
    var s5 := Next(s4, Resume(0, false));
    s := Next(s5, Leave(0));
    NoSteps(s);
    OneStep(s5, Leave(0), [], s);
    OneStep(s4, Resume(0, false), [Leave(0)] + [], s);
    OneStep(s3, Enter(1, Panic), [Resume(0, false)] + ([Leave(0)] + []), s);
    var rest := [Enter(1, Panic)] + ([Resume(0, false)] + ([Leave(0)] + []));
    Chain(start, s1, s2, s3, 0, Flatten, false, report, rest, s);
    steps := [Enter(0, Flatten), Halt(0, false), Settle(0, report)] + rest;
    assert steps[3] == Enter(1, Panic);
  }
}
