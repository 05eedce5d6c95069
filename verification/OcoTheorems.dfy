/** The two-sided strategy behaves exactly like the one-sided strategy of the side that triggered. */
module OcoTheorems {
  import opened Domain
  import opened StrategyBase
  import opened ScalpRules
  import opened ScalpTheorems
  import opened OcoRules

  /** Equal, except that a leg that needs no prices may not have seen the latest one. */
  predicate Like(a: Scalp, b: Scalp) {
    a.(latest := None) == b.(latest := None) && (Exposed(a.state) ==> a.latest == b.latest)
  }

  lemma LikeReacts(p: Params, a: Scalp, b: Scalp, i: Input)
    requires Like(a, b)
    ensures var r, q := React(p, a, i), React(p, b, i);
            Like(r.next, q.next) && r.signals == q.signals && r.raised == q.raised
  {
    if i.Fill? && a.state.EntryPending? { assert a == b; }
    if i.Tick? { assert a.(latest := Some(i.price)) == b.(latest := Some(i.price)); }
    if i.CloseNow? { LikeEmits(p, a, b); }
  }

  lemma LikeEmits(p: Params, a: Scalp, b: Scalp)
    requires Like(a, b)
    ensures var r, q := EmitExit(p, a, ForceClose, false), EmitExit(p, b, ForceClose, false);
            Like(r.next, q.next) && r.signals == q.signals && r.raised == q.raised
  {
  }

  /** A leg on which nothing was ever bought. */
  predicate Untouched(s: Scalp) {
    s.filled == 0 && !s.exitEmitted && s.entryPrice.None?
  }

  /** Before a side triggers the legs move together; afterwards the composite is its active leg. */
  ghost predicate Coupled(p: OcoParams, o: Oco) {
    && Sound(LegSetup(p, Long), o.long) && Sound(LegSetup(p, Short), o.short)
    && match o.active
       case None =>
         && o.state in {Idle, Armed, Cancelled, Aborted} && o.long.state == o.short.state == o.state
         && Untouched(o.long) && Untouched(o.short)
       case Some(d) =>
         && o.state == Leg(o, d).state && Rank(o.state) >= Rank(EntryPending)
         && Terminal(Leg(o, d.Opposite()).state) && Untouched(Leg(o, d.Opposite()))
  }

  /** The calls the composite answers with an error. */
  predicate OcoRefuses(p: OcoParams, o: Oco, i: Input) {
    match o.active
    case Some(d) => Refuses(LegSetup(p, d), Leg(o, d), i)
    case None => (i.Arm? && !o.state.Idle?) || (i.Cancel? && o.state !in {Idle, Armed})
  }

  /** After delegating, the leg has made at most two steps that together are one legal transition. */
  lemma LegStepIsLegal(p: Params, s: Scalp, i: Input)
    requires Sound(p, s) && !React(p, s, i).raised
    ensures var s' := React(p, s, i).next; s'.state == s.state || Legal(s.state, s'.state)
  {
    if i.Fill? && s.state.EntryPending? {
      ProtectProtects(p, Complete(p, Accumulate(p, s, i.price, i.quantity)), i.price);
    } else if i.Tick? && Exposed(s.state) && s.filled > 0 {
      CheckProtects(p, s.(latest := Some(i.price)), i.price, false);
    }
  }

  lemma DelegateCouples(p: OcoParams, o: Oco, i: Input)
    requires Coupled(p, o) && o.active.Some? && !i.Arm? && !i.Abort?
    ensures var d := o.active.value;
            var r, q := Delegate(p, o, d, i), React(LegSetup(p, d), Leg(o, d), i);
            && Coupled(p, r.next) && r.raised == q.raised && r.signals == q.signals && Leg(r.next, d) == q.next
            && r.next.active == o.active
  {
    var d := o.active.value;
    var q := React(LegSetup(p, d), Leg(o, d), i);
    StepIsSound(LegSetup(p, d), Leg(o, d), i);
    if !Refuses(LegSetup(p, d), Leg(o, d), i) { LegStepIsLegal(LegSetup(p, d), Leg(o, d), i); }
    RanksStay(LegSetup(p, d), Leg(o, d), i);
    SyncCouples(p, o, d, q);
    assert Delegate(p, o, d, i) == Followed(o, d, q);
  }

  /** The composite after its leg has answered. */
  function Followed(o: Oco, d: Direction, q: Reaction): OcoReaction {
    if q.raised then OcoReaction(WithLeg(o, d, q.next), [], true) else Sync(WithLeg(o, d, q.next), q.signals)
  }

  lemma SyncCouples(p: OcoParams, o: Oco, d: Direction, q: Reaction)
    requires Coupled(p, o) && o.active == Some(d) && Sound(LegSetup(p, d), q.next)
    requires Rank(Leg(o, d).state) <= Rank(q.next.state) && (q.raised ==> q.signals == [] && q.next == Leg(o, d))
    requires !q.raised ==> q.next.state == o.state || Legal(o.state, q.next.state)
    ensures var r := Followed(o, d, q);
            && Coupled(p, r.next) && r.raised == q.raised && r.signals == q.signals && Leg(r.next, d) == q.next
            && r.next.active == o.active
  {
  }

  lemma RanksStay(p: Params, s: Scalp, i: Input)
    requires Sound(p, s)
    ensures var r := React(p, s, i);
            Rank(s.state) <= Rank(r.next.state) && (r.raised ==> r.signals == [])
  {
    StepIsSound(p, s, i);
    TransitionsRise(s.state);
    if !Refuses(p, s, i) { LegStepIsLegal(p, s, i); }
  }

  // ---------------------------------------------------------------- one call

  lemma ActiveStep(p: OcoParams, o: Oco, i: Input)
    requires Coupled(p, o) && o.active.Some?
    ensures var d := o.active.value;
            var r, q := OcoReact(p, o, i), React(LegSetup(p, d), Leg(o, d), i);
            && Coupled(p, r.next) && r.next.active == o.active && (r.raised <==> OcoRefuses(p, o, i))
               && r.raised == q.raised
            && r.signals == q.signals && (r.raised ==> r.next == o) && Like(Leg(r.next, d), q.next)
  {
    var d := o.active.value;
    StepIsSound(LegSetup(p, d), Leg(o, d), i);
    if i in {Arm, Cancel, Abort} {
      CommandActive(p, o, i);
    } else if (i.Tick? || i.CloseNow?) && (Terminal(o.state) || o.state.ExitPending?) {
    } else {
      DelegateCouples(p, o, i);
    }
  }

  lemma CommandActive(p: OcoParams, o: Oco, i: Input)
    requires Coupled(p, o) && o.active.Some? && i in {Arm, Cancel, Abort}
    ensures var d := o.active.value;
            var r, q := OcoReact(p, o, i), React(LegSetup(p, d), Leg(o, d), i);
            && Coupled(p, r.next) && r.next.active == o.active && r.raised == q.raised && r.signals == q.signals == []
            && (r.raised ==> r.next == o) && Leg(r.next, d) == q.next
  {
    StepIsSound(LegSetup(p, Long), o.long, i);
    StepIsSound(LegSetup(p, Short), o.short, i);
  }

  /** No price triggers both sides. */
  lemma NoTickTriggersBoth(p: OcoParams, price: real)
    ensures !(Reached(Long, price, LegSetup(p, Long).trigger) && Reached(Short, price, LegSetup(p, Short).trigger))
  {
  }

  /** The calls on which a waiting composite commits itself to a side. */
  predicate Chooses(p: OcoParams, o: Oco, i: Input) {
    i.Tick? && o.state.Armed? && (Reached(Long, i.price, p.upper) || Reached(Short, i.price, p.lower))
  }

  /** While neither side has triggered, each leg does what it would do alone; the first tick to trigger one decides. */
  lemma WaitingStep(p: OcoParams, o: Oco, i: Input, d: Direction)
    requires Coupled(p, o) && o.active.None?
    ensures var r, q := OcoReact(p, o, i), React(LegSetup(p, d), Leg(o, d), i);
            && Coupled(p, r.next) && (r.raised <==> OcoRefuses(p, o, i)) && (r.raised ==> r.next == o)
            && (r.next.active in {None, Some(d)} ==> r.signals == q.signals && Like(Leg(r.next, d), q.next))
            && (r.next.active.Some? <==> Chooses(p, o, i))
            && (r.next.active.Some? ==> r.signals == [EntrySignal(LegSetup(p, r.next.active.value))])
  {
    if i.Tick? && o.state.Armed? {
      WaitingTick(p, o, i.price, d);
    } else {
      WaitingCommand(p, o, i, d);
    }
  }

  lemma WaitingCommand(p: OcoParams, o: Oco, i: Input, d: Direction)
    requires Coupled(p, o) && o.active.None? && !(i.Tick? && o.state.Armed?)
    ensures var r, q := OcoReact(p, o, i), React(LegSetup(p, d), Leg(o, d), i);
            && Coupled(p, r.next) && (r.raised <==> OcoRefuses(p, o, i)) && (r.raised ==> r.next == o)
            && r.next.active.None? && r.signals == q.signals == [] && Like(Leg(r.next, d), q.next)
  {
    LegWaits(LegSetup(p, d), Leg(o, d), i);
    if i in {Arm, Cancel, CloseNow} { CommandWaits(p, o, i); } else { OthersWait(p, o, i); }
  }

  /** Both legs as they would answer alone, and nothing sent. */
  ghost predicate StillWaits(p: OcoParams, o: Oco, i: Input, r: OcoReaction) {
    && Coupled(p, r.next) && (r.raised <==> OcoRefuses(p, o, i)) && (r.raised ==> r.next == o)
    && r.next.active.None? && r.signals == []
    && Like(r.next.long, React(LegSetup(p, Long), o.long, i).next)
    && Like(r.next.short, React(LegSetup(p, Short), o.short, i).next)
  }

  lemma CommandWaits(p: OcoParams, o: Oco, i: Input)
    requires Coupled(p, o) && o.active.None? && i in {Arm, Cancel, CloseNow}
    ensures StillWaits(p, o, i, OcoReact(p, o, i))
  {
    LegWaits(LegSetup(p, Long), o.long, i);
    LegWaits(LegSetup(p, Short), o.short, i);
  }

  lemma OthersWait(p: OcoParams, o: Oco, i: Input)
    requires Coupled(p, o) && o.active.None? && i !in {Arm, Cancel, CloseNow} && !(i.Tick? && o.state.Armed?)
    ensures StillWaits(p, o, i, OcoReact(p, o, i))
  {
    LegWaits(LegSetup(p, Long), o.long, i);
    LegWaits(LegSetup(p, Short), o.short, i);
  }

  /** A leg on which nothing was bought answers anything but a tick while armed without a signal. */
  lemma LegWaits(p: Params, s: Scalp, i: Input)
    requires Sound(p, s) && Untouched(s) && s.state in {Idle, Armed, Cancelled, Aborted} && !(i.Tick? && s.state.Armed?)
    ensures var r := React(p, s, i);
            && Sound(p, r.next) && Untouched(r.next) && r.signals == []
            && r.next.state in {Idle, Armed, Cancelled, Aborted}
  {
    StepIsSound(p, s, i);
  }

  lemma WaitingTick(p: OcoParams, o: Oco, price: real, d: Direction)
    requires Coupled(p, o) && o.active.None? && o.state.Armed?
    ensures var r, q := FirstTick(p, o, price), OnTick(LegSetup(p, d), Leg(o, d), price);
            && Coupled(p, r.next) && !r.raised
            && (r.next.active in {None, Some(d)} ==> r.signals == q.signals && Like(Leg(r.next, d), q.next))
            && (r.next.active.Some? <==> Chooses(p, o, Tick(price)))
            && (r.next.active.Some? ==> r.signals == [EntrySignal(LegSetup(p, r.next.active.value))])
  {
    var long, short := OnTick(LegSetup(p, Long), o.long, price), OnTick(LegSetup(p, Short), o.short, price);
    ArmedTick(LegSetup(p, Long), o.long, price);
    ArmedTick(LegSetup(p, Short), o.short, price);
    if long.signals != [] {
      ChooseCouples(p, o.(long := long.next), Long, long.signals);
    } else if short.signals != [] {
      ChooseCouples(p, o.(long := long.next, short := short.next), Short, short.signals);
    }
  }

  lemma ArmedTick(p: Params, s: Scalp, price: real)
    requires Sound(p, s) && s.state.Armed?
    ensures var r, triggered := OnTick(p, s, price), Reached(p.direction, price, p.trigger);
            && Sound(p, r.next) && !r.raised && Untouched(r.next)
            && r.signals == (if triggered then [EntrySignal(p)] else [])
            && r.next.state == (if triggered then EntryPending else Armed)
  {
  }

  lemma ChooseCouples(p: OcoParams, o: Oco, d: Direction, signals: seq<Signal>)
    requires Sound(LegSetup(p, Long), o.long) && Sound(LegSetup(p, Short), o.short)
    requires o.state.Armed? && Leg(o, d).state.EntryPending? && Leg(o, d.Opposite()).state.Armed?
    ensures var r := Choose(p, o, d, signals);
            && Coupled(p, r.next) && !r.raised && r.signals == signals
            && r.next.active == Some(d) && Leg(r.next, d) == Leg(o, d)
  {
  }

  // ---------------------------------------------------------------- whole runs

  function OcoRun(p: OcoParams, o: Oco, inputs: seq<Input>): Oco
    decreases |inputs|
  {
    if inputs == [] then o else OcoRun(p, OcoReact(p, o, inputs[0]).next, inputs[1..])
  }

  function ScalpRun(p: Params, s: Scalp, inputs: seq<Input>): Scalp
    decreases |inputs|
  {
    if inputs == [] then s else ScalpRun(p, React(p, s, inputs[0]).next, inputs[1..])
  }

  /** The signals returned, call by call. */
  function OcoSignals(p: OcoParams, o: Oco, inputs: seq<Input>): seq<seq<Signal>>
    decreases |inputs|
  {
    if inputs == [] then []
    else var r := OcoReact(p, o, inputs[0]); [r.signals] + OcoSignals(p, r.next, inputs[1..])
  }

  function ScalpSignals(p: Params, s: Scalp, inputs: seq<Input>): seq<seq<Signal>>
    decreases |inputs|
  {
    if inputs == [] then []
    else var r := React(p, s, inputs[0]); [r.signals] + ScalpSignals(p, r.next, inputs[1..])
  }

  lemma StepCouples(p: OcoParams, o: Oco, i: Input)
    requires Coupled(p, o)
    ensures var r := OcoReact(p, o, i);
            && Coupled(p, r.next) && (r.raised <==> OcoRefuses(p, o, i)) && (r.raised ==> r.next == o)
            && (o.active.Some? ==> r.next.active == o.active)
  {
    if o.active.Some? { ActiveStep(p, o, i); } else { WaitingStep(p, o, i, Long); }
  }

  lemma {:induction false} RunCouples(p: OcoParams, o: Oco, inputs: seq<Input>)
    requires Coupled(p, o)
    ensures Coupled(p, OcoRun(p, o, inputs))
    ensures o.active.Some? ==> OcoRun(p, o, inputs).active == o.active
    decreases |inputs|
  {
    if inputs != [] {
      StepCouples(p, o, inputs[0]);
      RunCouples(p, OcoReact(p, o, inputs[0]).next, inputs[1..]);
    }
  }

  lemma FreshCoupled(p: OcoParams)
    ensures Coupled(p, FRESH_OCO)
  {
  }

  /**
    The composite never makes an illegal transition: in every run its errors are exactly those of
    `OcoRefuses`, they change nothing, its state is the active leg's, and the other leg is finished and flat.
   */
  lemma OcoIsItsActiveLeg(p: OcoParams, inputs: seq<Input>, i: Input)
    ensures var o := OcoRun(p, FRESH_OCO, inputs);
            && (OcoReact(p, o, i).raised <==> OcoRefuses(p, o, i))
            && (OcoReact(p, o, i).raised ==> OcoReact(p, o, i).next == o)
            && (o.active.Some? ==>
                  var d := o.active.value;
                  && o.state == Leg(o, d).state
                  && Terminal(Leg(o, d.Opposite()).state) && Leg(o, d.Opposite()).filled == 0)
  {
    FreshCoupled(p);
    RunCouples(p, FRESH_OCO, inputs);
    StepCouples(p, OcoRun(p, FRESH_OCO, inputs), i);
  }

  lemma SimulateStep(p: OcoParams, d: Direction, o: Oco, s: Scalp, i: Input)
    requires Coupled(p, o) && Like(Leg(o, d), s) && OcoReact(p, o, i).next.active in {None, Some(d)}
    ensures var r, q := OcoReact(p, o, i), React(LegSetup(p, d), s, i);
            Coupled(p, r.next) && Like(Leg(r.next, d), q.next) && r.signals == q.signals
  {
    LikeReacts(LegSetup(p, d), Leg(o, d), s, i);
    if o.active.Some? { ActiveStep(p, o, i); } else { WaitingStep(p, o, i, d); }
  }

  /**
    Simulation: as long as the other side has not been chosen, the composite returns, call by call, exactly
    the signals of a strategy that only ever had this side, and its leg is in that strategy's state.
   */
  lemma {:induction false} OcoSimulatesLeg(p: OcoParams, d: Direction, o: Oco, s: Scalp, inputs: seq<Input>)
    requires Coupled(p, o) && Like(Leg(o, d), s) && OcoRun(p, o, inputs).active in {None, Some(d)}
    ensures OcoSignals(p, o, inputs) == ScalpSignals(LegSetup(p, d), s, inputs)
    ensures Like(Leg(OcoRun(p, o, inputs), d), ScalpRun(LegSetup(p, d), s, inputs))
    decreases |inputs|
  {
    if inputs != [] {
      var o1 := OcoReact(p, o, inputs[0]).next;
      StepCouples(p, o, inputs[0]);
      RunCouples(p, o1, inputs[1..]);
      SimulateStep(p, d, o, s, inputs[0]);
      OcoSimulatesLeg(p, d, o1, React(LegSetup(p, d), s, inputs[0]).next, inputs[1..]);
    }
  }

  /** From the start: once side d has triggered, the whole history is that of a lone strategy on side d. */
  lemma OcoIsALoneStrategy(p: OcoParams, inputs: seq<Input>)
    requires OcoRun(p, FRESH_OCO, inputs).active.Some?
    ensures var o := OcoRun(p, FRESH_OCO, inputs);
            var d := o.active.value;
            && OcoSignals(p, FRESH_OCO, inputs) == ScalpSignals(LegSetup(p, d), FRESH_SCALP, inputs)
            && o.state == ScalpRun(LegSetup(p, d), FRESH_SCALP, inputs).state
            && Leg(o, d).filled == ScalpRun(LegSetup(p, d), FRESH_SCALP, inputs).filled
  {
    FreshCoupled(p);
    RunCouples(p, FRESH_OCO, inputs);
    OcoSimulatesLeg(p, OcoRun(p, FRESH_OCO, inputs).active.value, FRESH_OCO, FRESH_SCALP, inputs);
  }
}
