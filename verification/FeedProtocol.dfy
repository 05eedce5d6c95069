/**
  The market feed under concurrency. Producers hold the statistics lock across a whole delivery; consumers
  take from the queue without it and count what they took afterwards. A run is any interleaving of the
  steps below.
 */
module FeedProtocol {
  import opened Domain

  datatype Tick = Tick(price: real, receivedAt: int, latency: real)

  datatype Stats = Stats(
    received: nat, filtered: nat, delivered: nat, consumed: nat, evicted: nat, depth: int,
    lastTickAt: Option<int>, maxLatency: real)

  const ZERO: Stats := Stats(0, 0, 0, 0, 0, 0, None, 0.0)

  /** How far the delivery holding the lock has come. */
  datatype Delivery = Idle | Trying(t: Tick) | MakingRoom(t: Tick) | Retrying(t: Tick) | Stored(t: Tick)

  /**
    `popped` counts consumers between taking a tick and counting it. `overflowed` records a second put on a
    full queue, which would raise; `stored` and `removed` are all ticks ever put into and taken out of the queue.
   */
  datatype Feed = Feed(
    capacity: Quantity, queue: seq<Tick>, stats: Stats, delivery: Delivery, popped: nat, overflowed: bool,
    stored: seq<Tick>, removed: seq<Tick>)

  function NewFeed(capacity: Quantity): Feed {
    Feed(capacity, [], ZERO, Idle, 0, false, [], [])
  }

  datatype Step =
    | Filter
    | Begin(t: Tick)
    | Put
    | MakeRoom
    | PutAgain
    | Finish
    | Pop
    | CountPop

  predicate Enabled(f: Feed, step: Step) {
    match step
    case Filter => f.delivery.Idle?
    case Begin(_) => f.delivery.Idle?
    case Put => f.delivery.Trying?
    case MakeRoom => f.delivery.MakingRoom?
    case PutAgain => f.delivery.Retrying?
    case Finish => f.delivery.Stored?
    case Pop => f.queue != []
    case CountPop => f.delivery.Idle? && f.popped > 0
  }

  function Store(f: Feed, t: Tick): Feed {
    f.(queue := f.queue + [t], stored := f.stored + [t], delivery := Stored(t))
  }

  function TakeHead(f: Feed): Feed
    requires f.queue != []
  {
    f.(queue := f.queue[1..], removed := f.removed + [f.queue[0]])
  }

  function Delivered(s: Stats, t: Tick): Stats {
    s.(delivered := s.delivered + 1, depth := s.depth + 1, lastTickAt := Some(t.receivedAt),
       maxLatency := if t.latency > s.maxLatency then t.latency else s.maxLatency)
  }

  function Next(f: Feed, step: Step): Feed
    requires Enabled(f, step)
  {
    match step
    case Filter => f.(stats := f.stats.(received := f.stats.received + 1, filtered := f.stats.filtered + 1))
    case Begin(t) => f.(stats := f.stats.(received := f.stats.received + 1), delivery := Trying(t))
    case Put => if |f.queue| < f.capacity then Store(f, f.delivery.t) else f.(delivery := MakingRoom(f.delivery.t))
    case MakeRoom =>
      var room := if f.queue == [] then f
                  else TakeHead(f).(stats := f.stats.(evicted := f.stats.evicted + 1, depth := f.stats.depth - 1));
      room.(delivery := Retrying(f.delivery.t))
    case PutAgain =>
      if |f.queue| < f.capacity then Store(f, f.delivery.t) else f.(overflowed := true, delivery := Idle)
    case Finish => f.(stats := Delivered(f.stats, f.delivery.t), delivery := Idle)
    case Pop => TakeHead(f).(popped := f.popped + 1)
    case CountPop =>
      f.(stats := f.stats.(consumed := f.stats.consumed + 1, depth := f.stats.depth - 1), popped := f.popped - 1)
  }

  ghost predicate Reachable(f: Feed, steps: seq<Step>, f': Feed)
    decreases |steps|
  {
    if steps == [] then f == f'
    else Enabled(f, steps[0]) && Reachable(Next(f, steps[0]), steps[1..], f')
  }

  // ---------------------------------------------------------------- invariant

  ghost predicate Balanced(f: Feed) {
    var s, underway, counted := f.stats, if f.delivery.Idle? then 0 else 1, if f.delivery.Stored? then 0 else 1;
    && s.received == s.filtered + s.delivered + underway
    && s.delivered == s.consumed + s.depth + s.evicted
    && s.depth == |f.queue| + f.popped - (1 - counted)
    && |f.removed| == s.consumed + f.popped + s.evicted
  }

  ghost predicate Queued(f: Feed) {
    && |f.queue| <= f.capacity && (f.delivery.Retrying? ==> |f.queue| < f.capacity) && !f.overflowed
    && f.stored == f.removed + f.queue
    && (f.delivery.Stored? ==> f.stored != [] && f.stored[|f.stored| - 1] == f.delivery.t)
  }

  /** The ticks whose delivery has been completed. */
  function Completed(f: Feed): seq<Tick> {
    if f.delivery.Stored? && f.stored != [] then f.stored[..|f.stored| - 1] else f.stored
  }

  ghost predicate Timed(s: Stats, delivered: seq<Tick>) {
    && s.delivered == |delivered|
    && s.lastTickAt == (if delivered == [] then None else Some(delivered[|delivered| - 1].receivedAt))
    && (forall t :: t in delivered ==> t.latency <= s.maxLatency)
    && (s.maxLatency == 0.0 || exists t :: t in delivered && t.latency == s.maxLatency)
  }

  ghost predicate Invariant(f: Feed) {
    Balanced(f) && Queued(f) && Timed(f.stats, Completed(f))
  }

  lemma TimedAfter(s: Stats, before: seq<Tick>, t: Tick)
    requires Timed(s, before)
    ensures Timed(Delivered(s, t), before + [t])
  {
  }

  lemma StepKeeps(f: Feed, step: Step)
    requires Invariant(f) && Enabled(f, step)
    ensures Invariant(Next(f, step))
  {
    var f' := Next(f, step);
    if step.Finish? {
      TimedAfter(f.stats, Completed(f), f.delivery.t);
      assert Completed(f') == Completed(f) + [f.delivery.t];
    } else {
      QueueKeeps(f, step);
      assert Completed(f') == Completed(f);
    }
  }

  lemma QueueKeeps(f: Feed, step: Step)
    requires Invariant(f) && Enabled(f, step) && !step.Finish?
    ensures Balanced(Next(f, step)) && Queued(Next(f, step))
  {
    if f.queue != [] {
      assert f.removed + f.queue == (f.removed + [f.queue[0]]) + f.queue[1..];
    }
    if f.delivery.Trying? || f.delivery.Retrying? {
      assert (f.removed + f.queue) + [f.delivery.t] == f.removed + (f.queue + [f.delivery.t]);
    }
  }

  lemma {:induction false} RunKeeps(f: Feed, steps: seq<Step>, f': Feed)
    requires Invariant(f) && Reachable(f, steps, f')
    ensures Invariant(f')
    decreases |steps|
  {
    if steps != [] {
      StepKeeps(f, steps[0]);
      RunKeeps(Next(f, steps[0]), steps[1..], f');
    }
  }

  // ---------------------------------------------------------------- what every run promises

  /**
    The statistics add up whenever the lock is free: every tick received was filtered or delivered, every
    delivered tick was consumed, evicted or is still counted, and the depth differs from the real queue
    length only by the consumers that have taken a tick and not counted it yet.
   */
  lemma StatsAddUp(capacity: Quantity, steps: seq<Step>, f: Feed)
    requires Reachable(NewFeed(capacity), steps, f) && f.delivery.Idle?
    ensures var s := f.stats;
            && s.received == s.filtered + s.delivered
            && s.delivered == s.consumed + s.depth + s.evicted
            && s.depth == |f.queue| + f.popped >= 0
            && Timed(s, f.stored)
  {
    RunKeeps(NewFeed(capacity), steps, f);
  }

  /** At every moment the queue is the newest unbroken stretch of the delivered ticks, in order, within capacity. */
  lemma QueueIsNewestSuffix(capacity: Quantity, steps: seq<Step>, f: Feed)
    requires Reachable(NewFeed(capacity), steps, f)
    ensures |f.queue| <= capacity && |f.queue| <= |f.stored|
    ensures f.queue == f.stored[|f.stored| - |f.queue|..] && f.removed == f.stored[..|f.stored| - |f.queue|]
    ensures |f.removed| == f.stats.consumed + f.popped + f.stats.evicted
  {
    RunKeeps(NewFeed(capacity), steps, f);
    StepsKeepCapacity(NewFeed(capacity), steps, f);
  }

  lemma {:induction false} StepsKeepCapacity(f: Feed, steps: seq<Step>, f': Feed)
    requires Reachable(f, steps, f')
    ensures f'.capacity == f.capacity
    decreases |steps|
  {
    if steps != [] { StepsKeepCapacity(Next(f, steps[0]), steps[1..], f'); }
  }

  /** However consumers interleave, room made for a tick is still there at the second put. */
  lemma SecondPutNeverFull(capacity: Quantity, steps: seq<Step>, f: Feed)
    requires Reachable(NewFeed(capacity), steps, f)
    ensures !f.overflowed && (f.delivery.Retrying? ==> |f.queue| < f.capacity)
  {
    RunKeeps(NewFeed(capacity), steps, f);
  }

  // ---------------------------------------------------------------- exactly when a tick is evicted

  /** Ticks that consumers took since the delivery now making room found the queue full. */
  function PopsSinceFull(f: Feed, steps: seq<Step>, so: nat): nat
    decreases |steps|
  {
    if steps == [] || !Enabled(f, steps[0]) then so
    else
      PopsSinceFull(Next(f, steps[0]), steps[1..],
                    if !f.delivery.MakingRoom? then 0 else if steps[0].Pop? then so + 1 else so)
  }

  lemma {:induction false} RoomIsPops(f: Feed, steps: seq<Step>, f': Feed, so: nat)
    requires Invariant(f) && Reachable(f, steps, f') && f'.delivery.MakingRoom?
    requires f.delivery.MakingRoom? ==> |f.queue| + so == f.capacity
    ensures |f'.queue| + PopsSinceFull(f, steps, so) == f'.capacity
    decreases |steps|
  {
    if steps != [] {
      StepKeeps(f, steps[0]);
      var pops := if !f.delivery.MakingRoom? then 0 else if steps[0].Pop? then so + 1 else so;
      RoomIsPops(Next(f, steps[0]), steps[1..], f', pops);
    }
  }

  /**
    In every run, when a delivery comes to make room, the free places are exactly the ticks that consumers
    took since it found the queue full. So there is room already exactly when some consumer came in between,
    and a tick is evicted all the same unless consumers took the whole queue.
   */
  lemma EvictsExactlyWhen(capacity: Quantity, steps: seq<Step>, f: Feed)
    requires Reachable(NewFeed(capacity), steps, f) && f.delivery.MakingRoom?
    ensures var pops, f' := PopsSinceFull(NewFeed(capacity), steps, 0), Next(f, MakeRoom);
            && |f.queue| + pops == capacity
            && (|f.queue| < capacity <==> pops > 0)
            && f'.stats.evicted == f.stats.evicted + (if pops < capacity then 1 else 0)
            && f'.queue == if pops < capacity then f.queue[1..] else []
  {
    StepsKeepCapacity(NewFeed(capacity), steps, f);
    RoomIsPops(NewFeed(capacity), steps, f, 0);
  }

  /** The smallest such run: a consumer has made room, and a tick is evicted all the same. */
  lemma EvictsDespiteRoom(a: Tick, b: Tick, c: Tick) returns (steps: seq<Step>, f: Feed)
    ensures Reachable(NewFeed(2), steps, f) && f.delivery.MakingRoom? && |f.queue| < f.capacity
    ensures Next(f, MakeRoom).stats.evicted == f.stats.evicted + 1
  {
    var half := Next(Next(Next(NewFeed(2), Begin(a)), Put), Finish);
    var full := Next(Next(Next(half, Begin(b)), Put), Finish);
    DeliveryReaches(NewFeed(2), a);
    DeliveryReaches(half, b);
    Joined(NewFeed(2), [Begin(a), Put, Finish], half, [Begin(b), Put, Finish], full);
    var last := [Begin(c), Put, Pop];
    f := Next(Next(Next(full, Begin(c)), Put), Pop);
    assert last[1..] == [Put, Pop] && last[1..][1..] == [Pop] && [Pop][1..] == [];
    assert Reachable(Next(Next(full, Begin(c)), Put), [Pop], f);
    assert Reachable(Next(full, Begin(c)), [Put, Pop], f);
    assert Reachable(full, last, f);
    Joined(NewFeed(2), [Begin(a), Put, Finish] + [Begin(b), Put, Finish], full, last, f);
    steps := ([Begin(a), Put, Finish] + [Begin(b), Put, Finish]) + last;
  }

  lemma DeliveryReaches(f: Feed, t: Tick)
    requires f.delivery.Idle? && |f.queue| < f.capacity
    ensures Reachable(f, [Begin(t), Put, Finish], Next(Next(Next(f, Begin(t)), Put), Finish))
  {
    var f3 := Next(Next(Next(f, Begin(t)), Put), Finish);
    assert [Begin(t), Put, Finish][1..] == [Put, Finish] && [Put, Finish][1..] == [Finish] && [Finish][1..] == [];
    assert Reachable(Next(Next(f, Begin(t)), Put), [Finish], f3);
    assert Reachable(Next(f, Begin(t)), [Put, Finish], f3);
  }

  lemma {:induction false} Joined(f: Feed, steps: seq<Step>, g: Feed, more: seq<Step>, h: Feed)
    requires Reachable(f, steps, g) && Reachable(g, more, h)
    ensures Reachable(f, steps + more, h)
    decreases |steps|
  {
    if steps == [] {
      assert steps + more == more;
    } else {
      Joined(Next(f, steps[0]), steps[1..], g, more, h);
      assert (steps + more)[1..] == steps[1..] + more;
    }
  }
}
