/** The market feed as an object: a bounded queue and its statistics, changed in place. */
module MarketFeed {
  import opened Domain
  import opened FeedProtocol

  /** A delivery that no consumer interrupts. */
  function Deliver(f: Feed, t: Tick): Feed
    requires f.delivery.Idle? && |f.queue| <= f.capacity
  {
    var tried := Next(Next(f, Begin(t)), Put);
    Next(if tried.delivery.MakingRoom? then Next(Next(tried, MakeRoom), PutAgain) else tried, Finish)
  }

  /** The feed after a delivery that finds so many ticks too many: the newest gets in, the oldest give way. */
  function Enqueued(f: Feed, t: Tick, gone: nat): Feed
    requires gone <= |f.queue|
  {
    var s := f.stats;
    f.(queue := f.queue[gone..] + [t], stored := f.stored + [t], removed := f.removed + f.queue[..gone],
       stats := Delivered(s.(received := s.received + 1, evicted := s.evicted + gone, depth := s.depth - gone), t))
  }

  /** The delivery in one piece. */
  lemma DeliverAtOnce(f: Feed, t: Tick)
    requires f.delivery.Idle? && |f.queue| <= f.capacity
    ensures Deliver(f, t) == Enqueued(f, t, if |f.queue| == f.capacity then 1 else 0)
  {
  }

  class MarketFeed {
    const capacity: Quantity
    const dropSimtrade: bool
    const captureLatest: bool
    var latestTick: Option<Tick>
    var queue: seq<Tick>
    var received: nat
    var filteredSimtrade: nat
    var delivered: nat
    var consumed: nat
    var evictedOverflow: nat
    var queueDepth: int
    var lastTickAt: Option<int>
    var maxLatency: real
    ghost var stored: seq<Tick>
    ghost var removed: seq<Tick>

    ghost function Value(): Feed
      reads this
    {
      Feed(capacity, queue,
           Stats(received, filteredSimtrade, delivered, consumed, evictedOverflow, queueDepth, lastTickAt, maxLatency),
           Idle, 0, false, stored, removed)
    }

    /** The protocol's invariant, with no delivery and no consumer underway. */
    ghost predicate Valid()
      reads this
    {
      Invariant(Value())
    }

    constructor (capacity: Quantity, dropSimtrade: bool, captureLatest: bool)
      ensures Valid() && Value() == NewFeed(capacity) && latestTick.None?
      ensures this.dropSimtrade == dropSimtrade && this.captureLatest == captureLatest
    {
      this.capacity, this.dropSimtrade, this.captureLatest := capacity, dropSimtrade, captureLatest;
      latestTick, queue, received, filteredSimtrade, delivered := None, [], 0, 0, 0;
      consumed, evictedOverflow, queueDepth, lastTickAt, maxLatency := 0, 0, 0, None, 0.0;
      stored, removed := [], [];
    }

    method OnRawTick(tick: Tick, simtrade: bool)
      requires Valid()
      modifies this
      ensures Valid()
      ensures Value() == if dropSimtrade && simtrade then Next(old(Value()), Filter) else Deliver(old(Value()), tick)
      ensures latestTick == if captureLatest && !(dropSimtrade && simtrade) then Some(tick) else old(latestTick)
    {
      StepKeeps(Value(), Filter);
      if dropSimtrade && simtrade {
        received, filteredSimtrade := received + 1, filteredSimtrade + 1;
        return;
      }
      if captureLatest {
        latestTick := Some(tick);
      }
      DeliverKeeps(Value(), tick);
      DeliverAtOnce(Value(), tick);
      Enqueue(tick);
    }

    /** The newest tick always gets in; when the queue is full the oldest one gives way. */
    method Enqueue(tick: Tick)
      requires |queue| <= capacity
      modifies `queue, `received, `delivered, `evictedOverflow, `queueDepth, `lastTickAt, `maxLatency, `stored, `removed
      ensures Value() == Enqueued(old(Value()), tick, if |old(queue)| == capacity then 1 else 0)
    {
      received := received + 1;
      if |queue| < capacity {
        assert queue[0..] == queue && removed + queue[..0] == removed;
      } else {
        removed := removed + queue[..1];
        queue := queue[1..];
        evictedOverflow, queueDepth := evictedOverflow + 1, queueDepth - 1;
      }
      queue, stored := queue + [tick], stored + [tick];
      delivered, queueDepth := delivered + 1, queueDepth + 1;
      lastTickAt := Some(tick.receivedAt);
      maxLatency := if tick.latency > maxLatency then tick.latency else maxLatency;
    }

    /** The oldest waiting tick, if any, counted as consumed. */
    method Get() returns (tick: Option<Tick>)
      requires Valid()
      modifies this
      ensures Valid() && unchanged(`latestTick)
      ensures tick == if old(queue) == [] then None else Some(old(queue)[0])
      ensures Value() == if old(queue) == [] then old(Value()) else Next(Next(old(Value()), Pop), CountPop)
    {
      if queue == [] {
        return None;
      }
      TakeKeeps(Value());
      TakeAtOnce(Value());
      tick := Some(queue[0]);
      queue, removed := queue[1..], removed + [queue[0]];
      consumed, queueDepth := consumed + 1, queueDepth - 1;
    }
  }

  lemma DeliverKeeps(f: Feed, t: Tick)
    requires Invariant(f) && f.delivery.Idle?
    ensures Invariant(Deliver(f, t))
  {
    StepKeeps(f, Begin(t));
    StepKeeps(Next(f, Begin(t)), Put);
    var tried := Next(Next(f, Begin(t)), Put);
    if tried.delivery.MakingRoom? {
      StepKeeps(tried, MakeRoom);
      StepKeeps(Next(tried, MakeRoom), PutAgain);
      StepKeeps(Next(Next(tried, MakeRoom), PutAgain), Finish);
    } else {
      StepKeeps(tried, Finish);
    }
  }

  /** The consumption in one piece. */
  lemma TakeAtOnce(f: Feed)
    requires f.delivery.Idle? && f.queue != []
    ensures Next(Next(f, Pop), CountPop)
            == f.(queue := f.queue[1..], removed := f.removed + [f.queue[0]],
                  stats := f.stats.(consumed := f.stats.consumed + 1, depth := f.stats.depth - 1))
  {
  }

  lemma TakeKeeps(f: Feed)
    requires Invariant(f) && f.delivery.Idle? && f.queue != []
    ensures Invariant(Next(Next(f, Pop), CountPop))
  {
  }
}
