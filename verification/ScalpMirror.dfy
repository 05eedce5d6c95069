/** Long and short are mirror images: reflecting every price about c / 2 turns one strategy into the other. */
module ScalpMirror {
  import opened Domain
  import opened StrategyBase
  import opened ScalpRules

  function Flip(c: real, price: Option<real>): Option<real> {
    if price.Some? then Some(c - price.value) else None
  }

  function MirrorSetup(c: real, p: Setup): Setup {
    p.(direction := p.direction.Opposite(), trigger := c - p.trigger,
       takeProfitPrice := Flip(c, p.takeProfitPrice), stopLossPrice := Flip(c, p.stopLossPrice))
  }

  function MirrorInput(c: real, i: Input): Input {
    match i
    case Tick(price) => Tick(c - price)
    case Fill(action, price, q) => Fill(action.Opposite(), c - price, q)
    case _ => i
  }

  function MirrorSignal(c: real, x: Signal): Signal {
    x.(action := x.action.Opposite(), limitPrice := Flip(c, x.limitPrice))
  }

  function MirrorSignals(c: real, xs: seq<Signal>): seq<Signal> {
    seq(|xs|, i requires 0 <= i < |xs| => MirrorSignal(c, xs[i]))
  }

  /** Everything but the entry value, which matters only until the entry is complete. */
  function Shown(s: Scalp): Scalp {
    s.(entryValue := 0.0)
  }

  function Reflect(c: real, s: Scalp): Scalp {
    Shown(s).(entryPrice := Flip(c, s.entryPrice), best := Flip(c, s.best), latest := Flip(c, s.latest))
  }

  /** Same state and quantities, reflected prices. */
  predicate Looks(c: real, s: Scalp, t: Scalp) {
    Shown(t) == Reflect(c, s)
  }

  predicate Weighs(c: real, s: Scalp, t: Scalp) {
    Rank(s.state) <= Rank(EntryPending) ==> t.entryValue == c * s.filled as real - s.entryValue
  }

  predicate Mirrored(c: real, s: Scalp, t: Scalp) {
    Looks(c, s, t) && Weighs(c, s, t)
  }

  /** The mirrored answer: reflected state, mirrored signals, the same error. */
  predicate Answers(c: real, r: Reaction, q: Reaction) {
    q.(next := Shown(q.next)) == Reaction(Reflect(c, r.next), MirrorSignals(c, r.signals), r.raised)
  }

  ghost predicate Pair(c: real, p: Setup, m: Setup) {
    Accepts(p) && Accepts(m) && m == MirrorSetup(c, p)
  }

  lemma LevelsMirror(c: real, p: Params, m: Params, s: Scalp, t: Scalp, price: real)
    requires Pair(c, p, m) && Looks(c, s, t)
    ensures StopPrice(m, t) == Flip(c, StopPrice(p, s))
    ensures StopTriggered(m, t, c - price) == StopTriggered(p, s, price)
    ensures s.entryPrice.Some? ==> TakeProfitLevel(m, t.entryPrice.value) == c - TakeProfitLevel(p, s.entryPrice.value)
    ensures ProfitTriggered(m, t, c - price) == ProfitTriggered(p, s, price)
  {
  }

  lemma EmitMirrors(c: real, p: Params, m: Params, s: Scalp, t: Scalp, intent: Intent, force: bool)
    requires Pair(c, p, m) && Looks(c, s, t)
    ensures Answers(c, EmitExit(p, s, intent, force), EmitExit(m, t, intent, force))
  {
  }

  lemma BestMirrors(c: real, p: Params, m: Params, s: Scalp, t: Scalp, price: real)
    requires Pair(c, p, m) && Looks(c, s, t)
    ensures Looks(c, UpdateBest(p, s, price), UpdateBest(m, t, c - price))
  {
  }

  lemma CheckMirrors(c: real, p: Params, m: Params, s: Scalp, t: Scalp, price: real, crossed: bool)
    requires Pair(c, p, m) && Looks(c, s, t)
    ensures Answers(c, CheckExit(p, s, price, crossed), CheckExit(m, t, c - price, crossed))
  {
    if !s.exitEmitted && s.filled > 0 && s.entryPrice.Some? {
      var s1, t1 := UpdateBest(p, s, price), UpdateBest(m, t, c - price);
      BestMirrors(c, p, m, s, t, price);
      LevelsMirror(c, p, m, s1, t1, price);
      if StopTriggered(p, s1, price) {
        EmitMirrors(c, p, m, s1, t1, StopLoss, crossed && price != StopPrice(p, s1).value);
      } else if ProfitTriggered(p, s1, price) {
        EmitMirrors(c, p, m, s1, t1, TakeProfit, crossed && price != TakeProfitLevel(p, s1.entryPrice.value));
      }
    }
  }

  lemma TickMirrors(c: real, p: Params, m: Params, s: Scalp, t: Scalp, price: real)
    requires Pair(c, p, m) && Looks(c, s, t)
    ensures Answers(c, React(p, s, Tick(price)), React(m, t, Tick(c - price)))
  {
    var s1, t1 := s.(latest := Some(price)), t.(latest := Some(c - price));
    assert Looks(c, s1, t1);
    if s.filled > 0 && !Terminal(s.state) && !s.state.ExitPending? {
      CheckMirrors(c, p, m, s1, t1, price, false);
    } else {
      IdleTickMirrors(c, p, m, s, t, price);
    }
  }

  lemma IdleTickMirrors(c: real, p: Params, m: Params, s: Scalp, t: Scalp, price: real)
    requires Pair(c, p, m) && Looks(c, s, t) && (s.filled == 0 || Terminal(s.state) || s.state.ExitPending?)
    ensures Answers(c, React(p, s, Tick(price)), React(m, t, Tick(c - price)))
  {
  }

  lemma AverageMirrors(c: real, value: real, n: Quantity)
    ensures (c * n as real - value) / n as real == c - value / n as real
  {
  }

  lemma ValueMirrors(c: real, s: Scalp, t: Scalp, price: real, q: Quantity)
    requires Mirrored(c, s, t) && s.state.EntryPending?
    ensures t.entryValue + (c - price) * q as real
            == c * (s.filled + q) as real - (s.entryValue + price * q as real)
  {
  }

  lemma AccumulateMirrors(c: real, p: Params, m: Params, s: Scalp, t: Scalp, price: real, q: Quantity)
    requires Pair(c, p, m) && Mirrored(c, s, t) && s.state.EntryPending?
    ensures Mirrored(c, Accumulate(p, s, price, q), Accumulate(m, t, c - price, q))
  {
    var n, value, value' := s.filled + q, s.entryValue + price * q as real, t.entryValue + (c - price) * q as real;
    ValueMirrors(c, s, t, price, q);
    AverageMirrors(c, value, n);
    BookedMirrors(c, p, m, s, t, n, value, value', value / n as real, value' / n as real);
  }

  lemma BookedMirrors(c: real, p: Params, m: Params, s: Scalp, t: Scalp, n: Quantity, value: real, value': real,
                      avg: real, avg': real)
    requires Pair(c, p, m) && Looks(c, s, t) && value' == c * n as real - value && avg' == c - avg
    ensures Mirrored(c, UpdateBest(p, s.(entryValue := value, filled := n, entryPrice := Some(avg)), avg),
                     UpdateBest(m, t.(entryValue := value', filled := n, entryPrice := Some(avg')), avg'))
  {
  }

  lemma ProtectMirrors(c: real, p: Params, m: Params, s: Scalp, t: Scalp, price: real)
    requires Pair(c, p, m) && Looks(c, s, t)
    ensures Answers(c, Protect(p, s, price), Protect(m, t, c - price))
  {
    CheckMirrors(c, p, m, s, t, price, true);
    var first, second := CheckExit(p, s, price, true), CheckExit(m, t, c - price, true);
    if PriceMode(p) {
      LatestMirrors(c, p, m, first, second);
    } else {
      LatestMirrors(c, p, m, Quiet(s), Quiet(t));
    }
  }

  function ThenLatest(p: Params, first: Reaction): Reaction {
    if Settled(first) then first else CheckExit(p, first.next, first.next.latest.value, false)
  }

  predicate Settled(r: Reaction) {
    r.raised || r.signals != [] || r.next.latest.None?
  }

  lemma SettledMirrors(c: real, r: Reaction, q: Reaction)
    requires Answers(c, r, q)
    ensures Settled(r) == Settled(q) && q.next.latest == Flip(c, r.next.latest) && Looks(c, r.next, q.next)
  {
  }

  lemma ThenChecks(p: Params, r: Reaction, price: real)
    requires !Settled(r) && r.next.latest == Some(price)
    ensures ThenLatest(p, r) == CheckExit(p, r.next, price, false)
  {
  }

  lemma ThenStays(p: Params, r: Reaction)
    requires Settled(r)
    ensures ThenLatest(p, r) == r
  {
  }

  lemma LaterMirrors(c: real, p: Params, m: Params, r: Reaction, q: Reaction, price: real)
    requires Pair(c, p, m) && Looks(c, r.next, q.next) && !Settled(r) && !Settled(q)
    requires r.next.latest == Some(price) && q.next.latest == Some(c - price)
    ensures Answers(c, ThenLatest(p, r), ThenLatest(m, q))
  {
    CheckMirrors(c, p, m, r.next, q.next, price, false);
    ThenChecks(p, r, price);
    ThenChecks(m, q, c - price);
  }

  lemma LatestMirrors(c: real, p: Params, m: Params, r: Reaction, q: Reaction)
    requires Pair(c, p, m) && Answers(c, r, q)
    ensures Answers(c, ThenLatest(p, r), ThenLatest(m, q))
  {
    SettledMirrors(c, r, q);
    if Settled(r) {
      ThenStays(p, r);
      ThenStays(m, q);
    } else {
      LaterMirrors(c, p, m, r, q, r.next.latest.value);
    }
  }

  lemma CompleteMirrors(c: real, p: Params, m: Params, s: Scalp, t: Scalp)
    requires Pair(c, p, m) && Mirrored(c, s, t)
    ensures Mirrored(c, Complete(p, s), Complete(m, t))
  {
  }

  lemma EntryFillMirrors(c: real, p: Params, m: Params, s: Scalp, t: Scalp, price: real, q: Quantity)
    requires Pair(c, p, m) && Mirrored(c, s, t) && s.state.EntryPending?
    ensures var s1, t1 := Complete(p, Accumulate(p, s, price, q)), Complete(m, Accumulate(m, t, c - price, q));
            Answers(c, Protect(p, s1, price), Protect(m, t1, c - price))
            && Weighs(c, Protect(p, s1, price).next, Protect(m, t1, c - price).next)
  {
    var s1, t1 := Complete(p, Accumulate(p, s, price, q)), Complete(m, Accumulate(m, t, c - price, q));
    assert Mirrored(c, s1, t1) by {
      AccumulateMirrors(c, p, m, s, t, price, q);
      CompleteMirrors(c, p, m, Accumulate(p, s, price, q), Accumulate(m, t, c - price, q));
    }
    ProtectMirrors(c, p, m, s1, t1, price);
    ProtectKeepsValue(p, s1, price);
    ProtectKeepsValue(m, t1, c - price);
  }

  lemma ProtectKeepsValue(p: Params, s: Scalp, price: real)
    ensures var s' := Protect(p, s, price).next;
            s'.entryValue == s.entryValue && s'.filled == s.filled && Rank(s.state) <= Rank(s'.state)
  {
  }

  /** Only entry fills change the entry value or the quantity bought so far. */
  lemma OthersKeepValue(p: Params, s: Scalp, i: Input)
    requires !i.Fill?
    ensures var s' := React(p, s, i).next;
            s'.entryValue == s.entryValue && s'.filled == s.filled && Rank(s.state) <= Rank(s'.state)
  {
  }

  lemma StillWeighs(c: real, s: Scalp, t: Scalp, s': Scalp, t': Scalp)
    requires Mirrored(c, s, t) && Rank(s.state) <= Rank(s'.state)
    requires s'.entryValue == s.entryValue && s'.filled == s.filled && t'.entryValue == t.entryValue
    ensures Weighs(c, s', t')
  {
  }

  lemma MoveMirrors(c: real, s: Scalp, t: Scalp, to: State)
    requires Looks(c, s, t)
    ensures Answers(c, Move(s, to), Move(t, to))
  {
  }

  lemma ForceCloseMirrors(c: real, p: Params, m: Params, s: Scalp, t: Scalp)
    requires Pair(c, p, m) && Looks(c, s, t)
    ensures Answers(c, OnForceClose(p, s), OnForceClose(m, t))
  {
  }

  lemma CommandMirrors(c: real, p: Params, m: Params, s: Scalp, t: Scalp, i: Input)
    requires Pair(c, p, m) && Looks(c, s, t) && !i.Fill? && !i.Tick?
    ensures Answers(c, React(p, s, i), React(m, t, i))
  {
    match i
    case Arm => MoveMirrors(c, s, t, Armed);
    case Cancel => MoveMirrors(c, s, t, Cancelled);
    case Abort => MoveMirrors(c, s, t, Aborted);
    case CloseNow => ForceCloseMirrors(c, p, m, s, t);
    case Reject =>
      MoveMirrors(c, s, t, Cancelled);
      MoveMirrors(c, s, t, Error);
  }

  lemma QuietWeighs(c: real, p: Params, m: Params, s: Scalp, t: Scalp, i: Input)
    requires Mirrored(c, s, t) && !i.Fill?
    ensures Weighs(c, React(p, s, i).next, React(m, t, MirrorInput(c, i)).next)
  {
    OthersKeepValue(p, s, i);
    OthersKeepValue(m, t, MirrorInput(c, i));
    StillWeighs(c, s, t, React(p, s, i).next, React(m, t, MirrorInput(c, i)).next);
  }

  predicate StepAnswers(c: real, p: Params, m: Params, s: Scalp, t: Scalp, i: Input) {
    var r, r' := React(p, s, i), React(m, t, MirrorInput(c, i));
    Answers(c, r, r') && Weighs(c, r.next, r'.next)
  }

  lemma TickStepMirrors(c: real, p: Params, m: Params, s: Scalp, t: Scalp, price: real)
    requires Pair(c, p, m) && Mirrored(c, s, t)
    ensures StepAnswers(c, p, m, s, t, Tick(price))
  {
    var r, r' := React(p, s, Tick(price)), React(m, t, MirrorInput(c, Tick(price)));
    assert Answers(c, r, r') by { TickMirrors(c, p, m, s, t, price); }
    assert Weighs(c, r.next, r'.next) by { QuietWeighs(c, p, m, s, t, Tick(price)); }
  }

  lemma CommandStepMirrors(c: real, p: Params, m: Params, s: Scalp, t: Scalp, i: Input)
    requires Pair(c, p, m) && Mirrored(c, s, t) && !i.Fill? && !i.Tick?
    ensures StepAnswers(c, p, m, s, t, i)
  {
    var r, r' := React(p, s, i), React(m, t, MirrorInput(c, i));
    assert Answers(c, r, r') by { CommandMirrors(c, p, m, s, t, i); }
    assert Weighs(c, r.next, r'.next) by { QuietWeighs(c, p, m, s, t, i); }
  }

  lemma EntryStepMirrors(c: real, p: Params, m: Params, s: Scalp, t: Scalp, price: real, q: Quantity)
    requires Pair(c, p, m) && Mirrored(c, s, t) && s.state.EntryPending? && s.filled + q <= p.quantity
    ensures StepAnswers(c, p, m, s, t, Fill(p.direction, price, q))
  {
    var r, r' := React(p, s, Fill(p.direction, price, q)), React(m, t, MirrorInput(c, Fill(p.direction, price, q)));
    assert Answers(c, r, r') && Weighs(c, r.next, r'.next) by { EntryFillMirrors(c, p, m, s, t, price, q); }
  }

  lemma OtherFillMirrors(c: real, p: Params, m: Params, s: Scalp, t: Scalp, action: Direction, price: real, q: Quantity)
    requires Pair(c, p, m) && Mirrored(c, s, t)
    requires !(s.state.EntryPending? && action == p.direction && s.filled + q <= p.quantity)
    ensures StepAnswers(c, p, m, s, t, Fill(action, price, q))
  {
  }

  lemma StepMirrors(c: real, p: Params, m: Params, s: Scalp, t: Scalp, i: Input)
    requires Pair(c, p, m) && Mirrored(c, s, t)
    ensures StepAnswers(c, p, m, s, t, i)
  {
    match i
    case Tick(price) => TickStepMirrors(c, p, m, s, t, price);
    case Fill(action, price, q) =>
      if s.state.EntryPending? && action == p.direction && s.filled + q <= p.quantity {
        EntryStepMirrors(c, p, m, s, t, price, q);
      } else {
        OtherFillMirrors(c, p, m, s, t, action, price, q);
      }
    case _ => CommandStepMirrors(c, p, m, s, t, i);
  }

  /** Call by call, the mirrored run gives the mirrored answers. */
  ghost predicate RunsMirror(c: real, p: Params, m: Params, s: Scalp, t: Scalp, inputs: seq<Input>)
    decreases |inputs|
  {
    && Mirrored(c, s, t)
    && (inputs != [] ==>
          var r, q := React(p, s, inputs[0]), React(m, t, MirrorInput(c, inputs[0]));
          StepAnswers(c, p, m, s, t, inputs[0]) && RunsMirror(c, p, m, r.next, q.next, inputs[1..]))
  }

  /**
    Mirror symmetry: for every event sequence, the strategy on the other side run on the reflected prices
    makes the same transitions and emits the same signals with mirrored sides and limit prices.
   */
  lemma {:induction false} MirrorSymmetry(c: real, p: Params, m: Params, s: Scalp, t: Scalp, inputs: seq<Input>)
    requires Pair(c, p, m) && Mirrored(c, s, t)
    ensures RunsMirror(c, p, m, s, t, inputs)
    decreases |inputs|
  {
    if inputs != [] {
      StepMirrors(c, p, m, s, t, inputs[0]);
      MirrorSymmetry(c, p, m, React(p, s, inputs[0]).next, React(m, t, MirrorInput(c, inputs[0])).next, inputs[1..]);
    }
  }

  /** The symmetry starts from two fresh strategies and is its own inverse. */
  lemma FreshMirrors(c: real, p: Params)
    ensures Mirrored(c, FRESH_SCALP, FRESH_SCALP) && MirrorSetup(c, MirrorSetup(c, p)) == p
  {
  }
}
