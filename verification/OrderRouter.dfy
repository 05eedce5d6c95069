/**
  The order router. Everything it does to its ledger happens inside short sections under the shared lock;
  each section is a function on `RouterState`, proved to be what the corresponding method does.
 */
module OrderRouter {
  import opened Domain
  import Risk = RiskManager

  datatype RouterState = RouterState(
    inFlight: map<string, OrderRequest>, completed: set<string>, filled: map<string, nat>,
    orderNo: map<string, nat>, abandoned: map<string, OrderRequest>, abandonedFilled: map<string, nat>,
    lastSubmit: Option<int>)

  const EMPTY: RouterState := RouterState(map[], {}, map[], map[], map[], map[], None)

  datatype OrderEvent =
    | AckEvent(clientId: Option<string>, brokerOrderId: nat)
    | Fill(fill: FillEvent)
    | RejectEvent(clientId: Option<string>)
    | CancelEvent(clientId: Option<string>, remainingQuantity: nat)

  function EventClient(e: OrderEvent): Option<string> {
    if e.Fill? then e.fill.clientId else e.clientId
  }

  function Get(m: map<string, nat>, k: string): nat {
    if k in m then m[k] else 0
  }

  predicate IsDuplicate(s: RouterState, clientId: string) {
    clientId in s.inFlight || clientId in s.completed
  }

  function Reserve(s: RouterState, r: OrderRequest): RouterState {
    if IsDuplicate(s, r.clientId) then s else s.(inFlight := s.inFlight[r.clientId := r])
  }

  function Release(s: RouterState, clientId: string): RouterState {
    s.(inFlight := s.inFlight - {clientId})
  }

  function MarkCompleted(s: RouterState, clientId: string): RouterState {
    s.(inFlight := s.inFlight - {clientId}, filled := s.filled - {clientId}, completed := s.completed + {clientId})
  }

  function Finalize(s: RouterState, r: OrderRequest, ack: OrderAck, now: int): RouterState {
    var s1 := if ack.accepted then s.(lastSubmit := Some(now)) else MarkCompleted(s, r.clientId);
    if ack.brokerOrderId.Some? then s1.(orderNo := s1.orderNo[r.clientId := ack.brokerOrderId.value]) else s1
  }

  function ClearAll(s: RouterState): RouterState {
    s.(completed := s.completed + s.inFlight.Keys, inFlight := map[], filled := map[],
       abandoned := map[], abandonedFilled := map[])
  }

  function RecordFill(s: RouterState, c: string, quantity: nat): RouterState {
    var total := Get(s.filled, c) + quantity;
    var s1 := s.(filled := s.filled[c := total]);
    if c in s.inFlight && total >= s.inFlight[c].quantity then MarkCompleted(s1, c) else s1
  }

  function Compensation(symbol: string, action: Direction, quantity: Quantity, newId: string): OrderRequest {
    Order(symbol, action.Opposite(), quantity, None, MKP, IOC, Emergency, newId, "")
  }

  /** The answer to an accepted entry that finished after a cancel-all: undo all of it unless it could be cancelled. */
  function Neutralization(r: OrderRequest, cancelled: bool, newId: string): Option<OrderRequest> {
    if cancelled then None else Some(Compensation(r.symbol, r.action, r.quantity, newId))
  }

  /** Counts a fill of an abandoned entry; the entry is forgotten once its whole quantity is accounted for. */
  function CountAbandoned(s: RouterState, c: string, quantity: nat): RouterState
    requires c in s.abandoned
  {
    var filled := Get(s.abandonedFilled, c) + quantity;
    var s1 := s.(abandonedFilled := s.abandonedFilled[c := filled]);
    if filled >= s.abandoned[c].quantity then s1.(abandoned := s1.abandoned - {c}) else s1
  }

  /** The locked section of event handling, and the compensation order it asks for. */
  function HandleEvent(s: RouterState, e: OrderEvent, newId: string): (RouterState, Option<OrderRequest>) {
    if EventClient(e).None? then (s, None)
    else
      var c := EventClient(e).value;
      match e
      case AckEvent(_, id) => (s.(orderNo := s.orderNo[c := id]), None)
      case Fill(f) =>
        var s1 := RecordFill(s, c, f.quantity);
        if c in s1.abandoned then
          (CountAbandoned(s1, c, f.quantity), Some(Compensation(s1.abandoned[c].symbol, f.action, f.quantity, newId)))
        else
          (s1, None)
      case RejectEvent(_) => (Close(s, c), None)
      case CancelEvent(_, remaining) => (if remaining == 0 then Close(s, c) else s, None)
  }

  function Close(s: RouterState, c: string): RouterState {
    var s1 := MarkCompleted(s, c);
    s1.(abandoned := s1.abandoned - {c}, abandonedFilled := s1.abandonedFilled - {c})
  }

  function MarkAbandoned(s: RouterState, c: string, r: OrderRequest): RouterState {
    s.(abandoned := s.abandoned[c := r],
       abandonedFilled := if c in s.abandonedFilled then s.abandonedFilled
                          else s.abandonedFilled[c := Get(s.filled, c)])
  }

  function DropAbandoned(s: RouterState, c: string): RouterState {
    s.(abandoned := s.abandoned - {c})
  }

  /** The working entries a closing order of this strategy must first get out of the way. */
  function Targets(inFlight: map<string, OrderRequest>, strategyId: string): set<string> {
    if strategyId == "" then {}
    else set c | c in inFlight && inFlight[c].strategyId == strategyId && inFlight[c].intent.Entry?
  }

  /** A cancel can only be tried when a broker number is known, from the cache or from the open orders. */
  predicate Cancellable(orderNo: map<string, nat>, open: map<string, nat>, answers: map<nat, bool>, c: string) {
    var id := if c in orderNo then Some(orderNo[c]) else if c in open then Some(open[c]) else None;
    id.Some? && id.value in answers && answers[id.value]
  }

  function Adopt(base: map<string, OrderRequest>, from: map<string, OrderRequest>, left: set<string>)
    : map<string, OrderRequest>
  {
    base + map c | c in left && c in from :: from[c]
  }

  function Baseline(base: map<string, nat>, filled: map<string, nat>, left: set<string>): map<string, nat> {
    (map c | c in left :: Get(filled, c)) + base
  }

  /** The ledger after some targets were cancelled and the others abandoned; older abandoned counts win. */
  function SettleTargets(s: RouterState, cancelled: set<string>, left: set<string>): RouterState {
    s.(inFlight := s.inFlight - cancelled, filled := s.filled - cancelled, completed := s.completed + cancelled,
       abandoned := Adopt(s.abandoned, s.inFlight, left),
       abandonedFilled := Baseline(s.abandonedFilled, s.filled, left))
  }

  lemma SettleNone(s: RouterState)
    ensures SettleTargets(s, {}, {}) == s
  {
  }

  lemma SettleCancelled(s: RouterState, cancelled: set<string>, left: set<string>, c: string)
    ensures MarkCompleted(SettleTargets(s, cancelled, left), c) == SettleTargets(s, cancelled + {c}, left)
  {
  }

  lemma AdoptOneMore(base: map<string, OrderRequest>, from: map<string, OrderRequest>, left: set<string>, c: string)
    requires c in from
    ensures Adopt(base, from, left)[c := from[c]] == Adopt(base, from, left + {c})
  {
  }

  lemma BaselineOneMore(base: map<string, nat>, filled: map<string, nat>, left: set<string>, c: string)
    requires c !in left
    ensures var b := Baseline(base, filled, left);
            (if c in b then b else b[c := Get(filled, c)]) == Baseline(base, filled, left + {c})
  {
  }

  lemma SettleAbandoned(s: RouterState, cancelled: set<string>, left: set<string>, c: string)
    requires c in s.inFlight && c !in cancelled && c !in left
    ensures MarkAbandoned(SettleTargets(s, cancelled, left), c, s.inFlight[c])
            == SettleTargets(s, cancelled, left + {c})
  {
    AdoptOneMore(s.abandoned, s.inFlight, left, c);
    BaselineOneMore(s.abandonedFilled, s.filled, left, c);
    assert Get(s.filled - cancelled, c) == Get(s.filled, c);
  }

  /** The ledger once a closing order has cleared its strategy's working entries out of the way. */
  function Cleared(s: RouterState, r: OrderRequest, open: map<string, nat>, answers: map<nat, bool>): RouterState {
    if !r.intent.CloseOnly() then s
    else
      var targets := Targets(s.inFlight, r.strategyId);
      SettleTargets(s, set c | c in targets && Cancellable(s.orderNo, open, answers, c),
                    set c | c in targets && !Cancellable(s.orderNo, open, answers, c))
  }

  /** The cancel of this entry went through, under the number the router had cached or else the one it looked up. */
  predicate WasCancelled(s: RouterState, open: map<string, nat>, answers: map<nat, bool>, c: string) {
    if c in s.orderNo then s.orderNo[c] in answers && answers[s.orderNo[c]]
    else c in open && open[c] in answers && answers[open[c]]
  }

  /** An entry of the strategy that the order closes. */
  predicate InTheWay(closing: OrderRequest, r: OrderRequest) {
    closing.intent != Entry && closing.strategyId != "" && r.intent == Entry && r.strategyId == closing.strategyId
  }

  /** What became of one order that was in flight when the closing order was submitted. */
  predicate Handled(s: RouterState, s': RouterState, closing: OrderRequest, c: string, cancelled: bool)
    requires c in s.inFlight
  {
    var r := s.inFlight[c];
    if InTheWay(closing, r) && cancelled then
      && c in s'.completed && c !in s'.inFlight && c !in s'.filled
      && (c in s'.abandoned <==> c in s.abandoned)
    else
      && c in s'.inFlight && s'.inFlight[c] == r && (c in s'.completed <==> c in s.completed)
      && (if InTheWay(closing, r) then c in s'.abandoned && s'.abandoned[c] == r
          else c in s'.abandoned <==> c in s.abandoned)
  }

  /**
    A closing order has made way for itself: each entry of its strategy that was in flight is completed, or
    abandoned with its own request; everything else is in flight, completed and abandoned as before.
   */
  ghost predicate MadeWay(s: RouterState, s': RouterState, closing: OrderRequest, open: map<string, nat>,
                          answers: map<nat, bool>) {
    && (forall c :: c in s.inFlight && c != closing.clientId ==>
          Handled(s, s', closing, c, WasCancelled(s, open, answers, c)))
    && (forall c :: c !in s.inFlight && c != closing.clientId ==>
          && c !in s'.inFlight && (c in s'.completed <==> c in s.completed)
          && (c in s'.abandoned <==> c in s.abandoned))
    && (forall c :: c in s.abandoned && c !in s.inFlight ==> c in s'.abandoned && s'.abandoned[c] == s.abandoned[c])
  }

  lemma OneMakesWay(s: RouterState, r: OrderRequest, open: map<string, nat>, answers: map<nat, bool>, c: string)
    requires c in s.inFlight
    ensures Handled(s, Cleared(s, r, open, answers), r, c, WasCancelled(s, open, answers, c))
  {
    assert Cancellable(s.orderNo, open, answers, c) <==> WasCancelled(s, open, answers, c);
    assert c in Targets(s.inFlight, r.strategyId) && r.intent.CloseOnly() <==> InTheWay(r, s.inFlight[c]);
  }

  lemma OthersStay(s: RouterState, r: OrderRequest, open: map<string, nat>, answers: map<nat, bool>, c: string)
    requires c !in s.inFlight
    ensures var s' := Cleared(s, r, open, answers);
            && c !in s'.inFlight && (c in s'.completed <==> c in s.completed)
            && (c in s'.abandoned <==> c in s.abandoned) && (c in s.abandoned ==> s'.abandoned[c] == s.abandoned[c])
  {
    assert c !in Targets(s.inFlight, r.strategyId);
  }

  lemma ClosingMakesWay(s: RouterState, r: OrderRequest, open: map<string, nat>, answers: map<nat, bool>)
    ensures MadeWay(s, Cleared(s, r, open, answers), r, open, answers)
  {
    var s' := Cleared(s, r, open, answers);
    forall c | c in s.inFlight ensures Handled(s, s', r, c, WasCancelled(s, open, answers, c)) {
      OneMakesWay(s, r, open, answers, c);
    }
    forall c | c !in s.inFlight
      ensures && c !in s'.inFlight && (c in s'.completed <==> c in s.completed)
              && (c in s'.abandoned <==> c in s.abandoned) && (c in s.abandoned ==> s'.abandoned[c] == s.abandoned[c])
    {
      OthersStay(s, r, open, answers, c);
    }
  }

  /** The ledger after an approved submission; no reply means that the broker raised. */
  function Submitted(s: RouterState, r: OrderRequest, open: map<string, nat>, answers: map<nat, bool>,
                     reply: Option<OrderAck>, now: int): RouterState {
    var cleared := Cleared(s, r, open, answers);
    if reply.None? then cleared else Finalize(Reserve(cleared, r), r, reply.value, now)
  }

  /** The submission's own reservation and reply leave every other order as the clearing left it. */
  lemma SubmissionMakesWay(s: RouterState, r: OrderRequest, open: map<string, nat>, answers: map<nat, bool>,
                           reply: Option<OrderAck>, now: int)
    ensures MadeWay(s, Submitted(s, r, open, answers, reply, now), r, open, answers)
  {
    ClosingMakesWay(s, r, open, answers);
    var cleared := Cleared(s, r, open, answers);
    if reply.Some? { OwnIdOnly(cleared, r, reply.value, now); }
    OthersAsCleared(s, cleared, Submitted(s, r, open, answers, reply, now), r, open, answers);
  }

  /** Only this client id may have changed. */
  ghost predicate SameButFor(s: RouterState, s': RouterState, own: string) {
    && (forall c :: c != own ==> (c in s'.inFlight <==> c in s.inFlight) && (c in s'.completed <==> c in s.completed))
    && (forall c :: c != own && c in s.inFlight ==> s'.inFlight[c] == s.inFlight[c])
    && s'.abandoned == s.abandoned && (forall c :: c != own ==> (c in s'.filled <==> c in s.filled))
  }

  lemma OwnIdOnly(s: RouterState, r: OrderRequest, ack: OrderAck, now: int)
    ensures SameButFor(s, Finalize(Reserve(s, r), r, ack, now), r.clientId)
  {
  }

  lemma OthersAsCleared(s: RouterState, cleared: RouterState, s': RouterState, r: OrderRequest, open: map<string, nat>,
                        answers: map<nat, bool>)
    requires MadeWay(s, cleared, r, open, answers) && SameButFor(cleared, s', r.clientId)
    ensures MadeWay(s, s', r, open, answers)
  {
    forall c | c in s.inFlight && c != r.clientId ensures Handled(s, s', r, c, WasCancelled(s, open, answers, c)) {
      assert Handled(s, cleared, r, c, WasCancelled(s, open, answers, c));
    }
  }

  /**
    Once a closing order has made way for itself, no entry of its strategy can reopen the position unseen:
    it was cancelled, or the router answers each of its fills with the opposite emergency order.
   */
  lemma NoEntryReopensUnseen(s: RouterState, r: OrderRequest, open: map<string, nat>, answers: map<nat, bool>,
                             c: string, f: FillEvent, newId: string)
    requires r.intent != Entry && r.strategyId != "" && f.clientId == Some(c)
    requires c in s.inFlight && s.inFlight[c].intent == Entry && s.inFlight[c].strategyId == r.strategyId
    ensures var s' := Cleared(s, r, open, answers);
            WasCancelled(s, open, answers, c)
            || HandleEvent(s', Fill(f), newId).1
               == Some(Order(s.inFlight[c].symbol, f.action.Opposite(), f.quantity, None, MKP, IOC, Emergency,
                             newId, ""))
  {
    OneMakesWay(s, r, open, answers, c);
    WatchedIsAnswered(Cleared(s, r, open, answers), c, f, newId);
  }

  lemma WatchedIsAnswered(s: RouterState, c: string, f: FillEvent, newId: string)
    requires f.clientId == Some(c)
    ensures c in s.abandoned ==>
              HandleEvent(s, Fill(f), newId).1
              == Some(Order(s.abandoned[c].symbol, f.action.Opposite(), f.quantity, None, MKP, IOC, Emergency, newId,
                            ""))
  {
  }

  function Refusal(r: OrderRequest): OrderAck {
    OrderAck(r.clientId, None, false)
  }

  lemma ReserveThenRelease(s: RouterState, r: OrderRequest)
    requires r.clientId !in s.inFlight
    ensures Release(Reserve(s, r), r.clientId) == s
  {
    assert s.inFlight[r.clientId := r] - {r.clientId} == s.inFlight;
  }

  class OrderRouter {
    var inFlight: map<string, OrderRequest>
    var completed: set<string>
    var filledQuantities: map<string, nat>
    var orderNoCache: map<string, nat>
    var abandonedEntries: map<string, OrderRequest>
    var abandonedFilled: map<string, nat>
    var lastSubmitAt: Option<int>

    ghost function State(): RouterState
      reads this
    {
      RouterState(inFlight, completed, filledQuantities, orderNoCache, abandonedEntries, abandonedFilled, lastSubmitAt)
    }

    constructor ()
      ensures State() == EMPTY
    {
      inFlight, completed, filledQuantities, orderNoCache := map[], {}, map[], map[];
      abandonedEntries, abandonedFilled, lastSubmitAt := map[], map[], None;
    }

    /**
      A submission that nothing interrupts: refused without effect when the id is known or the risk check
      objects; otherwise a closing order first clears its strategy's entries, and the broker's reply decides.
      The check sees the router's own last submission and the price limits that the broker was asked for, if
      it answered. No reply means that the broker raised, and then the reservation is gone again.
     */
    method Submit(request: OrderRequest, limits: Risk.Limits, ctx: Risk.Context, priceLimits: Option<(real, real)>,
                  open: map<string, nat>, answers: map<nat, bool>, reply: Option<OrderAck>)
      returns (ack: Option<OrderAck>, neutralize: bool)
      modifies this
      ensures !neutralize
      ensures var s := old(State());
              var checked := Risk.Check(limits, request, ctx.(lastOrderAt := s.lastSubmit, priceLimits := priceLimits));
              if IsDuplicate(s, request.clientId) || !checked.Approved? then
                State() == s && ack == Some(OrderAck(request.clientId, None, false))
              else
                && ack == reply && State() == Submitted(s, request, open, answers, reply, ctx.now)
                && MadeWay(s, State(), request, open, answers)
    {
      neutralize := false;
      if request.clientId in inFlight || request.clientId in completed {
        return Some(Refusal(request)), false;
      }
      var decision := Risk.Check(limits, request, ctx.(lastOrderAt := lastSubmitAt, priceLimits := priceLimits));
      if decision != Risk.Approved {
        return Some(Refusal(request)), false;
      }
      if request.intent.CloseOnly() {
        var cancelled, abandoned := CancelWorkingEntries(request.strategyId, open, answers);
        ghost var targets := Targets(old(inFlight), request.strategyId);
        assert cancelled == set c | c in targets && Cancellable(old(orderNoCache), open, answers, c);
        assert abandoned == set c | c in targets && !Cancellable(old(orderNoCache), open, answers, c);
      }
      ghost var cleared := State();
      assert cleared == Cleared(old(State()), request, open, answers);
      SubmissionMakesWay(old(State()), request, open, answers, reply, ctx.now);
      var reserved := TryReserve(request);
      if !reserved {
        return Some(Refusal(request)), false;
      }
      if reply.None? {
        ReserveThenRelease(cleared, request);
        GiveUp(request.clientId);
        return None, false;
      }
      neutralize := Conclude(request, reply.value, ctx.now);
      ack := reply;
    }

    /**
      The emergency path. The shared lock is only tried, before and after the broker call: without it the
      order goes out all the same, unrecorded, or its outcome is not recorded.
     */
    method SubmitUnchecked(request: OrderRequest, lockBefore: bool, lockAfter: bool, reply: Option<OrderAck>, now: int)
      returns (ack: Option<OrderAck>, sent: bool)
      modifies this
      ensures sent <==> !lockBefore || !IsDuplicate(old(State()), request.clientId)
      ensures ack == if sent then reply else Some(OrderAck(request.clientId, None, false))
      ensures var s := old(State());
              State() == if !lockBefore || !sent then s
                         else if !lockAfter then Reserve(s, request)
                         else if reply.None? then s
                         else Finalize(Reserve(s, request), request, reply.value, now)
    {
      sent, ack := true, reply;
      if !lockBefore {
        return;
      }
      sent := TryReserve(request);
      if !sent {
        return Some(Refusal(request)), false;
      }
      if lockAfter {
        if reply.None? {
          ReserveThenRelease(old(State()), request);
          GiveUp(request.clientId);
        } else {
          FinalizeAck(request, reply.value, now);
        }
      }
    }

    /** First section of a submission: refuse a known id, else reserve it before any network call. */
    method TryReserve(request: OrderRequest) returns (ok: bool)
      modifies this
      ensures ok <==> !IsDuplicate(old(State()), request.clientId)
      ensures State() == Reserve(old(State()), request)
      ensures State() == old(State()).(inFlight := if ok then old(inFlight)[request.clientId := request]
                                                   else old(inFlight))
    {
      if request.clientId in inFlight || request.clientId in completed {
        return false;
      }
      inFlight := inFlight[request.clientId := request];
      return true;
    }

    /** The section run when the broker raised: the reservation is given back. */
    method GiveUp(clientId: string)
      modifies this
      ensures State() == Release(old(State()), clientId)
    {
      inFlight := inFlight - {clientId};
    }

    method MarkDone(clientId: string)
      modifies this
      ensures State() == MarkCompleted(old(State()), clientId)
      ensures clientId in completed && clientId !in inFlight && clientId !in filledQuantities
    {
      inFlight := inFlight - {clientId};
      filledQuantities := filledQuantities - {clientId};
      completed := completed + {clientId};
    }

    /** Last section of a checked submission; reports whether an accepted entry must be neutralized. */
    method Conclude(request: OrderRequest, ack: OrderAck, now: int) returns (neutralize: bool)
      modifies this
      ensures neutralize <==> request.clientId !in old(inFlight) && ack.accepted && request.intent.Entry?
      ensures State() == if request.clientId in old(inFlight) then Finalize(old(State()), request, ack, now)
                         else old(State())
    {
      var orphaned := request.clientId !in inFlight;
      if !orphaned {
        FinalizeAck(request, ack, now);
      }
      return orphaned && ack.accepted && request.intent.Entry?;
    }

    /** Deals with an accepted entry whose id was no longer in flight; `answers` says which cancels succeed. */
    method NeutralizeLateEntry(request: OrderRequest, ack: OrderAck, answers: map<nat, bool>, newId: string)
      returns (compensation: Option<OrderRequest>)
      ensures var cancelled :=
                ack.brokerOrderId.Some? && ack.brokerOrderId.value in answers && answers[ack.brokerOrderId.value];
              compensation == Neutralization(request, cancelled, newId)
    {
      if ack.brokerOrderId.Some? && ack.brokerOrderId.value in answers && answers[ack.brokerOrderId.value] {
        return None;
      }
      return Some(Order(request.symbol, request.action.Opposite(), request.quantity,
                        None, MKP, IOC, Emergency, newId, ""));
    }

    method FinalizeAck(request: OrderRequest, ack: OrderAck, now: int)
      modifies this
      ensures State() == Finalize(old(State()), request, ack, now)
    {
      if ack.accepted {
        lastSubmitAt := Some(now);
      } else {
        MarkDone(request.clientId);
      }
      if ack.brokerOrderId.Some? {
        orderNoCache := orderNoCache[request.clientId := ack.brokerOrderId.value];
      }
    }

    /** The section that follows the broker-side cancel-all. */
    method ClearLedger()
      modifies this
      ensures State() == ClearAll(old(State()))
    {
      completed := completed + inFlight.Keys;
      inFlight, filledQuantities, abandonedEntries, abandonedFilled := map[], map[], map[], map[];
    }

    method OnEvent(event: OrderEvent, newId: string) returns (compensation: Option<OrderRequest>)
      modifies this
      ensures (State(), compensation) == HandleEvent(old(State()), event, newId)
    {
      compensation := None;
      var client := EventClient(event);
      if client.None? {
        return;
      }
      var c := client.value;
      if event.AckEvent? {
        orderNoCache := orderNoCache[c := event.brokerOrderId];
      } else if event.Fill? {
        RecordFillOf(c, event.fill);
        if c in abandonedEntries {
          compensation := PrepareCompensation(c, event.fill, newId);
        }
      } else if event.RejectEvent? || event.remainingQuantity == 0 {
        MarkDone(c);
        abandonedEntries, abandonedFilled := abandonedEntries - {c}, abandonedFilled - {c};
      }
    }

    method RecordFillOf(c: string, f: FillEvent)
      modifies this
      ensures State() == RecordFill(old(State()), c, f.quantity)
    {
      var total := (if c in filledQuantities then filledQuantities[c] else 0) + f.quantity;
      filledQuantities := filledQuantities[c := total];
      if c in inFlight && total >= inFlight[c].quantity {
        MarkDone(c);
      }
    }

    method PrepareCompensation(c: string, f: FillEvent, newId: string) returns (compensation: Option<OrderRequest>)
      requires c in abandonedEntries
      modifies this
      ensures State() == CountAbandoned(old(State()), c, f.quantity)
      ensures compensation == Some(Compensation(old(abandonedEntries)[c].symbol, f.action, f.quantity, newId))
    {
      var request := abandonedEntries[c];
      compensation := Some(Order(request.symbol, f.action.Opposite(), f.quantity,
                                 None, MKP, IOC, Emergency, newId, ""));
      var filled := (if c in abandonedFilled then abandonedFilled[c] else 0) + f.quantity;
      abandonedFilled := abandonedFilled[c := filled];
      if filled >= request.quantity {
        abandonedEntries := abandonedEntries - {c};
      }
    }

    /**
      Clears a strategy's working entries out of the way of its closing order. Every target ends up
      cancelled and completed, or abandoned and watched; nothing else is touched.
     */
    method CancelWorkingEntries(strategyId: string, open: map<string, nat>, answers: map<nat, bool>)
      returns (cancelled: set<string>, abandoned: set<string>)
      modifies this
      ensures cancelled + abandoned == Targets(old(inFlight), strategyId)
      ensures forall c :: c in cancelled + abandoned <==>
                strategyId != "" && c in old(inFlight)
                && old(inFlight)[c].strategyId == strategyId && old(inFlight)[c].intent == Entry
      ensures forall c :: c in cancelled ==> Cancellable(old(orderNoCache), open, answers, c)
      ensures forall c :: c in abandoned ==> !Cancellable(old(orderNoCache), open, answers, c)
      ensures State() == SettleTargets(old(State()), cancelled, abandoned)
    {
      cancelled, abandoned := {}, {};
      SettleNone(State());
      if strategyId == "" {
        return;
      }
      var requests, cachedIds := inFlight, orderNoCache;
      var targets := Targets(inFlight, strategyId);
      var todo := targets;
      while todo != {}
        invariant todo <= targets && cancelled + abandoned == targets - todo
        invariant forall c :: c in cancelled ==> Cancellable(cachedIds, open, answers, c)
        invariant forall c :: c in abandoned ==> !Cancellable(cachedIds, open, answers, c)
        invariant State() == SettleTargets(old(State()), cancelled, abandoned)
      {
        var c :| c in todo;
        var succeeded := CancelOrAbandon(c, requests[c], cachedIds, open, answers);
        if succeeded {
          SettleCancelled(old(State()), cancelled, abandoned, c);
          cancelled := cancelled + {c};
        } else {
          SettleAbandoned(old(State()), cancelled, abandoned, c);
          abandoned := abandoned + {c};
        }
        todo := todo - {c};
      }
    }

    method CancelOrAbandon(c: string, request: OrderRequest, cachedIds: map<string, nat>, open: map<string, nat>,
                           answers: map<nat, bool>) returns (succeeded: bool)
      modifies this
      ensures succeeded <==> Cancellable(cachedIds, open, answers, c)
      ensures State() == if succeeded then MarkCompleted(old(State()), c) else MarkAbandoned(old(State()), c, request)
    {
      var brokerOrderId := if c in cachedIds then Some(cachedIds[c]) else None;
      if brokerOrderId.None? && c in open {
        brokerOrderId := Some(open[c]);
      }
      succeeded := brokerOrderId.Some? && brokerOrderId.value in answers && answers[brokerOrderId.value];
      if succeeded {
        MarkDone(c);
      } else {
        Abandon(c, request);
      }
    }

    method Abandon(c: string, request: OrderRequest)
      modifies this
      ensures State() == MarkAbandoned(old(State()), c, request)
    {
      abandonedEntries := abandonedEntries[c := request];
      if c !in abandonedFilled {
        abandonedFilled := abandonedFilled[c := if c in filledQuantities then filledQuantities[c] else 0];
      }
    }

    /** Retries the cancel of every abandoned entry whose broker number is known; successes are forgotten. */
    method RetryAbandoned(answers: map<nat, bool>)
      modifies this`abandonedEntries
      ensures forall c :: c in abandonedEntries <==>
                c in old(abandonedEntries)
                && !(c in orderNoCache && orderNoCache[c] in answers && answers[orderNoCache[c]])
      ensures forall c :: c in abandonedEntries ==> abandonedEntries[c] == old(abandonedEntries)[c]
    {
      var todo := abandonedEntries.Keys;
      while todo != {}
        invariant todo <= old(abandonedEntries).Keys
        invariant forall c :: c in abandonedEntries <==>
                    && c in old(abandonedEntries)
                    && (c in todo || !(c in orderNoCache && orderNoCache[c] in answers && answers[orderNoCache[c]]))
        invariant forall c :: c in abandonedEntries ==> abandonedEntries[c] == old(abandonedEntries)[c]
      {
        var c :| c in todo;
        todo := todo - {c};
        if c in orderNoCache && orderNoCache[c] in answers && answers[orderNoCache[c]] {
          abandonedEntries := abandonedEntries - {c};
        }
      }
    }
  }
}
