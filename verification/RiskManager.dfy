/** The risk check on orders, a pure decision on a request and a snapshot of the engine. */
module RiskManager {
  import opened Domain
  import opened FifoLedger

  datatype Limits = Limits(maxDailyLoss: real, maxTrades: Quantity, maxPosition: Quantity, cooldown: int)

  /** What the check sees. The position is signed: positive when long. */
  datatype Context = Context(
    now: int, sessionOpen: bool, halted: bool, position: int, totalPnl: real, tradeCount: int,
    lastOrderAt: Option<int>, priceLimits: Option<(real, real)>)

  datatype Decision =
    | Approved
    | SessionClosed
    | EngineHalted
    | DailyLoss
    | TradeLimit
    | PositionLimit
    | Cooldown(remaining: int)
    | BelowLimit
    | AboveLimit

  function Projected(r: OrderRequest, ctx: Context): nat {
    Abs(ctx.position + Signed(r.action, r.quantity))
  }

  function Waiting(l: Limits, ctx: Context): int {
    if ctx.lastOrderAt.None? then 0 else l.cooldown - (ctx.now - ctx.lastOrderAt.value)
  }

  /** The conditions an approved order meets, whatever order they are tested in. */
  predicate Permitted(l: Limits, r: OrderRequest, ctx: Context) {
    && ctx.sessionOpen
    && (!r.intent.CloseOnly() ==> !ctx.halted && ctx.totalPnl > -l.maxDailyLoss)
    && (r.intent.Entry? ==> ctx.tradeCount < l.maxTrades && Projected(r, ctx) <= l.maxPosition && Waiting(l, ctx) <= 0)
    && (r.price.Some? && ctx.priceLimits.Some? ==> ctx.priceLimits.value.0 <= r.price.value <= ctx.priceLimits.value.1)
  }

  /**
    Emergency orders always pass; any other order passes exactly when it is permitted. A closing order is
    never held back by the halt, the daily loss, the trade count, the position limit or the cooldown.
   */
  function Check(l: Limits, r: OrderRequest, ctx: Context): (d: Decision)
    ensures d.Approved? <==> r.intent.Emergency? || Permitted(l, r, ctx)
    ensures r.intent.CloseOnly() ==> d in {Approved, SessionClosed, BelowLimit, AboveLimit}
    ensures d.Cooldown? ==> d.remaining > 0
  {
    if r.intent.Emergency? then Approved
    else if !ctx.sessionOpen then SessionClosed
    else if ctx.halted && !r.intent.CloseOnly() then EngineHalted
    else if ctx.totalPnl <= -l.maxDailyLoss && !r.intent.CloseOnly() then DailyLoss
    else if ctx.tradeCount >= l.maxTrades && r.intent.Entry? then TradeLimit
    else if r.intent.Entry? && Projected(r, ctx) > l.maxPosition then PositionLimit
    else if r.intent.Entry? && Waiting(l, ctx) > 0 then Cooldown(Waiting(l, ctx))
    else if r.price.Some? && ctx.priceLimits.Some? then
      if r.price.value < ctx.priceLimits.value.0 then BelowLimit
      else if r.price.value > ctx.priceLimits.value.1 then AboveLimit
      else Approved
    else Approved
  }
}
