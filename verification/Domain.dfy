/** Vocabulary shared by the broker, the engine and the strategies. */
module Domain {

  datatype Option<+T> = None | Some(value: T)

  /** Order, lot and fill sizes are always positive. */
  type Quantity = q: int | q > 0 witness 1

  datatype Direction = Long | Short {
    function Sign(): int {
      if Long? then 1 else -1
    }

    function Opposite(): Direction {
      if Long? then Short else Long
    }
  }

  datatype Intent = Entry | TakeProfit | StopLoss | ForceClose | Emergency {
    /** Intents that may only shrink an existing position. */
    predicate CloseOnly() {
      this in {TakeProfit, StopLoss, ForceClose, Emergency}
    }
  }

  datatype PriceType = LMT | MKP | MKT

  datatype TimeInForce = ROD | IOC | FOK

  datatype Order = Order(
    symbol: string, action: Direction, quantity: Quantity, price: Option<real>, priceType: PriceType,
    tif: TimeInForce, intent: Intent, clientId: string, strategyId: string)

  /** A request is only ever constructed with a price when it is a limit order. */
  type OrderRequest = o: Order | o.priceType.LMT? ==> o.price.Some?
    witness Order("", Long, 1, None, MKP, IOC, Entry, "", "")

  datatype FillEvent = FillEvent(
    clientId: Option<string>, brokerOrderId: nat, code: string, action: Direction, price: real, quantity: Quantity)

  datatype Position = Position(
    code: string, direction: Direction, quantity: Quantity, averagePrice: real, unrealizedPnl: real)

  datatype OrderAck = OrderAck(clientId: string, brokerOrderId: Option<nat>, accepted: bool)

  function Min(a: int, b: int): int {
    if a <= b then a else b
  }

  function Max(a: int, b: int): int {
    if a <= b then b else a
  }

  function Abs(a: int): int {
    if a < 0 then -a else a
  }
}
