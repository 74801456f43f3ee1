/**
 * The broker's order, fill, position and account records and the events a
 * broker publishes.
 */
module Orders {
  import opened Common

  datatype OrderSide = Buy | Sell

  datatype OrderType = Market | Limit

  datatype OrderStatus = New | Accepted | PartiallyFilled | Filled | Canceled | Rejected | Expired

  datatype TimeInForce = GTC | IOC | FOK

  datatype PlaceOrderRequest = PlaceOrderRequest(
    symbol: string,
    side: OrderSide,
    orderType: OrderType,
    quantity: real,
    limitPrice: Option<real>,
    clientOrderId: Option<string>,
    algorithmId: Option<string>,
    tif: TimeInForce)

  datatype OrderAck = OrderAck(accepted: bool, orderId: Option<string>, clientOrderId: Option<string>, message: Option<string>)

  datatype CancelOrderRequest = CancelOrderRequest(orderId: string, symbol: Option<string>)

  datatype CancelAck = CancelAck(accepted: bool, orderId: string, message: Option<string>)

  datatype OrderState = OrderState(
    orderId: string,
    symbol: string,
    side: OrderSide,
    orderType: OrderType,
    status: OrderStatus,
    quantity: real,
    filledQuantity: real,
    limitPrice: Option<real>,
    avgFillPrice: Option<real>,
    createdUtc: Ticks,
    updatedUtc: Option<Ticks>,
    clientOrderId: Option<string>)

  datatype Fill = Fill(
    orderId: string,
    symbol: string,
    side: OrderSide,
    price: real,
    quantity: real,
    fee: real,
    feeCurrency: string,
    timeUtc: Ticks,
    tradeId: Option<string>)

  datatype Position = Position(symbol: string, quantity: real, avgPrice: real)

  datatype BalanceItem = BalanceItem(currency: string, total: real, available: real)

  datatype AccountSnapshot = AccountSnapshot(timeUtc: Ticks, balances: seq<BalanceItem>)

  datatype BrokerEvent =
    | OrderUpdatedEvent(timeUtc: Ticks, order: OrderState)
    | FillEvent(timeUtc: Ticks, fill: Fill)
    | BrokerErrorEvent(timeUtc: Ticks, message: string, code: Option<string>)

  /** Status names as C# prints them in interpolated strings. */
  function StatusName(s: OrderStatus): string
  {
    match s
    case New => "New"
    case Accepted => "Accepted"
    case PartiallyFilled => "PartiallyFilled"
    case Filled => "Filled"
    case Canceled => "Canceled"
    case Rejected => "Rejected"
    case Expired => "Expired"
  }

  function TifName(t: TimeInForce): string
  {
    match t
    case GTC => "GTC"
    case IOC => "IOC"
    case FOK => "FOK"
  }
}
