/**
 The broker's records. Their validators are subset types: a quantity, a price or an
 average price exists only when it is positive, an order request only when a limit
 order has a limit price. `Decimal` is an exact `real`: the rounding of the 28-digit
 decimal context is not part of this model.
 */
module BrokerModels {
  import opened Options

  type Amount = x: real | x > 0.0 witness 1.0
  type Time = int

  datatype Side = Buy | Sell
  datatype OrderType = Market | Limit
  datatype Status = Pending | Filled | Cancelled | Rejected

  datatype RequestFields = OrderRequest(symbol: string, side: Side, orderType: OrderType, quantity: Amount,
                                        limitPrice: Option<Amount>)
  type OrderRequest = r: RequestFields | r.orderType.Limit? ==> r.limitPrice.Some?
    witness OrderRequest("", Buy, Market, 1.0, None)

  datatype Order = Order(id: string, symbol: string, side: Side, orderType: OrderType, quantity: Amount,
                         status: Status, createdAt: Time, updatedAt: Time, limitPrice: Option<Amount>)
  datatype Execution = Execution(id: string, orderId: string, symbol: string, side: Side, quantity: Amount,
                                 price: Amount, executedAt: Time)
  datatype Position = Position(symbol: string, quantity: Amount, averagePrice: Amount, updatedAt: Time)
  datatype Account = Account(id: string, cash: real, equity: real, buyingPower: real, updatedAt: Time,
                             positions: seq<Position>)

  datatype Rejection =
    | Disconnected | Unsupported | InsufficientCash | InsufficientPosition | UnknownOrder | NotPending | Invalid
  datatype Result<+T> = Ok(value: T) | Err(error: Rejection)

  /** `OrderRequest.__post_init__`: which records of plain numbers are requests. */
  function NewOrderRequest(
    symbol: string, side: Side, orderType: OrderType, quantity: real, limitPrice: Option<real>
  ): (r: Result<OrderRequest>)
    ensures r.Ok? <==>
            quantity > 0.0 && (limitPrice.Some? ==> limitPrice.value > 0.0) && (orderType.Limit? ==> limitPrice.Some?)
    ensures r.Ok? ==>
              && r.value.symbol == symbol && r.value.side == side && r.value.orderType == orderType
              && r.value.quantity == quantity && r.value.limitPrice.Some? == limitPrice.Some?
              && (limitPrice.Some? ==> r.value.limitPrice.value == limitPrice.value)
  {
    if quantity <= 0.0 then Err(Invalid)
    else if orderType.Limit? && limitPrice.None? then Err(Invalid)
    else if limitPrice.None? then Ok(OrderRequest(symbol, side, orderType, quantity, None))
    else if limitPrice.value <= 0.0 then Err(Invalid)
    else Ok(OrderRequest(symbol, side, orderType, quantity, Some(limitPrice.value)))
  }

  const MARKET_PRICE: Amount := 100.0
  const STARTING_CASH: real := 100000.0
}
