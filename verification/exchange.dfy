/**
 The boundary to the exchange client. The client's network calls are not
 modelled; a `Gateway` is any total function from the call the bot makes to
 what the client hands back, a decoded response or a raised exception.
 */
module Exchange {
  import opened Common
  import opened Values

  /** Exchange type tags and time-in-force used in order requests. */
  const MarketTag := "MARKET"
  const LimitTag := "LIMIT"
  const StopTag := "STOP"
  const GoodTillCancelled := "GTC"

  /** Which client method carries an order: `futures_create_order` or
      `futures_limit_order`. */
  datatype Endpoint = CreateOrder | LimitOrder

  /** The keyword arguments of one order-placement call; `None` means the
      keyword is not passed at all. */
  datatype OrderRequest = OrderRequest(
    symbol: string,
    side: string,
    orderType: string,
    quantity: real,
    price: Option<real>,
    stopPrice: Option<real>,
    timeInForce: Option<string>,
    timestamp: Option<int>)

  /** Every call the order pipeline makes on the client. */
  datatype ApiCall =
    | Submit(endpoint: Endpoint, request: OrderRequest)
    | CancelCall(symbol: string, orderId: int)

  /** What the client raises: the exchange's own error, a `ValueError`, or
      anything else (transport failure, attribute or type errors). */
  datatype Raised =
    | ApiException(code: int, message: string)
    | ValueErrorRaised(message: string)
    | OtherException(message: string)

  datatype Reply = Answered(response: Response) | Threw(error: Raised)

  type Gateway = ApiCall -> Reply
}
