/**
 The current command line's helpers (`cli_app/helpers.py`): the post-parse
 checks of command mode, the input checks of the menu's order options, and
 the open-orders listing.
 */
module Helpers {
  import opened Common
  import opened Values
  import opened Orders
  import opened Arguments

  datatype CommandOutcome = UseMenu | Stop(usage: Usage) | Proceed(args: Args)

  /** The order-independent statement of what command mode lets through. */
  predicate CommandReady(args: Args) {
    && (args.action.Some? && OrderAction(args.action.value) ==>
          && !MissingOrNonPositive(args.amount)
          && (args.orderType == LimitType ==> !MissingOrNonPositive(args.price))
          && (args.orderType == StopLimitType ==>
                !MissingOrNonPositive(args.stopPrice) && !MissingOrNonPositive(args.price)))
    && (args.action == Some(Cancel) ==> !Falsy(args.orderId))
  }

  /** `command_mode` after parsing: no action selects the menu; for buy and
      sell the amount is checked first, then a limit order's price, then a
      stop-limit order's stop price and after it its price; cancel needs a
      non-zero order id. The first failing check decides the message. */
  function CommandMode(args: Args): (r: CommandOutcome)
    ensures r == UseMenu <==> args.action.None?
    ensures r.Proceed? ==> r.args == args
    ensures r.Proceed? <==> args.action.Some? && CommandReady(args)
    ensures r == Stop(AmountRequired) <==>
      args.action.Some? && OrderAction(args.action.value) && MissingOrNonPositive(args.amount)
    ensures r == Stop(LimitPriceRequired) <==>
      args.action.Some? && OrderAction(args.action.value) && !MissingOrNonPositive(args.amount)
      && args.orderType == LimitType && MissingOrNonPositive(args.price)
    ensures r == Stop(StopPriceRequired) <==>
      args.action.Some? && OrderAction(args.action.value) && !MissingOrNonPositive(args.amount)
      && args.orderType == StopLimitType && MissingOrNonPositive(args.stopPrice)
    ensures r == Stop(StopLimitPriceRequired) <==>
      args.action.Some? && OrderAction(args.action.value) && !MissingOrNonPositive(args.amount)
      && args.orderType == StopLimitType && !MissingOrNonPositive(args.stopPrice) && MissingOrNonPositive(args.price)
    ensures r == Stop(OrderIdRequired) <==> args.action == Some(Cancel) && Falsy(args.orderId)
  {
    if args.action.None? then UseMenu
    else
      var a := args.action.value;
      if OrderAction(a) && MissingOrNonPositive(args.amount) then Stop(AmountRequired)
      else if OrderAction(a) && args.orderType == LimitType && MissingOrNonPositive(args.price) then Stop(LimitPriceRequired)
      else if OrderAction(a) && args.orderType == StopLimitType && MissingOrNonPositive(args.stopPrice) then Stop(StopPriceRequired)
      else if OrderAction(a) && args.orderType == StopLimitType && MissingOrNonPositive(args.price) then Stop(StopLimitPriceRequired)
      else if a == Cancel && Falsy(args.orderId) then Stop(OrderIdRequired)
      else Proceed(args)
  }

  /** Every argument set command mode lets through carries what its action
      needs: a positive amount for buy and sell, a positive `--price` for a
      limit order, a positive `--stop-price` and `--price` for a stop-limit
      order, and a non-zero `--order-id` for cancel. */
  lemma CommandModeAcceptsReady(args: Args)
    requires CommandMode(args).Proceed?
    ensures args.action.Some?
    ensures OrderAction(args.action.value) ==> args.amount.Some? && args.amount.value > 0.0
    ensures OrderAction(args.action.value) && args.orderType == LimitType ==>
      args.price.Some? && args.price.value > 0.0
    ensures OrderAction(args.action.value) && args.orderType == StopLimitType ==>
      args.stopPrice.Some? && args.stopPrice.value > 0.0 && args.price.Some? && args.price.value > 0.0
    ensures args.action == Some(Cancel) ==> args.orderId.Some? && args.orderId.value != 0
  {
  }

  /** Why a menu option went back to the menu with a message. */
  datatype MenuRefusal = InvalidSide | NonPositiveQuantity | NonPositivePrice | NonPositiveStopPrice | NonPositiveLimitPrice

  /** How one pass through a menu option ends: silently back to the menu,
      back with a message, declined at the confirmation, or with a call into
      the bot. */
  datatype MenuOutcome = Back | Refused(reason: MenuRefusal) | Declined | Chosen(call: BotCall)

  /** Menu option 4, given the upper-cased symbol and side, the quantity
      (`None` when input was interrupted) and the lower-cased confirmation. */
  function MenuMarketOrder(symbol: string, side: string, amount: Option<real>, confirm: string): (r: MenuOutcome)
    ensures r.Chosen? <==> symbol != "" && ValidSide(side) && !MissingOrNonPositive(amount) && confirm == "yes"
    ensures r.Chosen? ==> r.call == Placing(Intent(symbol, side, amount.value, Market))
    ensures r == Back <==> symbol == ""
    ensures symbol != "" && !ValidSide(side) ==> r == Refused(InvalidSide)
    ensures symbol != "" && ValidSide(side) && MissingOrNonPositive(amount) ==> r == Refused(NonPositiveQuantity)
    ensures r == Declined <==> symbol != "" && ValidSide(side) && !MissingOrNonPositive(amount) && confirm != "yes"
  {
    if symbol == "" then Back
    else if !ValidSide(side) then Refused(InvalidSide)
    else if MissingOrNonPositive(amount) then Refused(NonPositiveQuantity)
    else if confirm == "yes" then Chosen(Placing(Intent(symbol, side, amount.value, Market)))
    else Declined
  }

  /** Menu option 5: as option 4, with the limit price checked after the
      quantity. */
  function MenuLimitOrder(symbol: string, side: string, amount: Option<real>, price: Option<real>, confirm: string): (r: MenuOutcome)
    ensures r.Chosen? <==>
      symbol != "" && ValidSide(side) && !MissingOrNonPositive(amount) && !MissingOrNonPositive(price) && confirm == "yes"
    ensures r.Chosen? ==> r.call == Placing(Intent(symbol, side, amount.value, Limit(price.value)))
    ensures symbol != "" && !ValidSide(side) ==> r == Refused(InvalidSide)
    ensures symbol != "" && ValidSide(side) && MissingOrNonPositive(amount) ==> r == Refused(NonPositiveQuantity)
    ensures symbol != "" && ValidSide(side) && !MissingOrNonPositive(amount) && MissingOrNonPositive(price) ==>
      r == Refused(NonPositivePrice)
    ensures r == Back <==> symbol == ""
    ensures r == Declined <==>
      symbol != "" && ValidSide(side) && !MissingOrNonPositive(amount) && !MissingOrNonPositive(price) && confirm != "yes"
  {
    if symbol == "" then Back
    else if !ValidSide(side) then Refused(InvalidSide)
    else if MissingOrNonPositive(amount) then Refused(NonPositiveQuantity)
    else if MissingOrNonPositive(price) then Refused(NonPositivePrice)
    else if confirm == "yes" then Chosen(Placing(Intent(symbol, side, amount.value, Limit(price.value))))
    else Declined
  }

  /** Menu option 6: the stop price is asked for and checked before the
      limit price. */
  function MenuStopLimitOrder(symbol: string, side: string, amount: Option<real>, stopPrice: Option<real>,
                              limitPrice: Option<real>, confirm: string): (r: MenuOutcome)
    ensures r.Chosen? <==>
      symbol != "" && ValidSide(side) && !MissingOrNonPositive(amount)
      && !MissingOrNonPositive(stopPrice) && !MissingOrNonPositive(limitPrice) && confirm == "yes"
    ensures r.Chosen? ==> r.call == Placing(Intent(symbol, side, amount.value, StopLimit(stopPrice.value, limitPrice.value)))
    ensures symbol != "" && !ValidSide(side) ==> r == Refused(InvalidSide)
    ensures symbol != "" && ValidSide(side) && MissingOrNonPositive(amount) ==> r == Refused(NonPositiveQuantity)
    ensures symbol != "" && ValidSide(side) && !MissingOrNonPositive(amount) && MissingOrNonPositive(stopPrice) ==>
      r == Refused(NonPositiveStopPrice)
    ensures symbol != "" && ValidSide(side) && !MissingOrNonPositive(amount) && !MissingOrNonPositive(stopPrice) && MissingOrNonPositive(limitPrice) ==>
      r == Refused(NonPositiveLimitPrice)
    ensures r == Back <==> symbol == ""
    ensures r == Declined <==>
      symbol != "" && ValidSide(side) && !MissingOrNonPositive(amount)
      && !MissingOrNonPositive(stopPrice) && !MissingOrNonPositive(limitPrice) && confirm != "yes"
  {
    if symbol == "" then Back
    else if !ValidSide(side) then Refused(InvalidSide)
    else if MissingOrNonPositive(amount) then Refused(NonPositiveQuantity)
    else if MissingOrNonPositive(stopPrice) then Refused(NonPositiveStopPrice)
    else if MissingOrNonPositive(limitPrice) then Refused(NonPositiveLimitPrice)
    else if confirm == "yes" then Chosen(Placing(Intent(symbol, side, amount.value, StopLimit(stopPrice.value, limitPrice.value))))
    else Declined
  }

  /** Menu option 8: an empty symbol or a zero or missing order id goes back
      silently. */
  function MenuCancelOrder(symbol: string, orderId: Option<int>, confirm: string): (r: MenuOutcome)
    ensures r.Chosen? <==> symbol != "" && !Falsy(orderId) && confirm == "yes"
    ensures r.Chosen? ==> r.call == Cancelling(symbol, orderId.value)
    ensures r == Back <==> symbol == "" || Falsy(orderId)
    ensures r == Declined <==> symbol != "" && !Falsy(orderId) && confirm != "yes"
  {
    if symbol == "" || Falsy(orderId) then Back
    else if confirm == "yes" then Chosen(Cancelling(symbol, orderId.value))
    else Declined
  }

  /** Whatever the menu hands to the bot passes the bot's own validation. */
  lemma MenuPlacementsAreWellFormed(symbol: string, side: string, amount: Option<real>,
                                    price: Option<real>, stopPrice: Option<real>, confirm: string)
    ensures MenuMarketOrder(symbol, side, amount, confirm).Chosen? ==>
      Validate(MenuMarketOrder(symbol, side, amount, confirm).call.intent).None?
    ensures MenuLimitOrder(symbol, side, amount, price, confirm).Chosen? ==>
      Validate(MenuLimitOrder(symbol, side, amount, price, confirm).call.intent).None?
    ensures MenuStopLimitOrder(symbol, side, amount, stopPrice, price, confirm).Chosen? ==>
      Validate(MenuStopLimitOrder(symbol, side, amount, stopPrice, price, confirm).call.intent).None?
  {
  }

  /** The fields one open order is listed with; a missing price reads "MARKET". */
  datatype OrderRow = OrderRow(orderId: Value, symbol: Value, side: Value, orderType: Value,
                               quantity: Value, price: Value, status: Value)

  /** The fields the listing indexes directly, raising `KeyError` when absent. */
  predicate HasRowKeys(order: Response) {
    "orderId" in order && "symbol" in order && "side" in order && "type" in order
    && "origQty" in order && "status" in order
  }

  /** One open order's listing, or `None` when it raises. */
  function RowOf(order: Response): (r: Option<OrderRow>)
    ensures r.Some? <==> HasRowKeys(order)
    ensures r.Some? ==>
      r.value.orderId == order["orderId"] && r.value.symbol == order["symbol"] && r.value.side == order["side"]
      && r.value.orderType == order["type"] && r.value.quantity == order["origQty"] && r.value.status == order["status"]
    ensures r.Some? && "price" !in order ==> r.value.price == Text("MARKET")
    ensures r.Some? && "price" in order ==> r.value.price == order["price"]
  {
    if !HasRowKeys(order) then None
    else
      Some(OrderRow(order["orderId"], order["symbol"], order["side"], order["type"],
                    order["origQty"], GetOr(order, "price", Text("MARKET")), order["status"]))
  }

  /** What `display_open_orders` shows: a failure message, "No open orders",
      one row per order, or an exception at the first order missing a field. */
  datatype OpenOrdersView = FetchFailed | NoOpenOrders | Listed(rows: seq<OrderRow>) | ListingRaised(at: nat)

  /** `display_open_orders`, given what `get_open_orders` returned. A failed
      fetch (`None`) and an empty list are told apart. */
  method DisplayOpenOrders(orders: Option<seq<Response>>) returns (v: OpenOrdersView)
    ensures v.FetchFailed? <==> orders.None?
    ensures v.NoOpenOrders? <==> orders == Some([])
    ensures v.Listed? ==>
      orders.Some? && |v.rows| == |orders.value|
      && forall i :: 0 <= i < |v.rows| ==> RowOf(orders.value[i]) == Some(v.rows[i])
    ensures v.ListingRaised? ==>
      orders.Some? && v.at < |orders.value| && !HasRowKeys(orders.value[v.at])
      && forall i :: 0 <= i < v.at ==> HasRowKeys(orders.value[i])
    ensures orders.Some? && |orders.value| > 0 ==>
      (v.Listed? <==> forall i :: 0 <= i < |orders.value| ==> HasRowKeys(orders.value[i]))
  {
    if orders.None? {
      return FetchFailed;
    }
    var xs := orders.value;
    if |xs| == 0 {
      return NoOpenOrders;
    }
    var rows: seq<OrderRow> := [];
    var k := 0;
    while k < |xs|
      invariant 0 <= k <= |xs|
      invariant |rows| == k
      invariant forall i :: 0 <= i < k ==> RowOf(xs[i]) == Some(rows[i])
    {
      var row := RowOf(xs[k]);
      if row.None? {
        return ListingRaised(k);
      }
      rows := rows + [row.value];
      k := k + 1;
    }
    return Listed(rows);
  }
}
