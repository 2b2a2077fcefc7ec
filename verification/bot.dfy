/**
 The order methods of the current bot (`cli_app/bot.py`): market, limit and
 stop-limit placement, and cancellation.
 */
module Bot {
  import opened Common
  import opened Values
  import opened Exchange
  import opened Orders
  import opened Responses
  import opened Pipeline

  /** `place_market_order`: sent through `futures_create_order` with no price
      and no time-in-force; the response is returned unchanged. */
  function PlaceMarketOrder(gw: Gateway, symbol: string, side: string, quantity: real): (p: Placement)
    ensures !ValidSide(side) ==> p == Placement(None, Failed(ValidationError(Rejected(BadSide))))
    ensures ValidSide(side) && quantity <= 0.0 ==> p == Placement(None, Failed(ValidationError(Rejected(BadQuantity))))
    ensures p.sent.Some? <==> ValidSide(side) && quantity > 0.0
    ensures p.sent.Some? ==>
      p.sent.value == Submit(CreateOrder, OrderRequest(symbol, side, "MARKET", quantity, None, None, None, None))
    ensures p.Result().Some? <==>
      p.sent.Some? && gw(p.sent.value).Answered? && Settles(gw(p.sent.value).response, WithAvgPrice)
    ensures p.Result().Some? ==> p.Result().value == gw(p.sent.value).response
  {
    var i := Intent(symbol, side, quantity, Market);
    Place(gw, i, Submit(EndpointOf(i.kind), BuildRequest(i)), KeysRequired, WithAvgPrice)
  }

  /** `place_limit_order`: sent through `futures_limit_order` with the price
      and GTC; the response is returned unchanged. */
  function PlaceLimitOrder(gw: Gateway, symbol: string, side: string, quantity: real, price: real): (p: Placement)
    ensures !ValidSide(side) ==> p == Placement(None, Failed(ValidationError(Rejected(BadSide))))
    ensures ValidSide(side) && quantity <= 0.0 ==> p == Placement(None, Failed(ValidationError(Rejected(BadQuantity))))
    ensures ValidSide(side) && quantity > 0.0 && price <= 0.0 ==> p == Placement(None, Failed(ValidationError(Rejected(BadPrice))))
    ensures p.sent.Some? <==> ValidSide(side) && quantity > 0.0 && price > 0.0
    ensures p.sent.Some? ==>
      p.sent.value == Submit(LimitOrder, OrderRequest(symbol, side, "LIMIT", quantity, Some(price), None, Some("GTC"), None))
    ensures p.Result().Some? <==>
      p.sent.Some? && gw(p.sent.value).Answered? && Settles(gw(p.sent.value).response, WithAvgPrice)
    ensures p.Result().Some? ==> p.Result().value == gw(p.sent.value).response
  {
    var i := Intent(symbol, side, quantity, Limit(price));
    Place(gw, i, Submit(EndpointOf(i.kind), BuildRequest(i)), KeysRequired, WithAvgPrice)
  }

  /** `place_stop_limit_order`: sent through `futures_create_order` as type
      STOP with `price` the limit and `stopPrice` the trigger; the returned
      dict is the response with the identifier/status fallback applied. */
  function PlaceStopLimitOrder(gw: Gateway, symbol: string, side: string, quantity: real, stopPrice: real, limitPrice: real): (p: Placement)
    ensures !ValidSide(side) ==> p == Placement(None, Failed(ValidationError(Rejected(BadSide))))
    ensures ValidSide(side) && quantity <= 0.0 ==> p == Placement(None, Failed(ValidationError(Rejected(BadQuantity))))
    ensures ValidSide(side) && quantity > 0.0 && (stopPrice <= 0.0 || limitPrice <= 0.0) ==>
      p == Placement(None, Failed(ValidationError(Rejected(BadPrice))))
    ensures p.sent.Some? <==> ValidSide(side) && quantity > 0.0 && stopPrice > 0.0 && limitPrice > 0.0
    ensures p.sent.Some? ==>
      p.sent.value == Submit(CreateOrder, OrderRequest(symbol, side, "STOP", quantity, Some(limitPrice), Some(stopPrice), Some("GTC"), None))
    ensures p.Result().Some? <==>
      p.sent.Some? && gw(p.sent.value).Answered? && OrderDetails(WithAlgoFallback(gw(p.sent.value).response), WithAvgPrice).Some?
    ensures p.Result().Some? ==> p.Result().value == WithAlgoFallback(gw(p.sent.value).response)
  {
    var i := Intent(symbol, side, quantity, StopLimit(stopPrice, limitPrice));
    Place(gw, i, Submit(EndpointOf(i.kind), BuildRequest(i)), AlgoFallback, WithAvgPrice)
  }

  /** `cancel_order`: no checks of its own; the client's answer, or `None`
      when it raises. */
  function CancelOrder(gw: Gateway, symbol: string, orderId: int): (p: Placement)
    ensures p.sent == Some(CancelCall(symbol, orderId))
    ensures gw(CancelCall(symbol, orderId)).Answered? ==> p.Result() == Some(gw(CancelCall(symbol, orderId)).response)
    ensures gw(CancelCall(symbol, orderId)).Threw? ==> p.outcome == Failed(FromRaisedOnCancel(gw(CancelCall(symbol, orderId)).error))
  {
    var call := CancelCall(symbol, orderId);
    match gw(call)
    case Answered(result) => Placement(Some(call), Returned(result))
    case Threw(x) => Placement(Some(call), Failed(FromRaisedOnCancel(x)))
  }

  /** Runs the bot method a call names, passing a stop-limit intent's
      trigger as `stop_price` and its limit as `limit_price`. */
  function Invoke(gw: Gateway, call: BotCall): Placement {
    match call
    case Placing(Intent(symbol, side, quantity, Market)) => PlaceMarketOrder(gw, symbol, side, quantity)
    case Placing(Intent(symbol, side, quantity, Limit(price))) => PlaceLimitOrder(gw, symbol, side, quantity, price)
    case Placing(Intent(symbol, side, quantity, StopLimit(stop, limit))) =>
      PlaceStopLimitOrder(gw, symbol, side, quantity, stop, limit)
    case Cancelling(symbol, orderId) => CancelOrder(gw, symbol, orderId)
  }

  /** Each placement method agrees with the intent-level reference: it
      reaches the client exactly for well-formed intents, sends the request
      the builder makes through the variant's endpoint, and otherwise fails
      with the error validation names. */
  lemma InvokeFollowsReference(gw: Gateway, i: Intent)
    ensures Invoke(gw, Placing(i)).sent.Some? <==> WellFormed(i)
    ensures WellFormed(i) ==> Invoke(gw, Placing(i)).sent == Some(Submit(EndpointOf(i.kind), BuildRequest(i)))
    ensures !WellFormed(i) ==> Invoke(gw, Placing(i)) == Placement(None, Failed(ValidationError(Rejected(Validate(i).value))))
  {
    ValidateAcceptsWellFormed(i);
  }

  /** A placed market or limit order whose response lacks `orderId` or
      `status` is still reported as a failure: the order reached the
      exchange, yet the method returns `None`, with the `KeyError` caught by
      the catch-all branch. */
  lemma PlacedOrderReportedAsFailure(gw: Gateway, i: Intent)
    requires WellFormed(i) && !i.kind.StopLimit?
    requires gw(Submit(EndpointOf(i.kind), BuildRequest(i))).Answered?
    requires var resp := gw(Submit(EndpointOf(i.kind), BuildRequest(i))).response;
      "orderId" !in resp || "status" !in resp
    ensures Invoke(gw, Placing(i)).sent == Some(Submit(EndpointOf(i.kind), BuildRequest(i)))
    ensures Invoke(gw, Placing(i)).Result().None?
    ensures Invoke(gw, Placing(i)).outcome.failure.Unexpected?
    ensures Invoke(gw, Placing(i)).outcome.failure.cause.MissingKey?
  {
    InvokeFollowsReference(gw, i);
  }

  /** A stop-limit order never fails for a missing identifier: whenever it
      returns, its dict carries `orderId` and `status`, filled from
      `algoId` and `algoStatus` when the primary fields are falsy. */
  lemma StopLimitResultIdentified(gw: Gateway, symbol: string, side: string, quantity: real, stop: real, limit: real)
    requires PlaceStopLimitOrder(gw, symbol, side, quantity, stop, limit).Result().Some?
    ensures var raw := gw(PlaceStopLimitOrder(gw, symbol, side, quantity, stop, limit).sent.value).response;
      var r := PlaceStopLimitOrder(gw, symbol, side, quantity, stop, limit).Result().value;
      && "orderId" in r && "status" in r
      && r["orderId"] == Or(Get(raw, "orderId"), Get(raw, "algoId"))
      && r["status"] == Or(Get(raw, "status"), Get(raw, "algoStatus"))
  {
  }

  /** A stop-limit order answered only with `algoId` 5 and `algoStatus`
      NEW returns a dict whose `orderId` is 5 and `status` NEW. */
  lemma StopLimitAlgoOnlyScenario()
    ensures var gw := (c: ApiCall) => Answered(map["algoId" := Text("5"), "algoStatus" := Text("NEW")]);
      var r := PlaceStopLimitOrder(gw, "BTCUSDT", "BUY", 0.01, 90000.0, 90500.0).Result();
      r.Some? && r.value["orderId"] == Text("5") && r.value["status"] == Text("NEW")
  {
    var raw: Response := map["algoId" := Text("5"), "algoStatus" := Text("NEW")];
    var order := WithAlgoFallback(raw);
    assert "updateTime" !in order && "price" !in order && "avgPrice" !in order;
    assert OrderDetails(order, WithAvgPrice).Some?;
  }

  /** A market order whose call raises a transport error returns `None`
      after the request was sent. */
  lemma MarketTransportFailureScenario()
    ensures var gw := (c: ApiCall) => Threw(OtherException("connection reset"));
      var p := PlaceMarketOrder(gw, "BTCUSDT", "BUY", 0.01);
      p.sent.Some? && p.Result().None? && p.outcome == Failed(Unexpected(ClientError("connection reset")))
  {
  }
}
