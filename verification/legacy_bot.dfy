/**
 The earlier bot (`bot.py`): market and limit placement only. Its market
 request also passes the wall-clock time as `timestamp`, here the parameter
 `now`; its printout has no average-price line; it has no identifier
 fallback.
 */
module LegacyBot {
  import opened Common
  import opened Values
  import opened Exchange
  import opened Orders
  import opened Responses
  import opened Pipeline
  import Bot

  /** `place_market_order` of the earlier bot. */
  function PlaceMarketOrder(gw: Gateway, now: int, symbol: string, side: string, quantity: real): (p: Placement)
    ensures !ValidSide(side) ==> p == Placement(None, Failed(ValidationError(Rejected(BadSide))))
    ensures ValidSide(side) && quantity <= 0.0 ==> p == Placement(None, Failed(ValidationError(Rejected(BadQuantity))))
    ensures p.sent.Some? <==> ValidSide(side) && quantity > 0.0
    ensures p.sent.Some? ==>
      p.sent.value == Submit(CreateOrder, OrderRequest(symbol, side, "MARKET", quantity, None, None, None, Some(now)))
    ensures p.Result().Some? <==>
      p.sent.Some? && gw(p.sent.value).Answered? && Settles(gw(p.sent.value).response, WithoutAvgPrice)
    ensures p.Result().Some? ==> p.Result().value == gw(p.sent.value).response
  {
    var i := Intent(symbol, side, quantity, Market);
    Place(gw, i, Submit(CreateOrder, BuildRequest(i).(timestamp := Some(now))), KeysRequired, WithoutAvgPrice)
  }

  /** `place_limit_order` of the earlier bot. */
  function PlaceLimitOrder(gw: Gateway, symbol: string, side: string, quantity: real, price: real): (p: Placement)
    ensures !ValidSide(side) ==> p == Placement(None, Failed(ValidationError(Rejected(BadSide))))
    ensures ValidSide(side) && quantity <= 0.0 ==> p == Placement(None, Failed(ValidationError(Rejected(BadQuantity))))
    ensures ValidSide(side) && quantity > 0.0 && price <= 0.0 ==> p == Placement(None, Failed(ValidationError(Rejected(BadPrice))))
    ensures p.sent.Some? <==> ValidSide(side) && quantity > 0.0 && price > 0.0
    ensures p.sent.Some? ==>
      p.sent.value == Submit(LimitOrder, OrderRequest(symbol, side, "LIMIT", quantity, Some(price), None, Some("GTC"), None))
    ensures p.Result().Some? <==>
      p.sent.Some? && gw(p.sent.value).Answered? && Settles(gw(p.sent.value).response, WithoutAvgPrice)
    ensures p.Result().Some? ==> p.Result().value == gw(p.sent.value).response
  {
    var i := Intent(symbol, side, quantity, Limit(price));
    Place(gw, i, Submit(EndpointOf(i.kind), BuildRequest(i)), KeysRequired, WithoutAvgPrice)
  }

  /** Runs the earlier bot's method for an intent; it has none for stop-limit. */
  function Invoke(gw: Gateway, now: int, i: Intent): Placement
    requires !i.kind.StopLimit?
  {
    match i.kind
    case Market => PlaceMarketOrder(gw, now, i.symbol, i.side, i.quantity)
    case Limit(price) => PlaceLimitOrder(gw, i.symbol, i.side, i.quantity, price)
  }

  /** Both bots validate and build alike: for a market or limit intent they
      reach the client under the same conditions, with requests that differ
      at most in the market order's timestamp. For a limit order, whenever
      the current bot returns a dict the earlier one returns the same dict:
      it prints one line fewer, so it fails in no additional case. */
  lemma AgreesWithCurrentBot(gw: Gateway, now: int, i: Intent)
    requires !i.kind.StopLimit?
    ensures Invoke(gw, now, i).sent.Some? <==> Bot.Invoke(gw, Placing(i)).sent.Some?
    ensures Invoke(gw, now, i).outcome.Failed? && Invoke(gw, now, i).outcome.failure.IsRejection() <==>
      Bot.Invoke(gw, Placing(i)).outcome.Failed? && Bot.Invoke(gw, Placing(i)).outcome.failure.IsRejection()
    ensures i.kind.Limit? ==> Invoke(gw, now, i).sent == Bot.Invoke(gw, Placing(i)).sent
    ensures Invoke(gw, now, i).sent.Some? ==>
      Invoke(gw, now, i).sent.value.request.(timestamp := None) == Bot.Invoke(gw, Placing(i)).sent.value.request
    ensures i.kind.Limit? && Bot.Invoke(gw, Placing(i)).Result().Some? ==>
      Invoke(gw, now, i).Result() == Bot.Invoke(gw, Placing(i)).Result()
  {
  }

  /** When the earlier bot returns a dict for a limit order, the current bot
      returns it too exactly when the response's average-price line prints:
      a truthy `avgPrice` that `float()` cannot convert is the only thing
      that separates the two. */
  lemma LimitResultsDifferOnlyByAvgPrice(gw: Gateway, now: int, i: Intent)
    requires i.kind.Limit? && Invoke(gw, now, i).Result().Some?
    ensures gw(Submit(LimitOrder, BuildRequest(i))).Answered?
    ensures Bot.Invoke(gw, Placing(i)).Result().Some? <==>
      PriceLinePrints(gw(Submit(LimitOrder, BuildRequest(i))).response, "avgPrice")
    ensures Bot.Invoke(gw, Placing(i)).Result().Some? ==>
      Bot.Invoke(gw, Placing(i)).Result() == Invoke(gw, now, i).Result()
  {
  }
}
