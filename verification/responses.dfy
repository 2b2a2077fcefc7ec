/**
 What the bot does with a response dict once the client returns one: the
 identifier/status fallback applied to stop-limit responses, and the field
 defaults of the order-details printout.
 */
module Responses {
  import opened Common
  import opened Values

  /** A stop-limit response may report its identifier as `algoId` and its
      status as `algoStatus`. The bot overwrites `orderId` with
      `orderId or algoId` and `status` with `status or algoStatus`; both keys
      are present afterwards, possibly holding `None`. */
  function WithAlgoFallback(order: Response): (r: Response)
    ensures r.Keys == order.Keys + {"orderId", "status"}
    ensures Truthy(Get(order, "orderId")) ==> r["orderId"] == order["orderId"]
    ensures !Truthy(Get(order, "orderId")) ==> r["orderId"] == Get(order, "algoId")
    ensures Truthy(Get(order, "status")) ==> r["status"] == order["status"]
    ensures !Truthy(Get(order, "status")) ==> r["status"] == Get(order, "algoStatus")
    ensures forall k :: k in order && k != "orderId" && k != "status" ==> r[k] == order[k]
  {
    var withId := order["orderId" := Or(Get(order, "orderId"), Get(order, "algoId"))];
    withId["status" := Or(Get(order, "status"), Get(order, "algoStatus"))]
  }

  /** Applying the fallback a second time changes nothing. */
  lemma WithAlgoFallbackIdempotent(order: Response)
    ensures WithAlgoFallback(WithAlgoFallback(order)) == WithAlgoFallback(order)
  {
    var once := WithAlgoFallback(order);
    var twice := WithAlgoFallback(once);
    assert twice.Keys == once.Keys;
    forall k | k in once
      ensures twice[k] == once[k]
    {
    }
  }

  /** The fallback never turns a truthy identifier into a falsy one: the
      result's `orderId` is truthy exactly when `orderId` or `algoId` was. */
  lemma WithAlgoFallbackIdentified(order: Response)
    ensures Truthy(WithAlgoFallback(order)["orderId"]) <==> Truthy(Get(order, "orderId")) || Truthy(Get(order, "algoId"))
    ensures Truthy(WithAlgoFallback(order)["status"]) <==> Truthy(Get(order, "status")) || Truthy(Get(order, "algoStatus"))
  {
  }

  /** Which order-details printout: the current bot also prints `avgPrice`,
      the earlier one does not. */
  datatype Layout = WithAvgPrice | WithoutAvgPrice

  /** The values the order-details printout shows. `price` and `avgPrice`
      are `None` when their line is skipped; `seconds` is `updateTime / 1000`
      before it is rendered as a date. */
  datatype Details = Details(
    orderId: Value,
    symbol: Value,
    side: Value,
    orderType: Value,
    status: Value,
    quantity: Value,
    executedQty: Value,
    price: Option<Value>,
    avgPrice: Option<Value>,
    seconds: real)

  /** A price line is printed only for a truthy value, and printing it
      converts the value with `float()`. */
  predicate PriceLinePrints(order: Response, key: string) {
    !Truthy(Get(order, key)) || Convertible(order[key])
  }

  /** `updateTime` defaults to 0 and must support division by 1000. */
  predicate TimeLinePrints(order: Response) {
    Millis(GetOr(order, "updateTime", Num(0.0))).Some?
  }

  /** The shown price: the raw value when truthy, no line otherwise. */
  function PriceLine(order: Response, key: string): Option<Value> {
    if Truthy(Get(order, key)) then Some(order[key]) else None
  }

  /** The order-details printout, or `None` when printing raises. Absent
      fields print as `None`, except `executedQty`, which prints as "N/A", and
      `updateTime`, which counts as 0. */
  function OrderDetails(order: Response, layout: Layout): (d: Option<Details>)
    ensures d.Some? <==>
      PriceLinePrints(order, "price")
      && (layout.WithAvgPrice? ==> PriceLinePrints(order, "avgPrice"))
      && TimeLinePrints(order)
    ensures d.Some? ==>
      d.value.orderId == Get(order, "orderId") && d.value.status == Get(order, "status")
      && d.value.symbol == Get(order, "symbol") && d.value.side == Get(order, "side")
      && d.value.orderType == Get(order, "type") && d.value.quantity == Get(order, "origQty")
    ensures d.Some? && "executedQty" !in order ==> d.value.executedQty == Text("N/A")
    ensures d.Some? && "executedQty" in order ==> d.value.executedQty == order["executedQty"]
    ensures d.Some? ==> (d.value.price.Some? <==> Truthy(Get(order, "price")))
    ensures d.Some? && d.value.price.Some? ==> d.value.price.value == order["price"]
    ensures d.Some? && layout.WithoutAvgPrice? ==> d.value.avgPrice.None?
    ensures d.Some? && layout.WithAvgPrice? ==> (d.value.avgPrice.Some? <==> Truthy(Get(order, "avgPrice")))
    ensures d.Some? && d.value.avgPrice.Some? ==> d.value.avgPrice.value == order["avgPrice"]
    ensures d.Some? && "updateTime" !in order ==> d.value.seconds == 0.0
    ensures d.Some? && "updateTime" in order && order["updateTime"].Num? ==> d.value.seconds == order["updateTime"].n / 1000.0
  {
    var avgPrints := layout.WithAvgPrice? ==> PriceLinePrints(order, "avgPrice");
    var time := Millis(GetOr(order, "updateTime", Num(0.0)));
    if !PriceLinePrints(order, "price") || !avgPrints || time.None? then None
    else
      Some(Details(
        Get(order, "orderId"), Get(order, "symbol"), Get(order, "side"), Get(order, "type"),
        Get(order, "status"), Get(order, "origQty"), GetOr(order, "executedQty", Text("N/A")),
        PriceLine(order, "price"),
        if layout.WithAvgPrice? then PriceLine(order, "avgPrice") else None,
        time.value))
  }

  /** The earlier printout drops the average-price line only: it succeeds
      whenever the current one does and shows the same values otherwise. */
  lemma LayoutsAgree(order: Response)
    requires OrderDetails(order, WithAvgPrice).Some?
    ensures OrderDetails(order, WithoutAvgPrice).Some?
    ensures OrderDetails(order, WithoutAvgPrice).value == OrderDetails(order, WithAvgPrice).value.(avgPrice := None)
  {
  }

  /** The printout of a stop-limit response that reports only `algoId` and
      `algoStatus` shows those as the order's identifier and status. */
  lemma AlgoOnlyResponseDetails(order: Response, layout: Layout)
    requires !Truthy(Get(order, "orderId")) && !Truthy(Get(order, "status"))
    requires OrderDetails(WithAlgoFallback(order), layout).Some?
    ensures OrderDetails(WithAlgoFallback(order), layout).value.orderId == Get(order, "algoId")
    ensures OrderDetails(WithAlgoFallback(order), layout).value.status == Get(order, "algoStatus")
  {
  }
}
