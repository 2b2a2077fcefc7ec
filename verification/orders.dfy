/**
 The trading intent behind one placement call, the fail-fast validation every
 placement method runs first, and the mapping from intent to request keywords.
 */
module Orders {
  import opened Common
  import opened Exchange

  /** The order variants, each carrying only the prices it needs. */
  datatype Kind = Market | Limit(price: real) | StopLimit(stop: real, limit: real)

  /** The arguments of one placement method. `side` is free text: the
      methods accept any string and check it themselves. */
  datatype Intent = Intent(symbol: string, side: string, quantity: real, kind: Kind)

  /** A call into one of the bot's order methods, as the command line and
      the menu make it. */
  datatype BotCall = Placing(intent: Intent) | Cancelling(symbol: string, orderId: int)

  /** Why validation refused an intent. */
  datatype Rejection = BadSide | BadQuantity | BadPrice

  predicate ValidSide(side: string) {
    side == "BUY" || side == "SELL"
  }

  /** The prices the variant requires are all positive. */
  predicate PricesPositive(k: Kind) {
    match k
    case Market => true
    case Limit(p) => p > 0.0
    case StopLimit(s, l) => s > 0.0 && l > 0.0
  }

  /** The order-independent statement of what validation accepts. */
  predicate WellFormed(i: Intent) {
    ValidSide(i.side) && i.quantity > 0.0 && PricesPositive(i.kind)
  }

  /** The checks of the placement methods: side, then quantity, then the
      prices of the variant; the first failing check decides the error. A
      stop-limit intent fails its price check when either price is not
      positive, with one error for both. */
  function Validate(i: Intent): (r: Option<Rejection>)
    ensures r == Some(BadSide) <==> !ValidSide(i.side)
    ensures r == Some(BadQuantity) <==> ValidSide(i.side) && i.quantity <= 0.0
    ensures r == Some(BadPrice) <==> ValidSide(i.side) && i.quantity > 0.0 && !PricesPositive(i.kind)
  {
    if !ValidSide(i.side) then Some(BadSide)
    else if i.quantity <= 0.0 then Some(BadQuantity)
    else
      match i.kind
      case Market => None
      case Limit(p) => if p <= 0.0 then Some(BadPrice) else None
      case StopLimit(s, l) => if s <= 0.0 || l <= 0.0 then Some(BadPrice) else None
  }

  /** Validation accepts exactly the well-formed intents. */
  lemma ValidateAcceptsWellFormed(i: Intent)
    ensures Validate(i).None? <==> WellFormed(i)
  {
  }

  /** The keywords each variant sends: a market order sends no price and no
      time-in-force; a limit order adds its price with GTC; a stop-limit order
      goes out as type STOP with the limit as `price`, the trigger as
      `stopPrice`, and GTC. */
  function BuildRequest(i: Intent): (r: OrderRequest)
    ensures r.symbol == i.symbol && r.side == i.side && r.quantity == i.quantity
    ensures r.timestamp.None?
    ensures i.kind.Market? ==> r.orderType == MarketTag && r.price.None? && r.stopPrice.None? && r.timeInForce.None?
    ensures i.kind.Limit? ==>
      r.orderType == LimitTag && r.price == Some(i.kind.price) && r.stopPrice.None?
      && r.timeInForce == Some(GoodTillCancelled)
    ensures i.kind.StopLimit? ==>
      r.orderType == StopTag && r.price == Some(i.kind.limit) && r.stopPrice == Some(i.kind.stop)
      && r.timeInForce == Some(GoodTillCancelled)
  {
    match i.kind
    case Market =>
      OrderRequest(i.symbol, i.side, MarketTag, i.quantity, None, None, None, None)
    case Limit(p) =>
      OrderRequest(i.symbol, i.side, LimitTag, i.quantity, Some(p), None, Some(GoodTillCancelled), None)
    case StopLimit(s, l) =>
      OrderRequest(i.symbol, i.side, StopTag, i.quantity, Some(l), Some(s), Some(GoodTillCancelled), None)
  }

  /** The client method each variant goes through. */
  function EndpointOf(k: Kind): (e: Endpoint)
    ensures e == LimitOrder <==> k.Limit?
  {
    if k.Limit? then LimitOrder else CreateOrder
  }

  /** Reads a request back as the intent it encodes, or `None` when its
      keywords match none of the three shapes. The timestamp is ignored. */
  function IntentOf(r: OrderRequest): Option<Intent> {
    if r.orderType == MarketTag && r.price.None? && r.stopPrice.None? && r.timeInForce.None? then
      Some(Intent(r.symbol, r.side, r.quantity, Market))
    else if r.orderType == LimitTag && r.price.Some? && r.stopPrice.None? && r.timeInForce == Some(GoodTillCancelled) then
      Some(Intent(r.symbol, r.side, r.quantity, Limit(r.price.value)))
    else if r.orderType == StopTag && r.price.Some? && r.stopPrice.Some? && r.timeInForce == Some(GoodTillCancelled) then
      Some(Intent(r.symbol, r.side, r.quantity, StopLimit(r.stopPrice.value, r.price.value)))
    else
      None
  }

  /** Building loses nothing: the request reads back as the intent. */
  lemma BuildRequestRoundTrip(i: Intent)
    ensures IntentOf(BuildRequest(i)) == Some(i)
  {
  }

  /** Every request that reads back as an intent, and carries no timestamp,
      is the one the builder makes for that intent. */
  lemma IntentOfRoundTrip(r: OrderRequest, i: Intent)
    requires r.timestamp.None?
    requires IntentOf(r) == Some(i)
    ensures BuildRequest(i) == r
  {
  }

  /** Distinct intents give distinct requests. */
  lemma BuildRequestInjective(i: Intent, j: Intent)
    requires BuildRequest(i) == BuildRequest(j)
    ensures i == j
  {
    BuildRequestRoundTrip(i);
    BuildRequestRoundTrip(j);
  }
}
