/**
 The shape shared by every placement method of both bots: validate, build,
 call the client, post-process the response, print it, and turn every raised
 exception into a `None` return.
 */
module Pipeline {
  import opened Common
  import opened Values
  import opened Exchange
  import opened Orders
  import opened Responses

  /** What raised a `ValueError`, which the methods catch and log as a
      validation error: their own input checks, `float()` on a truthy
      price field while printing, or the client. */
  datatype ValueErrorReason =
    | Rejected(why: Rejection)
    | UnconvertiblePrice(key: string)
    | ClientValueError(message: string)

  /** What raised any other exception, which the methods log as unexpected. */
  datatype Cause =
    | ClientError(message: string)   // raised by the client
    | MissingKey(key: string)        // `order['orderId']` or `order['status']` on a dict without it
    | NonNumericTime                 // `updateTime / 1000` on a value that is not a number

  /** The exception a method caught, by the `except` branch that caught it:
      the exchange's own error, a `ValueError`, or anything else. */
  datatype Failure =
    | ApiError(code: int, message: string)
    | ValidationError(reason: ValueErrorReason)
    | Unexpected(cause: Cause)
  {
    /** The failure is the method's own input check. */
    predicate IsRejection() {
      ValidationError? && reason.Rejected?
    }
  }

  datatype Outcome = Returned(order: Response) | Failed(failure: Failure)

  /** One run of a placement method: the call it made on the client, if
      any, and how it ended. */
  datatype Placement = Placement(sent: Option<ApiCall>, outcome: Outcome) {
    /** The method's return value: the order dict, or `None` for any failure. */
    function Result(): (r: Option<Response>)
      ensures r.Some? <==> outcome.Returned?
    {
      if outcome.Returned? then Some(outcome.order) else None
    }
  }

  /** How a method treats the response dict before using it. */
  datatype ResponseRule =
    | KeysRequired   // reads `order['orderId']` and `order['status']` as they are
    | AlgoFallback   // first fills them from `algoId` / `algoStatus`

  function Shaped(raw: Response, rule: ResponseRule): Response {
    if rule.AlgoFallback? then WithAlgoFallback(raw) else raw
  }

  /** The response survives logging and printing. */
  predicate Settles(order: Response, layout: Layout) {
    "orderId" in order && "status" in order && OrderDetails(order, layout).Some?
  }

  /** The branch a placement method's `except` clauses send a client
      exception to. */
  function FromRaised(x: Raised): (f: Failure)
    ensures f.ApiError? <==> x.ApiException?
    ensures f.ValidationError? <==> x.ValueErrorRaised?
    ensures !f.IsRejection()
  {
    match x
    case ApiException(c, m) => ApiError(c, m)
    case ValueErrorRaised(m) => ValidationError(ClientValueError(m))
    case OtherException(m) => Unexpected(ClientError(m))
  }

  /** The branch `cancel_order`'s `except` clauses send a client exception
      to: it has no `ValueError` branch, so only the exchange's own error is
      told apart. */
  function FromRaisedOnCancel(x: Raised): (f: Failure)
    ensures f.ApiError? <==> x.ApiException?
    ensures f.Unexpected? <==> !x.ApiException?
    ensures x.ApiException? ==> f == FromRaised(x)
  {
    match x
    case ApiException(c, m) => ApiError(c, m)
    case ValueErrorRaised(m) => Unexpected(ClientError(m))
    case OtherException(m) => Unexpected(ClientError(m))
  }

  /** The exception printing the order details raises, if any: the price
      line is printed first, then the average-price line, then the time. */
  function PrintFailure(order: Response, layout: Layout): (f: Option<Failure>)
    ensures f.None? <==> OrderDetails(order, layout).Some?
    ensures !PriceLinePrints(order, "price") ==> f == Some(ValidationError(UnconvertiblePrice("price")))
    ensures PriceLinePrints(order, "price") && layout.WithAvgPrice? && !PriceLinePrints(order, "avgPrice") ==>
      f == Some(ValidationError(UnconvertiblePrice("avgPrice")))
    ensures f == Some(Unexpected(NonNumericTime)) <==>
      PriceLinePrints(order, "price") && (layout.WithAvgPrice? ==> PriceLinePrints(order, "avgPrice"))
      && !TimeLinePrints(order)
  {
    if !PriceLinePrints(order, "price") then Some(ValidationError(UnconvertiblePrice("price")))
    else if layout.WithAvgPrice? && !PriceLinePrints(order, "avgPrice") then Some(ValidationError(UnconvertiblePrice("avgPrice")))
    else if !TimeLinePrints(order) then Some(Unexpected(NonNumericTime))
    else None
  }

  /** Everything after the call was made: the call is always recorded as
      sent, and the dict is returned exactly when the client answered and
      the answer survives logging and printing. */
  function Settle(call: ApiCall, reply: Reply, rule: ResponseRule, layout: Layout): (p: Placement)
    ensures p.sent == Some(call)
    ensures p.Result().Some? <==> reply.Answered? && Settles(Shaped(reply.response, rule), layout)
    ensures p.Result().Some? ==> p.Result().value == Shaped(reply.response, rule)
    ensures reply.Threw? ==> p.outcome == Failed(FromRaised(reply.error))
    ensures reply.Answered? && "orderId" !in Shaped(reply.response, rule) ==>
      p.outcome == Failed(Unexpected(MissingKey("orderId")))
    ensures reply.Answered? && "orderId" in Shaped(reply.response, rule) && "status" !in Shaped(reply.response, rule) ==>
      p.outcome == Failed(Unexpected(MissingKey("status")))
    ensures reply.Answered? ==>
      var order := Shaped(reply.response, rule);
      "orderId" in order && "status" in order && PrintFailure(order, layout).Some? ==>
        p.outcome == Failed(PrintFailure(order, layout).value)
    ensures !p.outcome.Returned? ==> !p.outcome.failure.IsRejection()
  {
    match reply
    case Threw(x) => Placement(Some(call), Failed(FromRaised(x)))
    case Answered(raw) =>
      var order := Shaped(raw, rule);
      if "orderId" !in order then Placement(Some(call), Failed(Unexpected(MissingKey("orderId"))))
      else if "status" !in order then Placement(Some(call), Failed(Unexpected(MissingKey("status"))))
      else if PrintFailure(order, layout).Some? then Placement(Some(call), Failed(PrintFailure(order, layout).value))
      else Placement(Some(call), Returned(order))
  }

  /** Validation first; a rejected intent never reaches the client. */
  function Place(gw: Gateway, i: Intent, call: ApiCall, rule: ResponseRule, layout: Layout): (p: Placement)
    ensures p.sent.Some? <==> WellFormed(i)
    ensures !WellFormed(i) ==> p.outcome == Failed(ValidationError(Rejected(Validate(i).value)))
    ensures p.sent.Some? ==> p.sent.value == call
    ensures p.Result().Some? <==> WellFormed(i) && gw(call).Answered? && Settles(Shaped(gw(call).response, rule), layout)
    ensures p.Result().Some? ==> p.Result().value == Shaped(gw(call).response, rule)
  {
    ValidateAcceptsWellFormed(i);
    match Validate(i)
    case Some(e) => Placement(None, Failed(ValidationError(Rejected(e))))
    case None => Settle(call, gw(call), rule, layout)
  }
}
