/**
 The earlier entry point (`cli.py`): an action is required, only market and
 limit orders exist, and there is no menu.
 */
module LegacyCli {
  import opened Common
  import opened Orders
  import opened Arguments
  import Helpers
  import Cli

  /** The post-parse checks: for buy and sell a positive amount, then a
      positive price for limit orders; for cancel a non-zero order id. */
  function Check(args: Args): (r: Option<Usage>)
    requires args.action.Some?
    ensures r == Some(AmountRequired) <==> OrderAction(args.action.value) && MissingOrNonPositive(args.amount)
    ensures r == Some(LimitPriceRequired) <==>
      OrderAction(args.action.value) && !MissingOrNonPositive(args.amount)
      && args.orderType == LimitType && MissingOrNonPositive(args.price)
    ensures r == Some(OrderIdRequired) <==> args.action == Some(Cancel) && Falsy(args.orderId)
    ensures r.Some? ==> r.value in {AmountRequired, LimitPriceRequired, OrderIdRequired}
  {
    var a := args.action.value;
    if OrderAction(a) && MissingOrNonPositive(args.amount) then Some(AmountRequired)
    else if OrderAction(a) && args.orderType == LimitType && MissingOrNonPositive(args.price) then Some(LimitPriceRequired)
    else if a == Cancel && Falsy(args.orderId) then Some(OrderIdRequired)
    else None
  }

  /** On the arguments the earlier parser can produce, its checks and the
      current command mode decide alike. */
  lemma CheckAgreesWithCommandMode(args: Args)
    requires args.action.Some? && args.orderType != StopLimitType
    ensures Check(args).None? <==> Helpers.CommandMode(args).Proceed?
    ensures Check(args).Some? ==> Helpers.CommandMode(args) == Helpers.Stop(Check(args).value)
  {
  }

  /** The dispatch: the actions it has no branch for (`info`) and order
      types it has no branch for do nothing. */
  function Dispatch(args: Args): (c: Command)
    requires args.action.Some? && Check(args).None?
    ensures args.action == Some(Balance) ==> c == ShowBalance
    ensures args.action == Some(Price) ==> c == ShowPrice(args.symbol)
    ensures args.action == Some(Orders) ==> c == ShowOpenOrders(args.symbol)
    ensures args.action == Some(Info) ==> c == Idle
    ensures args.action == Some(Cancel) ==> c == Invoke(Cancelling(args.symbol, args.orderId.value))
    ensures OrderAction(args.action.value) && args.orderType == MarketType ==>
      c == Invoke(Placing(Intent(args.symbol, SideOf(args.action.value), args.amount.value, Market)))
    ensures OrderAction(args.action.value) && args.orderType == LimitType ==>
      c == Invoke(Placing(Intent(args.symbol, SideOf(args.action.value), args.amount.value, Limit(args.price.value))))
    ensures OrderAction(args.action.value) && args.orderType == StopLimitType ==> c == Idle
    ensures c.Invoke? && c.call.Placing? ==> WellFormed(c.call.intent) && !c.call.intent.kind.StopLimit?
  {
    match args.action.value
    case Balance => ShowBalance
    case Price => ShowPrice(args.symbol)
    case Orders => ShowOpenOrders(args.symbol)
    case Cancel => Invoke(Cancelling(args.symbol, args.orderId.value))
    case Info => Idle
    case _ =>
      var side := SideOf(args.action.value);
      match args.orderType
      case MarketType => Invoke(Placing(Intent(args.symbol, side, args.amount.value, Market)))
      case LimitType => Invoke(Placing(Intent(args.symbol, side, args.amount.value, Limit(args.price.value))))
      case StopLimitType => Idle
  }

  /** `main` after configuration: parse, check, dispatch. */
  function Run(raw: RawArgs): (r: MainOutcome)
    ensures r != MenuMode
    ensures raw.action.None? ==> r == ArgumentError(MissingAction)
    ensures r.Execute? ==>
      ParseLegacyArgs(raw).Ok? && Check(ParseLegacyArgs(raw).value).None?
      && r.command == Dispatch(ParseLegacyArgs(raw).value)
    ensures r.Execute? ==> r.command != Idle
    ensures r.UsageExit? ==> ParseLegacyArgs(raw).Ok? && Check(ParseLegacyArgs(raw).value) == Some(r.usage)
    ensures ParseLegacyArgs(raw).Err? ==> r == ArgumentError(ParseLegacyArgs(raw).error)
    ensures ParseLegacyArgs(raw).Ok? && Check(ParseLegacyArgs(raw).value).Some? ==>
      r == UsageExit(Check(ParseLegacyArgs(raw).value).value)
    ensures ParseLegacyArgs(raw).Ok? && Check(ParseLegacyArgs(raw).value).None? ==>
      r == Execute(Dispatch(ParseLegacyArgs(raw).value))
  {
    match ParseLegacyArgs(raw)
    case Err(e) => ArgumentError(e)
    case Ok(args) =>
      match Check(args)
      case Some(u) => UsageExit(u)
      case None => Execute(Dispatch(args))
  }

  /** On every command line the earlier parser accepts, the earlier entry
      point ends exactly as the current one does: the same argument error,
      the same usage message, or the same command. */
  lemma RunAgreesWithCli(raw: RawArgs)
    requires ParseLegacyArgs(raw).Ok?
    ensures Run(raw) == Cli.Run(raw)
  {
    var args := ParseLegacyArgs(raw).value;
    LegacyParseWithinCommandParse(raw);
    CheckAgreesWithCommandMode(args);
  }
}
