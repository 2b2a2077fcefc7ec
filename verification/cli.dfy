/**
 The current entry point (`cli_app/cli.py`): menu mode when no action is
 given, otherwise the checked arguments are dispatched to a display helper or
 to a bot method.
 */
module Cli {
  import opened Common
  import opened Exchange
  import opened Orders
  import opened Arguments
  import opened Helpers
  import Bot

  /** The intent of a buy/sell command: the side is the upper-cased action,
      and a stop-limit command passes `--stop-price` as the trigger and
      `--price` as the limit. */
  function IntentFor(args: Args): (i: Intent)
    requires args.action.Some? && OrderAction(args.action.value) && CommandReady(args)
    ensures WellFormed(i)
    ensures i.symbol == args.symbol && i.quantity == args.amount.value
    ensures i.side == "BUY" <==> args.action == Some(Buy)
    ensures args.orderType == MarketType ==> i.kind == Market
    ensures args.orderType == LimitType ==> i.kind == Limit(args.price.value)
    ensures args.orderType == StopLimitType ==> i.kind == StopLimit(args.stopPrice.value, args.price.value)
  {
    var kind := match args.orderType
      case MarketType => Market
      case LimitType => Limit(args.price.value)
      case StopLimitType => StopLimit(args.stopPrice.value, args.price.value);
    Intent(args.symbol, SideOf(args.action.value), args.amount.value, kind)
  }

  /** The dispatch on action, for arguments command mode let through. */
  function Dispatch(args: Args): (c: Command)
    requires args.action.Some? && CommandReady(args)
    ensures args.action == Some(Balance) ==> c == ShowBalance
    ensures args.action == Some(Info) ==> c == ShowAccountInfo
    ensures args.action == Some(Price) ==> c == ShowPrice(args.symbol)
    ensures args.action == Some(Orders) ==> c == ShowOpenOrders(args.symbol)
    ensures args.action == Some(Cancel) ==> c == Invoke(Cancelling(args.symbol, args.orderId.value)) && args.orderId.value != 0
    ensures OrderAction(args.action.value) ==> c == Invoke(Placing(IntentFor(args)))
    ensures c != Idle
  {
    match args.action.value
    case Balance => ShowBalance
    case Info => ShowAccountInfo
    case Price => ShowPrice(args.symbol)
    case Orders => ShowOpenOrders(args.symbol)
    case Cancel => Invoke(Cancelling(args.symbol, args.orderId.value))
    case Buy => Invoke(Placing(IntentFor(args)))
    case Sell => Invoke(Placing(IntentFor(args)))
  }

  /** `main` after configuration and bot set-up: parse, run command mode,
      then either the menu or the dispatch. */
  function Run(raw: RawArgs): (r: MainOutcome)
    ensures ParseCommandArgs(raw).Err? ==> r == ArgumentError(ParseCommandArgs(raw).error)
    ensures r == MenuMode <==> ParseCommandArgs(raw).Ok? && raw.action.None?
    ensures r.UsageExit? ==> ParseCommandArgs(raw).Ok? && CommandMode(ParseCommandArgs(raw).value) == Stop(r.usage)
    ensures r.Execute? ==>
      ParseCommandArgs(raw).Ok? && CommandMode(ParseCommandArgs(raw).value).Proceed?
      && r.command == Dispatch(ParseCommandArgs(raw).value)
    ensures ParseCommandArgs(raw).Ok? && CommandMode(ParseCommandArgs(raw).value).Stop? ==>
      r == UsageExit(CommandMode(ParseCommandArgs(raw).value).usage)
    ensures ParseCommandArgs(raw).Ok? && CommandMode(ParseCommandArgs(raw).value).Proceed? ==>
      r == Execute(Dispatch(ParseCommandArgs(raw).value))
  {
    match ParseCommandArgs(raw)
    case Err(e) => ArgumentError(e)
    case Ok(args) =>
      match CommandMode(args)
      case UseMenu => MenuMode
      case Stop(u) => UsageExit(u)
      case Proceed(_) => Execute(Dispatch(args))
  }

  /** A command-line order never trips the bot's own validation: it reaches
      the client as the request the builder makes for the command's intent,
      and a stop-limit command's request carries `--stop-price` as
      `stopPrice` and `--price` as `price`. */
  lemma CommandOrdersReachClient(gw: Gateway, raw: RawArgs)
    requires Run(raw).Execute? && Run(raw).command.Invoke? && Run(raw).command.call.Placing?
    ensures var i := Run(raw).command.call.intent;
      && WellFormed(i)
      && Bot.Invoke(gw, Placing(i)).sent == Some(Submit(EndpointOf(i.kind), BuildRequest(i)))
    ensures var i := Run(raw).command.call.intent;
      i.kind.StopLimit? ==>
        BuildRequest(i).orderType == StopTag
        && BuildRequest(i).stopPrice == raw.stopPrice && BuildRequest(i).price == raw.price
  {
    var args := ParseCommandArgs(raw).value;
    var i := Run(raw).command.call.intent;
    assert i == IntentFor(args);
    Bot.InvokeFollowsReference(gw, i);
  }

  /** Every cancel, from the command line or from the menu, carries a
      non-zero order id and reaches the client as that cancel call; it
      returns `None` exactly when the client raises. */
  lemma CancelsReachClient(gw: Gateway, raw: RawArgs, symbol: string, orderId: Option<int>, confirm: string)
    ensures Run(raw).Execute? && Run(raw).command.Invoke? && Run(raw).command.call.Cancelling? ==>
      var c := Run(raw).command.call;
      && c == Cancelling(SymbolOrDefault(raw.symbol), raw.orderId.value)
      && c.orderId != 0
      && Bot.Invoke(gw, c).sent == Some(CancelCall(c.symbol, c.orderId))
      && (Bot.Invoke(gw, c).Result().None? <==> gw(CancelCall(c.symbol, c.orderId)).Threw?)
    ensures Helpers.MenuCancelOrder(symbol, orderId, confirm).Chosen? ==>
      var c := Helpers.MenuCancelOrder(symbol, orderId, confirm).call;
      && c == Cancelling(symbol, orderId.value)
      && c.orderId != 0
      && Bot.Invoke(gw, c).sent == Some(CancelCall(symbol, orderId.value))
      && (Bot.Invoke(gw, c).Result().None? <==> gw(CancelCall(symbol, orderId.value)).Threw?)
  {
  }
}
