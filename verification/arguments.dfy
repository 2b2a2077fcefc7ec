/**
 The command line's vocabulary after parsing: the option values, the choice
 lists and defaults each parser declares, and what a run can end in. The
 tokenising of `sys.argv` is not modelled; a `RawArgs` holds each option as
 given (`None` when absent), already converted to its declared type.
 */
module Arguments {
  import opened Common
  import opened Orders

  datatype Action = Buy | Sell | Balance | Orders | Cancel | Price | Info

  datatype OrderType = MarketType | LimitType | StopLimitType

  const DefaultSymbol := "BTCUSDT"

  datatype RawArgs = RawArgs(
    action: Option<string>,
    symbol: Option<string>,
    amount: Option<real>,
    orderType: Option<string>,
    price: Option<real>,
    stopPrice: Option<real>,
    orderId: Option<int>)

  /** The parsed namespace, with defaults filled in. */
  datatype Args = Args(
    action: Option<Action>,
    symbol: string,
    amount: Option<real>,
    orderType: OrderType,
    price: Option<real>,
    stopPrice: Option<real>,
    orderId: Option<int>)

  /** Errors the parser itself reports (it then exits). */
  datatype ArgError = MissingAction | BadChoice(option: string, given: string) | UnrecognizedOption(option: string)

  /** The post-parse checks' error messages. */
  datatype Usage = AmountRequired | LimitPriceRequired | StopPriceRequired | StopLimitPriceRequired | OrderIdRequired

  /** What a run of a command-line entry point goes on to do. */
  datatype Command =
    | ShowBalance
    | ShowAccountInfo
    | ShowPrice(symbol: string)
    | ShowOpenOrders(symbol: string)
    | Invoke(call: BotCall)
    | Idle                    // no branch of the dispatch matched

  datatype MainOutcome = ArgumentError(error: ArgError) | UsageExit(usage: Usage) | MenuMode | Execute(command: Command)

  function ActionNamed(s: string): (a: Option<Action>)
    ensures a == Some(Buy) <==> s == "buy"
    ensures a == Some(Sell) <==> s == "sell"
  {
    match s
    case "buy" => Some(Buy)
    case "sell" => Some(Sell)
    case "balance" => Some(Balance)
    case "orders" => Some(Orders)
    case "cancel" => Some(Cancel)
    case "price" => Some(Price)
    case "info" => Some(Info)
    case _ => None
  }

  function TypeNamed(s: string): Option<OrderType> {
    match s
    case "market" => Some(MarketType)
    case "limit" => Some(LimitType)
    case "stop-limit" => Some(StopLimitType)
    case _ => None
  }

  /** `--symbol`, defaulting to BTCUSDT when absent. */
  function SymbolOrDefault(given: Option<string>): (s: string)
    ensures given.None? ==> s == DefaultSymbol
    ensures given.Some? ==> s == given.value
  {
    if given.Some? then given.value else DefaultSymbol
  }

  /** `--type` against a parser's choices, defaulting to market when absent. */
  function ChooseType(given: Option<string>, choices: set<OrderType>): Result<OrderType, ArgError> {
    if given.None? then Ok(MarketType)
    else match TypeNamed(given.value)
      case Some(t) => if t in choices then Ok(t) else Err(BadChoice("--type", given.value))
      case None => Err(BadChoice("--type", given.value))
  }

  /** The current parser: `--action` is optional and includes `info`;
      `--type` offers market, limit and stop-limit. */
  function ParseCommandArgs(raw: RawArgs): (r: Result<Args, ArgError>)
    ensures r.Ok? ==> (r.value.action.None? <==> raw.action.None?)
    ensures r.Ok? ==> r.value.symbol == SymbolOrDefault(raw.symbol)
    ensures r.Ok? && raw.orderType.None? ==> r.value.orderType == MarketType
    ensures r.Ok? ==>
      r.value.amount == raw.amount && r.value.price == raw.price
      && r.value.stopPrice == raw.stopPrice && r.value.orderId == raw.orderId
    ensures r.Ok? && raw.action.Some? ==> r.value.action == ActionNamed(raw.action.value)
    ensures r.Ok? && raw.orderType.Some? ==> Some(r.value.orderType) == TypeNamed(raw.orderType.value)
    ensures raw.orderType.Some? && TypeNamed(raw.orderType.value).None? ==> r.Err?
    ensures raw.action.Some? && ActionNamed(raw.action.value).None? ==>
      r == Err(BadChoice("--action", raw.action.value))
    ensures raw.action.None? || ActionNamed(raw.action.value).Some? ==>
      raw.orderType.None? || TypeNamed(raw.orderType.value).Some? ==>
        r.Ok?
  {
    if raw.action.Some? && ActionNamed(raw.action.value).None? then
      Err(BadChoice("--action", raw.action.value))
    else match ChooseType(raw.orderType, {MarketType, LimitType, StopLimitType})
      case Err(e) => Err(e)
      case Ok(t) =>
        var action := if raw.action.Some? then ActionNamed(raw.action.value) else None;
        Ok(Args(action, SymbolOrDefault(raw.symbol), raw.amount, t, raw.price, raw.stopPrice, raw.orderId))
  }

  /** `--action` is given and is one of the earlier parser's choices. */
  predicate LegacyActionGiven(raw: RawArgs) {
    raw.action.Some? && ActionNamed(raw.action.value).Some? && raw.action.value != "info"
  }

  /** The earlier parser: `--action` is required and has no `info`;
      `--type` offers only market and limit; there is no `--stop-price`. */
  function ParseLegacyArgs(raw: RawArgs): (r: Result<Args, ArgError>)
    ensures r.Ok? ==> r.value.orderType != StopLimitType
    ensures r.Ok? ==> r.value.action.Some? && r.value.action != Some(Info)
    ensures r.Ok? ==> r.value.symbol == SymbolOrDefault(raw.symbol) && r.value.stopPrice.None?
    ensures r.Ok? && raw.orderType.None? ==> r.value.orderType == MarketType
    ensures r.Ok? ==> r.value.amount == raw.amount && r.value.price == raw.price && r.value.orderId == raw.orderId
    ensures r.Ok? ==> raw.action.Some? && r.value.action == ActionNamed(raw.action.value)
    ensures r.Ok? && raw.orderType.Some? ==> Some(r.value.orderType) == TypeNamed(raw.orderType.value)
    ensures raw.action.None? ==> r == Err(MissingAction)
    ensures raw.action.Some? && (ActionNamed(raw.action.value).None? || raw.action.value == "info") ==>
      r == Err(BadChoice("--action", raw.action.value))
    ensures LegacyActionGiven(raw) && raw.stopPrice.Some? ==> r == Err(UnrecognizedOption("--stop-price"))
    ensures raw.stopPrice.Some? ==> r.Err?
    ensures LegacyActionGiven(raw) && raw.stopPrice.None? && raw.orderType in {None, Some("market"), Some("limit")} ==> r.Ok?
  {
    if raw.action.None? then Err(MissingAction)
    else if ActionNamed(raw.action.value).None? || raw.action.value == "info" then
      Err(BadChoice("--action", raw.action.value))
    else if raw.stopPrice.Some? then Err(UnrecognizedOption("--stop-price"))
    else match ChooseType(raw.orderType, {MarketType, LimitType})
      case Err(e) => Err(e)
      case Ok(t) =>
        Ok(Args(ActionNamed(raw.action.value), SymbolOrDefault(raw.symbol), raw.amount, t, raw.price, None, raw.orderId))
  }

  /** The earlier parser accepts a subset of what the current one accepts,
      and reads it the same way. */
  lemma LegacyParseWithinCommandParse(raw: RawArgs)
    requires ParseLegacyArgs(raw).Ok?
    ensures ParseCommandArgs(raw) == ParseLegacyArgs(raw)
  {
  }

  predicate OrderAction(a: Action) {
    a == Buy || a == Sell
  }

  /** `action.upper()` for the two order actions. */
  function SideOf(a: Action): (side: string)
    requires OrderAction(a)
    ensures ValidSide(side)
    ensures a == Buy <==> side == "BUY"
  {
    if a == Buy then "BUY" else "SELL"
  }

  /** `not x or x <= 0` for an optional numeric option. */
  predicate MissingOrNonPositive(x: Option<real>) {
    x.None? || x.value == 0.0 || x.value <= 0.0
  }

  /** `not x` for an optional integer option: absent or zero. */
  predicate Falsy(x: Option<int>) {
    x.None? || x.value == 0
  }
}
