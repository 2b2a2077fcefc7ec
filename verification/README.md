# Order pipeline of a futures trading bot, in Dafny

This project models the order-placement core of a command-line trading bot
for a futures exchange's test network. The bot comes in two versions: the
current one (`cli_app/`) and an earlier one at the top level. The model covers:

- **Validation.** Each placement method checks the side (BUY or SELL), then
  the quantity (> 0), then the prices its order type needs (> 0). The first
  failing check decides the error.
- **Request building.** A market order is sent with no price and no
  time-in-force. A limit order adds its price and GTC. A stop-limit order goes
  through the generic create-order call as type `STOP`: `price` holds the limit
  price, `stopPrice` holds the trigger, and time-in-force is GTC. The earlier
  bot's market request also carries a timestamp. Here the timestamp is a
  parameter.
- **Response handling.** A stop-limit response's `orderId` falls back to
  `algoId`, and its `status` falls back to `algoStatus`. The order-details
  printout shows `executedQty` as "N/A" when it is absent. It shows `price` and
  `avgPrice` only when they are truthy. A missing `updateTime` counts as 0.
- **Failure policy.** Every exception ends in a `None` return. This includes
  a market or limit response without `orderId`/`status`, and a printout that
  raises. In both of those cases the order was already sent.
- **The command line.** The current `command_mode` checks, the input checks
  of the menu's order options, the open-orders listing, and both entry points'
  dispatch from action and type to a bot method. The parsers' choice lists and
  defaults are modelled too.

The exchange client is a `Gateway`: a total function from the call the bot
makes (`ApiCall`) to a `Reply`. A reply is either a decoded response
(`map<string, Value>`) or a raised exception. Each placement returns a
`Placement`, which records the call made (if any) and the outcome. This makes
"nothing was submitted" something the model can state.

Modules:
- `Common`: Option and Result.
- `Values`: Python scalars and truthiness, `dict.get`, `or`, `float()`, `/ 1000`.
- `Exchange`: requests, calls, replies and the gateway.
- `Orders`: intents, validation, request building and reading a request back.
- `Responses`: the stop-limit fallback and the order-details printout.
- `Pipeline`: the steps every placement method shares.
- `Bot` and `LegacyBot`: the two versions of the bot.
- `Arguments`: the option values, choice lists and defaults.
- `Helpers`: command mode, the menu options and the open-orders listing.
- `Cli` and `LegacyCli`: the two entry points.

Behaviour of the code that a reader might not expect, as the model has it:
- A price line is shown whenever the field is truthy, not only when it is
  greater than zero. The exchange's string `"0.00"` is truthy, so it is shown.
- The stop-limit method rejects a non-positive stop price and a non-positive
  limit price with one shared error. Command mode and the menu check the stop
  price before the limit price.
- Response handling can fail after the order was sent. A missing
  `orderId`/`status` in a market or limit response ends in `None`. So does a
  printout that raises.
- Each failure is classified by the `except` branch that catches it. The
  methods' own input checks and a `float()` on a non-numeric price field
  raise `ValueError`, which is logged as a validation error. A missing key and
  a non-numeric `updateTime` fall to the catch-all branch. `cancel_order` has
  no `ValueError` branch.
- Identifiers and statuses are kept as the raw JSON values. They are not
  converted to text.
- Failures come back as `None`. No typed error is returned to the caller.

## Model

| member | source | states |
|---|---|---|
| Orders.Validate | cli_app/bot.py:209-215 | side first, then quantity, then prices: each error is returned exactly when the earlier checks pass and its own check fails |
| Orders.ValidateAcceptsWellFormed | cli_app/bot.py:150-155 | validation accepts an intent exactly when the side is BUY/SELL, the quantity is positive and every price the type needs is positive |
| Orders.BuildRequest | cli_app/bot.py:223-232 | market: no price, stop price or time-in-force; limit: price and GTC, no stop price; stop-limit: type STOP, price = limit, stopPrice = trigger, GTC |
| Orders.EndpointOf | cli_app/bot.py:163-170 | only limit orders go through the limit-order call; market and stop-limit use create-order |
| Orders.BuildRequestRoundTrip | cli_app/bot.py:107-112 | reading a built request back gives the original intent |
| Orders.IntentOfRoundTrip | cli_app/bot.py:163-170 | a request without timestamp that reads back as an intent is exactly the request built for it |
| Orders.BuildRequestInjective | cli_app/bot.py:223-232 | different intents never give the same request |
| Responses.WithAlgoFallback | cli_app/bot.py:234-235 | orderId is orderId when truthy, else algoId (None if absent); the same for status/algoStatus; both keys present afterwards; no other field changes |
| Responses.WithAlgoFallbackIdempotent | cli_app/bot.py:234-235 | applying the fallback twice equals applying it once |
| Responses.WithAlgoFallbackIdentified | cli_app/bot.py:234-235 | the resulting orderId (status) is truthy exactly when orderId or algoId (status or algoStatus) was |
| Responses.OrderDetails | cli_app/bot.py:323-336 | the printout succeeds exactly when truthy price/avgPrice convert with float() and updateTime (default 0) divides by 1000; executedQty shows N/A when absent; price and avgPrice lines appear exactly when truthy and show the field's value; missing updateTime gives 0 seconds |
| Responses.LayoutsAgree | bot.py:162-167 | the earlier printout succeeds whenever the current one does and shows the same values, minus the average price |
| Responses.AlgoOnlyResponseDetails | cli_app/bot.py:234-246 | a stop-limit response with falsy orderId/status prints algoId and algoStatus as identifier and status |
| Pipeline.FromRaised | cli_app/bot.py:123-133 | A client exception is classified as an API error exactly when it is the exchange's own error, as a validation error exactly when it is a ValueError, and as an unexpected error in every other case, and it is never classified as an input-check rejection. |
| Pipeline.FromRaisedOnCancel | cli_app/bot.py:304-310 | on cancel, only the exchange's own error is an API error; a ValueError and every other exception go to the catch-all branch |
| Pipeline.PrintFailure | cli_app/bot.py:331-336 | printing fails exactly when the details cannot be built; a non-numeric truthy price is a ValueError reported before avgPrice, and a non-numeric updateTime falls to the catch-all branch |
| Pipeline.Settle | cli_app/bot.py:115-133 | after the call, the dict is returned exactly when the client answered and orderId, status and the printout all work; a missing orderId, then a missing status, then a print failure decides the failure; no such failure is ever an input-check rejection |
| Pipeline.Place | cli_app/bot.py:95-133 | the client is called exactly for well-formed intents; a rejected intent fails with validation's error and sends nothing |
| Bot.PlaceMarketOrder | cli_app/bot.py:83-133 | invalid side or non-positive quantity: None and nothing sent; otherwise create-order with MARKET and no price; the unchanged response is returned exactly when it settles |
| Bot.PlaceLimitOrder | cli_app/bot.py:135-189 | side, quantity, price checked in that order with nothing sent on failure; otherwise the limit-order call with price and GTC; the unchanged response is returned exactly when it settles |
| Bot.PlaceStopLimitOrder | cli_app/bot.py:191-260 | rejected when either price is non-positive; otherwise create-order with STOP, price = limit, stopPrice = trigger, GTC; returns the response with the algoId/algoStatus fallback |
| Bot.CancelOrder | cli_app/bot.py:285-310 | always sends the cancel call; returns the client's answer, or None when it raises, with the exception classified by cancel's own branches |
| Bot.InvokeFollowsReference | cli_app/bot.py:207-232 | every placement method sends exactly the built request for well-formed intents and otherwise fails with validation's error |
| Bot.PlacedOrderReportedAsFailure | cli_app/bot.py:107-133 | For a valid market or limit order whose response has no orderId key or no status key, the method sends the built request, returns None, and records a missing-key failure from the catch-all branch. |
| Bot.StopLimitResultIdentified | cli_app/bot.py:234-248 | a returned stop-limit dict always carries orderId and status, resolved as `orderId or algoId` and `status or algoStatus` |
| Bot.StopLimitAlgoOnlyScenario | cli_app/bot.py:223-248 | a response with only algoId 5 and algoStatus NEW returns orderId 5 and status NEW |
| Bot.MarketTransportFailureScenario | cli_app/bot.py:107-133 | a transport exception after sending gives None |
| LegacyBot.PlaceMarketOrder | bot.py:48-87 | side then quantity checks with nothing sent on failure; create-order with MARKET, no price or time-in-force, plus the timestamp |
| LegacyBot.PlaceLimitOrder | bot.py:102-143 | side, quantity, price checks in order; the limit-order call with price and GTC; None on any exception |
| LegacyBot.AgreesWithCurrentBot | bot.py:145-167 | both bots send under the same conditions, with requests that differ only in the market timestamp; whenever the current bot returns a dict for a limit order, the earlier bot returns the same dict |
| LegacyBot.LimitResultsDifferOnlyByAvgPrice | bot.py:156-167 | when the earlier bot returns a dict for a limit order, the current bot returns the same dict exactly when the response's avgPrice line prints |
| Arguments.ParseCommandArgs | cli_app/helpers.py:303-347 | accepted exactly when the action (if given) and the type (if given) are among the choices; the action and type read as named, type default market, symbol default BTCUSDT; other values passed through; a bad action is reported as a bad --action choice |
| Arguments.ParseLegacyArgs | cli.py:93-131 | a missing action, then a bad or info action, then a --stop-price, then a type other than market/limit is an error; every other argument set is accepted, with action and type read as named, type default market and no stop price |
| Arguments.LegacyParseWithinCommandParse | cli.py:93-131 | every argument set the earlier parser accepts is accepted by the current one with the same result |
| Arguments.SymbolOrDefault | cli_app/helpers.py:310-314 | the symbol is BTCUSDT when the option is absent |
| Arguments.SideOf | cli_app/cli.py:61-62 | the side is the upper-cased action, BUY for buy, and always a valid side |
| Helpers.CommandMode | cli_app/helpers.py:349-374 | no action selects the menu; amount first, then the limit price, then the stop-limit stop price and then price; cancel needs a non-zero order id; each error exactly when the earlier checks pass |
| Helpers.CommandModeAcceptsReady | cli_app/helpers.py:352-372 | every argument set command mode lets through has an action, a positive amount for buy/sell, a positive price for limit, positive stop and limit prices for stop-limit, and a non-zero order id for cancel |
| Helpers.MenuMarketOrder | cli_app/helpers.py:141-162 | a market order is placed exactly when symbol, side and quantity pass and the answer is "yes"; an empty symbol goes back silently; an invalid side is reported before the quantity; any other answer declines |
| Helpers.MenuLimitOrder | cli_app/helpers.py:164-190 | a limit order is placed exactly when side, quantity and price pass and the answer is "yes", with failures reported in that order; an empty symbol goes back silently; any other answer declines |
| Helpers.MenuStopLimitOrder | cli_app/helpers.py:192-223 | the stop price is checked before the limit price; the order is placed with trigger and limit in that order only after "yes"; an empty symbol goes back silently; any other answer declines |
| Helpers.MenuCancelOrder | cli_app/helpers.py:232-247 | an empty symbol or a zero/missing id goes back silently; the cancel call is made only after "yes"; any other answer declines |
| Helpers.MenuPlacementsAreWellFormed | cli_app/helpers.py:148-221 | every order the menu places passes the bot's own validation |
| Helpers.RowOf | cli_app/helpers.py:51-59 | a row exists exactly when the indexed fields are present; a missing price shows as MARKET, a present one as given |
| Helpers.DisplayOpenOrders | cli_app/helpers.py:35-61 | None gives the failure message, an empty list gives "No open orders", otherwise one row per order, or an exception at the first order missing a field |
| Cli.IntentFor | cli_app/cli.py:61-71 | buy/sell commands become well-formed intents; stop-limit passes --stop-price as trigger and --price as limit |
| Cli.Dispatch | cli_app/cli.py:45-71 | each action goes to its display helper or bot method; market, limit and stop-limit go to the matching placement |
| Cli.Run | cli_app/cli.py:33-44 | a parser error is reported as such; menu mode exactly when parsing succeeds with no action; a failed command-mode check exits with its message; otherwise the parsed arguments are dispatched |
| Cli.CommandOrdersReachClient | cli_app/cli.py:64-71 | a command-line order always passes bot validation and sends the built request; a stop-limit request carries --stop-price as stopPrice and --price as price |
| Cli.CancelsReachClient | cli_app/cli.py:58-59 | a cancel from the command line or the menu carries the given symbol and a non-zero id, is sent to the client as that cancel call, and returns None exactly when the client raises |
| LegacyCli.Check | cli.py:140-152 | amount first, then the limit price, then a non-zero cancel id, each exactly when its check fails |
| LegacyCli.CheckAgreesWithCommandMode | cli.py:141-152 | on market/limit arguments the earlier checks and the current command mode give the same decision and message |
| LegacyCli.Dispatch | cli.py:166-187 | balance, price, orders and cancel go to their helper or the cancel call; buy/sell with market or limit go to the matching placement with side = upper-cased action; info and a stop-limit type do nothing |
| LegacyCli.Run | cli.py:131-187 | never the menu; a parser error is reported as such; a failed check exits with its message; otherwise the parsed arguments are dispatched, never to a branch that does nothing |
| LegacyCli.RunAgreesWithCli | cli.py:131-187 | on every argument set the earlier parser accepts, the earlier entry point ends exactly as the current one does |

## Left out

- The exchange client's calls are not modelled. This covers order creation,
  the limit-order call, cancellation, and the account, balance, price and
  open-orders queries. The `Gateway` parameter stands for all of them. The
  model does not say whether the client library has a given method.
- The read-only queries (`get_account_info`, `get_balance`,
  `get_current_price`, `get_open_orders`) and their displays
  (`display_balance`, `display_price`, `display_account_info`) are left out.
  They pass data through without decisions. Only their choice as a command is
  modelled.
- Credential loading, configuration checks and client construction are left
  out. These are environment I/O and happen before any order logic.
- Logging setup and every log line are left out.
- Reading `sys.argv` is left out. `RawArgs` holds the options already typed.
  When several parser errors apply at once, the model reports a fixed one,
  which may not be the one the parser reports.
- The menu loop, `input()`, `.upper()`/`.lower()` on answers, the symbol
  prompt of options 3 and 7, option 9, `sys.exit` and keyboard interrupts are
  left out. The menu functions take the answers already upper-/lower-cased.
- Floating point is left out. Quantities and prices are exact reals, so NaN,
  infinities and rounding do not exist in the model. In Python a NaN amount
  passes every check.
- Values.FloatText: accepts sign, digits, one point and an exponent. Python's
  `float()` also accepts surrounding whitespace, underscores, `inf` and `nan`,
  which the model treats as non-numeric.
- Date rendering by `datetime.fromtimestamp` and its out-of-range errors are
  left out. The printout stops at `updateTime / 1000`.
- Python's `TypeError` on a non-numeric quantity or price passed to a bot
  method is left out. Every caller passes a checked number.
- Response fields holding lists or objects are left out. Responses are maps
  of scalars.
- The stop-limit method's raw `print` of the response is left out. It has no
  effect on the result.
- `cli.py` imports a module named `bot`. The earlier `bot.py` defines no
  `cancel_order`, `get_balance`, `get_current_price` or `get_open_orders`,
  all of which `cli.py` calls (cli.py:11, 30, 39, 178). The model dispatches the earlier entry
  point only as far as the command it chooses, not into a particular bot
  class.
