# Binance MCP server — a Dafny model of the tool core

The Binance MCP server exposes Binance spot and futures trading, account
queries, market data and a few analysis calculators as Model Context Protocol
tools. One call names a tool and passes a JSON object of arguments. The server
checks that an exchange client exists, routes the name to one of five handler
domains (account, spot, futures, market, advanced), and turns the handler's
`{ success, data | error }` envelope into the text of one response.

This project models that core as pure Dafny functions:

- `Values` and `Envelope`: JavaScript argument values, truthiness, template
  rendering, thrown exceptions and the result envelope.
- `Text`, `Numeric` and `Formatting`: the string and number behaviour the
  output depends on. This covers `toUpperCase` on ASCII, `includes`,
  `replace`, `join` and `toFixed`. It also covers IEEE-754 division by zero
  and the number display of `ResultFormatter`.
- `Validation`: `ParameterValidator`. This is the seven per-kind checks, the
  rule-driven `validateParameters`, and the rendering of its errors and
  warnings.
- `Formatter`: the decision logic and reports of `ResultFormatter`. This is
  the lookups, the risk bands, the advice, and the balances, positions and
  spot-order reports.
- `Gateway` and `Bulk`: the exchange as a record of answers, the trace of the
  calls made, and the cancel-all and close-position folds.
- `Spot`, `Futures`, `Account` and `Advanced`: the four tool handlers.
- `Server`: the client check, the name router, the market handler's case
  list, and the call handler.

The exchange is a parameter (`Gateway.Exchange`). Each of its methods returns
a value or raises. Every operation returns the result together with the list
of exchange calls it made, in order, so contracts can state which calls happen.
The clock is a parameter (`Clock`). So are `JSON.stringify` and JavaScript's
string-to-number conversion.

## Model

| member | source | states |
|---|---|---|
| Values.Get | src/utils/validation.ts:302-303 | Reading a property gives its value, and `undefined` when it is missing. |
| Values.Or | src/tools/futures.ts:892-903 | `a \|\| b` keeps a truthy first operand and otherwise yields the fallback. |
| Values.ToNumber | build/tools/advanced.js:651-653 | Arithmetic reads a number as itself and `undefined` as NaN. |
| Envelope.MessageOr | src/tools/spot.ts:898-903 | An `Error` contributes its message; any other thrown value gives the fallback text. |
| Envelope.Caught | src/tools/spot.ts:898-903 | A caught exception always becomes a failure envelope carrying that message. |
| Text.ToUpper | src/utils/validation.ts:40 | Upper-casing keeps the length and upper-cases each ASCII letter in place. |
| Text.ToUpperChanges | src/utils/validation.ts:52-56 | Upper-casing changes a string exactly when it holds a lower-case letter; this is the condition of the upper-case warning. |
| Text.ToUpperIdempotent | src/utils/validation.ts:54 | Upper-casing an upper-cased symbol changes nothing. |
| Text.ContainsOccurs | src/index.ts:142-170 | The recursive `includes` test agrees with "some slice of the name equals the keyword". |
| Text.IndexFrom | src/utils/formatter.ts:71 | The index found is an occurrence, and no earlier index is one; no index means no occurrence at all. |
| Text.ReplaceFirst | src/utils/formatter.ts:236 | `replace` with a string pattern leaves a string without the pattern alone, and otherwise substitutes only the first occurrence. |
| Text.JoinSnoc | src/utils/validation.ts:346 | Joining one more error line appends the separator and that line. |
| Text.NatToString | src/utils/formatter.ts:156 | A count renders as a non-empty decimal numeral without a leading zero. |
| Text.ParseNatToString | src/utils/formatter.ts:156 | Reading back a rendered count gives the count. |
| Text.PadZeros | src/utils/formatter.ts:53 | Zero padding reaches the width, keeps the digits as the suffix and keeps only digits. |
| Text.ParsePadZeros | src/utils/formatter.ts:53 | Leading zeros do not change the value of the digits. |
| Numeric.Div | src/utils/formatter.ts:330 | Division by a non-zero number is exact; division by zero gives +∞, −∞ or NaN by the numerator's sign. |
| Numeric.Add | build/tools/advanced.js:687-689 | Finite operands add exactly. |
| Numeric.Sub | build/tools/advanced.js:651 | Finite operands subtract exactly. |
| Numeric.Mul | build/tools/advanced.js:663-664 | Finite operands multiply exactly, and a finite factor scales like `Times`. |
| Numeric.Quot | build/tools/advanced.js:652 | Division of finite numbers behaves as `Div`. |
| Numeric.Floor | build/tools/advanced.js:653 | `Math.floor` of a finite number is a whole number, at most the number and more than the number minus one, so it is the greatest whole number not above it. Infinities and NaN pass through unchanged. |
| Numeric.Max | build/tools/advanced.js:663 | `Math.max` of finite numbers is the larger of the two. |
| Numeric.AbsReal | src/utils/formatter.ts:216 | The absolute value is non-negative and is the number or its negation. |
| Numeric.NaNComparesFalse | src/utils/formatter.ts:331-334 | NaN fails `>`, `<` and `>=`, so a chain of bands falls to its last branch. |
| Numeric.Round | src/utils/formatter.ts:53 | Rounding half up gives the integer within half a unit of the value. |
| Numeric.HalfUnit | src/utils/formatter.ts:53 | The rounded value scaled back lies within half a unit in the last place of the input. |
| Numeric.ToFixedDenotes | src/utils/formatter.ts:53 | `toFixed(d)` text reads as a sign for negatives, digits, '.', and d digits whose value is within half a unit of the number. |
| Numeric.ToFixedParts | src/utils/formatter.ts:53 | `toFixed(d)` text splits into integer digits and exactly d fraction digits, whose value is the rounded number. |
| Numeric.ToFixedFirstChar | src/utils/formatter.ts:52-53 | `toFixed` text starts with '-' for a negative number and with a digit otherwise. |
| Numeric.DropTrailingZeros | src/utils/formatter.ts:18 | Dropping zeros yields a prefix that does not end in '0', and only zeros were dropped. |
| Numeric.StripZeros | src/utils/formatter.ts:18 | Removing `/\.?0+$/` yields a prefix of the text. Something is removed only when the text ends in '0'; what is removed is zeros, possibly led by one '.'. |
| Formatting.RemoveCommas | src/utils/formatter.ts:21-25 | Removing the separators leaves no comma. |
| Formatting.GroupRoundTrip | src/utils/formatter.ts:21-25 | Removing the en-US grouping commas gives back the digits. |
| Formatting.FormatNumber | src/utils/formatter.ts:10-30 | Zero renders as "0". |
| Formatting.FormatNumberExt | src/utils/formatter.ts:12-14 | NaN and zero both render as "0". |
| Formatting.FormatPrice | src/utils/formatter.ts:35-38 | A price has two decimals, and " USDT" is added exactly when the symbol mentions USDT. |
| Formatting.FormatQuantity | src/utils/formatter.ts:43-46 | A quantity has eight decimals, and the asset name is added exactly when one is given. |
| Formatting.FormatPercentageSign | src/utils/formatter.ts:51-54 | A percentage starts with '+' exactly when the value is at least zero (never for NaN), and always ends with '%'. |
| Formatting.FormatPercentageDenotes | src/utils/formatter.ts:51-54 | Past the sign, a finite percentage reads as the value rounded to two decimals. |
| Formatter.OrderStatusVerbatim | src/utils/formatter.ts:275-286 | Exactly the seven exchange status codes have a label; any other code is shown verbatim. |
| Formatter.CurrencyEmojiFallback | src/utils/formatter.ts:291-305 | The generic coin emoji is shown exactly for assets without an emoji of their own. |
| Formatter.CurrencyNameFallback | src/utils/formatter.ts:310-324 | An asset is shown by its code exactly when it has no Chinese name; the name and emoji tables know the same ten assets. |
| Formatter.PortfolioBandBounds | src/utils/formatter.ts:329-335 | With a non-zero notional the risk bands are above 5 %, above −5 %, above −15 %, and the rest. |
| Formatter.PortfolioBandZeroNotional | src/utils/formatter.ts:329-335 | With zero notional a profit reads as low risk, and a loss or zero result reads as extreme risk. |
| Formatter.PositionRiskBounds | src/utils/formatter.ts:340-346 | The liquidation band depends only on the distance (above 20, 10, 5 %), never on the direction. |
| Formatter.AnyLocked | src/utils/formatter.ts:182 | The locked-funds test holds exactly when some balance has a positive locked amount. |
| Formatter.SummarizeBalances | src/utils/formatter.ts:139-189 | An empty list is an empty account. Otherwise the first ten balances are detailed and the rest counted. The mix is diversified exactly above three assets. The locked wording appears exactly when some balance is locked. |
| Formatter.FormatSpotBalancesEmpty | src/utils/formatter.ts:140-151 | The fixed empty-account text is produced exactly for an empty list. |
| Formatter.ActivePositions | src/utils/formatter.ts:195 | The active positions are the given ones with a non-zero amount, in their order, each kept once: the result is the list filtered by that test. |
| Formatter.FlatWithoutActive | src/utils/formatter.ts:195-197 | No position is active exactly when every amount is zero. |
| Formatter.ExposureSplit | src/utils/formatter.ts:263-264 | Over active positions, the long and short exposures add up to the total notional. |
| Formatter.LongCountBound | src/utils/formatter.ts:218-219 | The long count is at most the number of positions, and equals it exactly when all are long. |
| Formatter.NearCount | src/utils/formatter.ts:355-360 | Some position counts as high risk exactly when one is within 10 % of liquidation. |
| Formatter.PositionAdvice | src/utils/formatter.ts:351-366 | Take-profit advice is given exactly for a positive total; reduce-risk advice exactly for a non-positive total with some position near liquidation. |
| Formatter.SummarizePositions | src/utils/formatter.ts:194-270 | The book is flat exactly when every amount is zero. Otherwise only active positions count and at most five are detailed. The net direction compares longs with the rest. The total pnl and notional are the sums over the active positions. The long and short exposures are the sums over the longs and shorts, and they split the total notional. The risk band and advice follow those totals. |
| Formatter.HoldingOf | src/utils/formatter.ts:210-267 | The report figures for a non-empty active book satisfy the same facts as `SummarizePositions`: the total pnl and notional are the sums over the active positions, and the long and short exposures are the sums over the longs and shorts. |
| Formatter.FormatFuturesPositionsFlat | src/utils/formatter.ts:197-208 | The fixed flat-book text is produced exactly when no position has a non-zero amount. |
| Formatter.BaseCurrencyAsWrittenLosesBitcoin | src/utils/formatter.ts:71 | The chained replacements turn "BTCUSDT" into the empty base currency. |
| Formatter.BaseCurrencyOfPair | src/utils/formatter.ts:71 | The corrected base currency of a pair quoted in USDT, BUSD or BTC is exactly its base asset. |
| Formatter.SpotOrderLinesShow | src/utils/formatter.ts:73-95 | For any base currency the confirmation has the template's 23 lines. Its price line quotes the limit price only for LIMIT orders. Its quantity line names that base currency. Its status line uses the status label. |
| Formatter.SpotOrderBitcoinAsWritten | src/utils/formatter.ts:71-82 | As written, a BTCUSDT confirmation states its quantity as a bare number with no asset. |
| Formatter.SpotOrderBitcoinFixed | src/utils/formatter.ts:71-82 | With the corrected base currency the BTCUSDT quantity line ends in " BTC". |
| Validation.IsSymbolMatchesPattern | src/utils/validation.ts:39-40 | The direct symbol test accepts exactly the pattern's language: 2–10 capitals, then USD, USDT, BTC, ETH or BNB. |
| Validation.ValidateSymbol | src/utils/validation.ts:22-57 | A symbol is accepted exactly when it is absent and optional, or a string whose upper-case form fits the pattern. A truthy non-string throws. An accepted symbol is upper-cased, and the warning appears exactly when that changed it. Each rejection carries its fixed error and hints. |
| Validation.ValidatePrice | src/utils/validation.ts:62-99 | A price is accepted exactly when it is absent and optional, or a number in (0, 10 000 000]. A too-high price is rejected with a warning and no hints. A non-positive or non-numeric price is rejected with the positive-price hints. |
| Validation.ValidateQuantity | src/utils/validation.ts:104-144 | A quantity is accepted exactly when it is absent and optional, or a number of at least 0.000001. A positive quantity below that is rejected as too small. |
| Validation.ValidateLeverage | src/utils/validation.ts:149-182 | An absent leverage means 1x with a warning. Leverage is accepted exactly in [1, 125], with the high warning above 20, the medium warning in (10, 20], and none otherwise. |
| Validation.ValidateOrderType | src/utils/validation.ts:187-219 | An absent type means MARKET. A present type is accepted exactly when its upper-case form is one of the six listed types, and the result is always a listed type. A truthy non-string throws. |
| Validation.ValidateSide | src/utils/validation.ts:224-261 | A side is accepted exactly when it is absent and optional, or a string whose upper-case form is BUY or SELL. A truthy non-string throws. |
| Validation.ValidateInterval | src/utils/validation.ts:266-291 | An absent interval means 1h. A present one is accepted exactly when it is one of the fifteen intervals, matched case-sensitively. |
| Validation.ValidateField | src/utils/validation.ts:305-329 | A rule without a known type passes the value through unchanged. A missing field never throws, and it is accepted exactly when its rule is optional or its kind supplies a default (leverage, order type, interval, or no kind); a missing `required` counts as required. |
| Validation.ValidateParameters | src/utils/validation.ts:344-357 | A failing result never carries warnings. |
| Validation.CollectHalts | src/utils/validation.ts:301-329 | The loop stops exactly when some validator throws, and it stops with the first such field's message. |
| Validation.CollectTally | src/utils/validation.ts:331-341 | Without a throw, the loop gathers every field's error line, suggestions and warnings in rule order. |
| Validation.CollectData | src/utils/validation.ts:331-336 | Without a throw, the loop records exactly the valid fields' data under their keys. |
| Validation.ValidateParametersValid | src/utils/validation.ts:296-358 | Validation succeeds exactly when every field passes. It then returns each field's data under its key and the fields' warnings. |
| Validation.ValidateParametersInvalid | src/utils/validation.ts:344-350 | Validation fails without throwing exactly when no field throws and some field fails. The error is the `key: error` lines joined by newlines. The suggestions are the failing fields' suggestions. |
| Validation.ValidateParametersCrashed | src/utils/validation.ts:301-329 | A throwing validator aborts validation with the first such field's message. |
| Validation.ErrorLinesEmpty | src/utils/validation.ts:331-333 | There is no error line exactly when no field fails. |
| Validation.ErrorLinesReportEachKey | src/utils/validation.ts:332 | Every failing field is reported as `key: error`. |
| Validation.BulletsShowEach | src/utils/validation.ts:368-370 | Every suggestion appears as its own bullet line. |
| Validation.FormatValidationError | src/utils/validation.ts:363-374 | The rendered error starts with the validation-failure heading and the error text; without suggestions it is exactly those two; an outcome without an error renders as "undefined". |
| Validation.FormatValidationErrorShows | src/utils/validation.ts:363-374 | The rendered error carries the error text, the suggestion heading, and a bullet line for each suggestion. |
| Validation.FormatValidationErrorSnoc | src/utils/validation.ts:363-374 | The suggestions are rendered in order: the first follows the suggestion heading, and each further one appends its own bullet line at the end. |
| Validation.FormatValidationWarnings | src/utils/validation.ts:379-388 | The warning block is empty exactly when there are no warnings; otherwise it starts with the reminder heading. |
| Validation.FormatValidationWarningsSnoc | src/utils/validation.ts:382-385 | The block is built in warning order: one warning gives the heading and its bullet line, and each further warning appends its own `• warning` line at the end. |
| Validation.FormatValidationWarningsShows | src/utils/validation.ts:382-385 | Every warning appears in the block as its own bullet line. |
| Bulk.Count | src/tools/spot.ts:889-890 | A filtered length is at most the length of the list. |
| Bulk.CancelOutcomeOf | src/tools/spot.ts:868-882 | An order counts as cancelled exactly when its cancel returned, and then carries the returned id. A failure keeps the open order's id and the error message, or the fixed fallback. |
| Bulk.CancelResults | src/tools/spot.ts:867-883 | There is one result per open order, in order; the i-th result is the outcome of the i-th cancel, and a failure does not stop the loop. |
| Bulk.CancelAllCounts | src/tools/spot.ts:885-893 | Every open order is accounted for once: cancelled plus failed is the order count, and cancelled is the number of cancels that returned. |
| Bulk.ToClose | src/tools/futures.ts:1088-1096 | The positions acted on are the fetched ones, in their order and each once, that have a non-zero amount and, unless BOTH or nothing is asked, the requested side. |
| Bulk.ToCloseSelects | src/tools/futures.ts:1089-1096 | A position acted on has a non-zero amount and the requested side, and its close order has a positive quantity. |
| Bulk.CloseOrder | src/tools/futures.ts:1091-1106 | The close order is a reduce-only market order for the absolute amount; it sells a long and buys back a short on the position's own side. |
| Bulk.CloseOutcomeOf | src/tools/futures.ts:1108-1123 | A position counts as closed exactly when its order returned, and then carries the order id and the closed amount. |
| Bulk.CloseResults | src/tools/futures.ts:1088-1125 | There is one result per position acted on, in order, each the outcome of its own close order. |
| Bulk.ClosePositionsCounts | src/tools/futures.ts:1127-1135 | The total counts every fetched position, skipped ones included. Closed plus failed is the number attempted, at most the total. Closed is the number of orders that returned. |
| Spot.PlaceOrderRules | src/tools/spot.ts:718-724 | The five rules have distinct keys, so each field's result lands under its own key. |
| Spot.OrderRequest | src/tools/spot.ts:737-745 | The order sends the validated symbol, side, type, quantity and price, `timeInForce` defaulting to GTC, and `stopPrice` as given. |
| Spot.WithWarnings | src/tools/spot.ts:760-763 | The confirmation is shown unchanged without warnings, and below the warning block and a blank line otherwise. |
| Spot.PlaceOrder | src/tools/spot.ts:716-775 | A rejected or crashing validation fails without any exchange call; a rejection carries the rendered validation error. A valid request makes exactly one order call, with the validated fields; a raised call fails with the prefixed message and remedies, and a returned order answers with the warnings block, when there is one, above the confirmation. |
| Spot.PriceRequiredUnlessMarket | src/tools/spot.ts:723 | Without a price argument, the price field fails exactly when the raw type is not exactly "MARKET"; a lower-case "market" still needs a price. |
| Spot.UnlistedTypeRefused | src/tools/spot.ts:726-731 | An order type the validator does not list is refused before any exchange call. |
| Spot.PlaceOrderWarningsFirst | src/tools/spot.ts:760-768 | An accepted order with warnings answers with text that starts with the warning heading. |
| Spot.PlaceOrderCallFails | src/tools/spot.ts:769-774 | A failing order call is reported with the fixed prefix and the fixed remedies. |
| Spot.WarningsFirst | src/tools/spot.ts:760-764 | Under a non-empty warnings block any text starts with the warning heading. |
| Spot.PlaceOrderShowsWarnings | src/tools/spot.ts:760-768 | Each validation warning of an accepted order, such as the upper-casing note, reaches the answer as its own bullet line. |
| Spot.WarningsShown | src/tools/spot.ts:760-764 | Each warning's bullet line survives the text put under the block. |
| Spot.HandleRejectedOrder | src/tools/spot.ts:726-731 | The spot handler answers a rejected order with the validator's text and no exchange call. |
| Spot.CancelAll | src/tools/spot.ts:863-893 | The open orders are listed first. If listing fails, that is the only call. Otherwise exactly one cancel call follows per listed order, in order, and the data is the cancel report built from the gateway's answers to those calls. |
| Spot.CancelCalls | src/tools/spot.ts:867-869 | There is one cancel call per order, in order, each for that order's id. |
| Spot.CancelAttempts | src/tools/spot.ts:867-869 | The i-th attempt is the gateway's answer to cancelling the i-th open order. |
| Spot.CancelAllReported | src/tools/spot.ts:863-893 | Once the open orders are listed, the tool's data is the cancel report. That report counts every open order once, as cancelled or failed, and its cancelled count is the number of cancel calls that returned. |
| Spot.Handle | src/tools/spot.ts:711-904 | An undeclared name fails with the unknown-tool error and no call. The order and cancel-all tools run their own cases. |
| Futures.OrderRequest | src/tools/futures.ts:892-903 | The order is sent unvalidated. `positionSide` defaults to BOTH and `timeInForce` to GTC; every other field is passed on as given. |
| Futures.OrderJson | src/tools/futures.ts:905-925 | The success data has the sixteen fields, and absent prices become null. |
| Futures.PlaceOrder | src/tools/futures.ts:891-925 | Exactly one order call is made. A returned order answers with its reshaped fields; a raised one answers with its message. |
| Futures.CancelAll | src/tools/futures.ts:1052-1082 | The open orders are listed first. If listing fails, that is the only call. Otherwise exactly one cancel call follows per listed order, in order, and the data is the cancel report built from the gateway's answers to those calls. |
| Futures.CancelCalls | src/tools/futures.ts:1056-1058 | There is one cancel call per order, in order, each for that order's id. |
| Futures.CancelAttempts | src/tools/futures.ts:1056-1058 | The i-th attempt is the gateway's answer to cancelling the i-th open order. |
| Futures.CancelAllReported | src/tools/futures.ts:1052-1082 | Once the open orders are listed, the tool's data is the cancel report. That report counts every open order once, as cancelled or failed, and its cancelled count is the number of cancel calls that returned. |
| Futures.ClosePosition | src/tools/futures.ts:1084-1135 | The positions are listed first. If listing fails, that is the only call. Otherwise exactly one close order follows per position not skipped, in order, and the data is the close report built from the gateway's answers to those orders. |
| Futures.CloseCalls | src/tools/futures.ts:1098-1106 | There is one close order per position acted on, each the reduce-only order for that position. |
| Futures.CloseAttempts | src/tools/futures.ts:1098-1106 | The i-th attempt is the gateway's answer to the close order of the i-th position acted on. |
| Futures.ClosePositionReported | src/tools/futures.ts:1084-1135 | Once the positions are listed, the tool's data is the close report. Its total is the number of fetched positions. Every position not skipped is closed or failed, which is at most the total, and the closed count is the number of close orders that returned. |
| Futures.SetMargin | src/tools/futures.ts:1012-1020 | One call is made. On success the request's symbol and margin type are echoed; a failure carries the exception's message. |
| Futures.SetMarginIgnoresAnswer | src/tools/futures.ts:1012-1020 | What the exchange returns for a margin change never reaches the caller: two exchanges that both return give the same answer. |
| Futures.Handle | src/tools/futures.ts:886-1146 | An undeclared name fails with the unknown-tool error and no call. Place-order, cancel-all, close-position and margin-type run their own cases. |
| Account.BalanceRow | build/tools/account.js:431-436 | A balance row keeps the asset and amounts, and its total is free plus locked. |
| Account.HeldBalances | build/tools/account.js:430-436 | The rows are the balance rows with a positive total, in the exchange's order and each once; every row comes from an exchange balance and carries free plus locked as its total. |
| Account.SpotBalances | build/tools/account.js:429-440 | One balance call is made. Its held rows are rendered by the balances report; a failure carries the exception's message. |
| Account.SpotBalancesEmpty | build/tools/account.js:429-440 | The empty-account text is shown exactly when no balance has a positive total. |
| Account.FundedAssets | build/tools/account.js:453-462 | The assets listed are the ones with a positive wallet balance, in the exchange's order and each once. |
| Account.ListedAssets | build/tools/account.js:453-462 | Without an asset list nothing is listed; otherwise the list is the exchange's assets filtered by a positive wallet balance, in order. |
| Account.PortfolioJson | build/tools/account.js:444-464 | The data has eight fields: the seven totals under their own names, in the source's order, then an `assets` array holding one object per listed asset, in order. |
| Account.AssetsJson | build/tools/account.js:453-462 | The assets array has one entry per listed asset, the i-th being the reshaped i-th asset. |
| Account.Portfolio | build/tools/account.js:441-465 | One call is made, and the tool succeeds exactly when it returns. Success carries the reshaped account. A raised call gives the usual failure text built from the error. |
| Account.PositionRows | build/tools/account.js:478-491 | There is one row per position, in order, and each row is that position's row. |
| Account.PositionRow | build/tools/account.js:480-491 | A row keeps the position's nine fields and adds the notional, amount times mark price. |
| Account.PositionsQuery | build/tools/account.js:467-477 | A truthy symbol is checked as an optional symbol; a falsy one is passed on as it is. |
| Account.PositionsQueryUppercases | build/tools/account.js:470-476 | A lower-case symbol that fits the pattern is asked for in upper case, with the warning; an absent one is asked for as `undefined`. |
| Account.FuturesPositions | build/tools/account.js:466-495 | A rejected or crashing symbol check answers without any exchange call. Otherwise one position call is made with the checked symbol, and its rows go to the positions report. |
| Account.FuturesPositionsFlat | build/tools/account.js:466-495 | The flat-book text is shown exactly when every position returned has a zero amount. |
| Account.Handle | build/tools/account.js:410-522 | An undeclared name fails with the unknown-tool error and no call. Balances, unified account and positions run their own cases. |
| Advanced.FindSymbol | build/tools/advanced.js:655 | The index found is the first listing of the symbol; the end index means none. |
| Advanced.FindLotSize | build/tools/advanced.js:658 | The index found is the first LOT_SIZE filter; the end index means none. |
| Advanced.MinQty | build/tools/advanced.js:656-662 | An unlisted symbol gets the default lot size 0.001. |
| Advanced.MinQtyListed | build/tools/advanced.js:656-662 | A listed symbol's lot size is the minimum quantity of its first LOT_SIZE filter. |
| Advanced.MinQtyWithoutLotSize | build/tools/advanced.js:656-662 | A listed symbol without a LOT_SIZE filter gets the default lot size. |
| Advanced.SizeAtLeastOneLot | build/tools/advanced.js:651-665 | With a stop apart from the entry and non-zero leverage, the price risk is the stop distance and the risk per contract is that distance over the leverage. The contract count is exactly the floor of the risk budget over it. The recommendation is the larger of one lot and the contract count times the lot. The actual risk is the recommendation times the risk per contract. |
| Advanced.SizeMarginAndRatio | build/tools/advanced.js:664-674 | Under the same conditions the required margin is the recommended size times the entry over the leverage, and with a non-zero budget the risk ratio is the actual risk over the budget, in percent. |
| Advanced.SizeZeroStopDistance | build/tools/advanced.js:651-665 | With a positive leverage, risk budget and lot, a stop at the entry price gives zero risk per contract, an infinite recommendation, and a null in the JSON. |
| Advanced.PositionSize | build/tools/advanced.js:650-683 | One exchange-information call is made. The sizing uses the symbol's lot size; a failure carries the exception's message. |
| Advanced.PositionSizeWithoutEntry | build/tools/advanced.js:651-653 | Without an entry price the price risk, recommendation, actual risk and required margin are all NaN. |
| Advanced.ProfitLossBound | build/tools/advanced.js:707-709 | The profitable and losing counts together never exceed the number of positions. |
| Advanced.RiskPositionCounts | build/tools/advanced.js:708-713 | The analysis' position block gives the number of positions, the profitable and the losing counts and the unrealised total, and the two counts together fit in the number of positions. |
| Advanced.TotalUnrealized | build/tools/advanced.js:692 | A book without losses has a non-negative total. |
| Advanced.TotalUnrealizedAppend | build/tools/advanced.js:692 | The total of two books is the sum of their totals. |
| Advanced.TotalUnrealizedSingle | build/tools/advanced.js:692 | One position contributes exactly its unrealised profit. |
| Advanced.SpotValue | build/tools/advanced.js:715 | Balances without a total add up to zero. |
| Advanced.SpotValueAppend | build/tools/advanced.js:715 | The spot value of two lists of balances is the sum of their values. |
| Advanced.SpotValueSingle | build/tools/advanced.js:715 | One balance contributes its total, or zero when it has none. |
| Advanced.MarginUsage | build/tools/advanced.js:687-689 | The usage is the used share of the margin balance in percent. A zero balance gives +∞ for negative availability and NaN for zero. |
| Advanced.MarginRiskLevelBands | build/tools/advanced.js:693-697 | For a positive balance the level is HIGH exactly above 80 % use and LOW exactly at most 50 %. With a zero balance, nothing available reads as LOW and a negative availability as HIGH. |
| Advanced.Recommendations | build/tools/advanced.js:718-722 | Each of the three recommendations appears exactly when its condition holds (usage above 70 %, more than 60 % of positions losing, a loss beyond 5 % of the balance). Nothing else appears, and those present keep the fixed order margin, losses, total loss, so the list is determined. |
| Advanced.PortfolioRisk | build/tools/advanced.js:684-725 | The three calls are made in order, each only after the previous one returned, and a failure reports the call that raised. The tool succeeds exactly when all three return, and then answers with the analysis of the three answers. |
| Advanced.DiffPercent | build/tools/advanced.js:735-736 | The premium is the futures price over spot, in percent of a non-zero spot price. |
| Advanced.ArbitrageBands | build/tools/advanced.js:737-751 | For a positive spot price, futures are sold above a half-percent premium and bought below a half-percent discount, with nothing in between. The gap is significant exactly above one percent. |
| Advanced.ArbitrageZeroPrices | build/tools/advanced.js:735-740 | Zero spot and futures prices give NaN, and no trade is suggested. |
| Advanced.Compare | build/tools/advanced.js:726-756 | Both prices are asked for the pair "<symbol>USDT". A failed spot call is reported before a failed futures call. |
| Advanced.CompareWithoutSymbol | build/tools/advanced.js:727-728 | A missing symbol is not refused: the pair asked for is "undefinedUSDT". |
| Advanced.Handle | build/tools/advanced.js:645-767 | Only three names have a case; any other name fails with the unknown-tool error and no call. |
| Advanced.DeclaredWithoutCase | build/tools/advanced.js:757-759 | The funding-cost, order-precision and optimal-size tools are declared but fail as unknown tools. |
| Server.RouteFixedDiffers | src/index.ts:162-183 | The written and corrected routers disagree exactly on advanced names that carry a market keyword, which the written order sends to the market handler. |
| Server.RouteUnknown | src/index.ts:131-185 | A name is unknown exactly when it meets no rule, under either router. |
| Server.AdvancedNameRoutes | src/index.ts:174-183 | Under the corrected order, every name with an advanced prefix goes to the advanced handler. |
| Server.SpotNameRoutes | src/index.ts:142-149 | A spot-prefixed name other than the balances tool, without "price", 'k' or '2', goes to the spot handler under both orders. |
| Server.FuturesNameRoutes | src/index.ts:153-159 | A futures-prefixed name other than the positions tool, without "price", "klines" or '2', goes to the futures handler under both orders. |
| Server.SpotKeywordRoutes | src/index.ts:142-171 | The spot prefix followed by price, orderbook, klines or 24hr_ticker goes to the market handler under both orders. |
| Server.FuturesKeywordRoutes | src/index.ts:153-171 | The futures prefix followed by price, klines or 24hr_ticker goes to the market handler under both orders. |
| Server.BareKeywordRoutes | src/index.ts:163-171 | The exchange-information and server-time names go to the market handler under both orders. |
| Server.AccountToolsRouted | src/index.ts:132-138 | Every declared account tool reaches the account handler. |
| Server.SpotWordRoutes | src/index.ts:142-149 | A spot-prefixed name other than the balances tool that lacks some letter of "price" and has no 'k' or '2' goes to the spot handler under both orders. |
| Server.SpotToolsRouted | src/index.ts:142-149 | Every declared spot tool reaches the spot handler. |
| Server.FuturesWordRoutes | src/index.ts:153-159 | A futures-prefixed name other than the positions tool that lacks some letter of "price" and has no 'k' or '2' goes to the futures handler under both orders. |
| Server.FuturesToolRouted | src/index.ts:153-159 | The first five declared futures tools reach the futures handler. |
| Server.LaterFuturesToolRouted | src/index.ts:153-159 | The last four declared futures tools reach the futures handler. |
| Server.FuturesToolsRouted | src/index.ts:153-159 | Every declared futures tool reaches the futures handler. |
| Server.AdvancedToolsRouted | src/index.ts:175-182 | Under the corrected order every declared advanced tool reaches the advanced handler. |
| Server.MarketToolRouted | src/index.ts:163-171 | Each market tool meets the market rule and no earlier one, so it goes to the market handler under both orders. |
| Server.MarketToolsRouted | src/index.ts:163-171 | Every market tool reaches the market handler. |
| Server.SpotExamples | src/index.ts:142-171 | The spot open-orders tool goes to spot, and the spot price to market. |
| Server.FuturesOrderbookGoesToFutures | src/index.ts:153-159 | The futures rule lets "orderbook" through while the spot rule does not. |
| Server.MarketHandle | build/tools/market.js:637-868 | An unlisted name fails with the unknown market-tool error and no call; a listed one makes exactly its own call. |
| Server.Dispatch | src/index.ts:131-185 | Only a name outside every domain throws, and it throws the unknown-tool error. |
| Server.CompareRoutes | src/index.ts:163-183 | The price comparison meets the market rule first as written, and the advanced rule under the corrected order; the market handler has no case for it. |
| Server.CompareUnreachable | src/index.ts:163-171 | As written, the price comparison fails with the unknown market-tool error before any exchange call. |
| Server.CompareReachable | src/index.ts:175-182 | Under the corrected order the price comparison reaches its own case. |
| Server.ClientCheck | src/index.ts:103-130 | An existing client lets the call through. Without one, only HTTP mode can build a client from both keys; each other situation gets its own fixed message. |
| Server.HandleTool | src/index.ts:101-185 | A failed client check answers with its message and no call; otherwise the router as written picks the handler. |
| Server.HandleToolFixed | src/index.ts:101-185 | The same handler with the corrected router. |
| Server.HandleToolFixedDiffers | src/index.ts:163-183 | The written and corrected handlers differ only with a usable client, for a name the written router sends to the market domain and the corrected one to the advanced domain. |
| Server.CompareHandledFixed | src/index.ts:175-182 | With the corrected handler the price comparison runs its own case. |
| Server.WrapFailure | src/index.ts:213-216 | A failure gets the generic header and footer exactly when it carries neither marker. |
| Server.WrapFailureIdempotent | src/index.ts:213-216 | Wrapping twice equals wrapping once, and a wrapped message carries a marker. |
| Server.MarkedFailurePassesThrough | src/index.ts:214 | A message that opens with ❌ passes unchanged. |
| Server.ValidationErrorsPassThrough | src/index.ts:214 | A rendered validation error reaches the caller unchanged. |
| Server.CallTool | src/index.ts:203-252 | Missing arguments are an empty object. A failure is wrapped, text data is shown as it is, and other data goes through `stringify`. A throw becomes the system-exception text. The response keeps the handler's calls. |
| Server.NoClientNoCalls | src/index.ts:103-130 | Without a usable client every call answers with the client message, unwrapped, and makes no exchange call. |
| Server.UnknownNameAnswered | src/index.ts:237-251 | An unmatched name answers with the system-exception text naming it, and makes no exchange call. |
| Server.CompareCallUnknown | src/index.ts:163-171 | As written, a call of the price comparison with a usable client answers with the wrapped unknown-market-tool error and makes no exchange call. |
| Server.RejectedSpotOrderText | src/tools/spot.ts:726-731 | A rejected spot order reaches the caller as the validator's own text, with no exchange call. |
| Server.RejectedSpotOrderHandled | src/tools/spot.ts:726-731 | With a usable client the handler answers a rejected spot order with the validator's text as a failure and no exchange call. |

## Left out

- Numbers are exact reals; binary floating-point rounding is not modelled. NaN and infinities appear only where a division, a missing argument or the exchange produces them (`Ext`). The sign of zero is not modelled.
- `toFixed` for magnitudes of 1e21 and above (exponent notation) is not modelled.
- `toLocaleString` is modelled as rounding half away from zero to cents with en-US grouping. Locale data beyond en-US is not part of this model.
- `String(x)` in validation messages is rendered as the exact decimal to 20 places without trailing zeros. Exponent notation is not modelled.
- `toUpperCase` is modelled on ASCII letters only. Non-ASCII case mappings (for example 'ß' becoming "SS") are not modelled.
- The string validators assume that a truthy argument is a string or else throws; this matches the TypeError the source throws on `toUpperCase`.
- The status, emoji and name lookups use exact map keys. A key inherited from `Object.prototype` (such as "constructor") is not modelled.
- `formatTimestamp` is the clock's `show` function. `Date.now()` is the clock's `now`.
- `JSON.stringify` is a parameter of `Server.CallTool`. Dropping `undefined` fields is not modelled.
- Converting a string argument to a number (`+"12"`) is the `parse` parameter.
- The single-call cases that only reshape an exchange answer are one gateway call, `reshaped(name, args)`, whose JSON is taken as given. These are the spot and futures order queries, leverage change, account information and status, and the market data tools. Their field-by-field reshaping is not modelled.
- `formatFuturesOrderSuccess`, `formatPriceData`, `format24hrTicker`, `formatOrderbook` and `formatAccountInfo` are not called by the modelled handlers and are not part of this model.
- The tool declarations (`create*Tools`, `getAllTools`) and their JSON schemas are modelled only as the lists of declared names.
- Client creation and environment variables are the `Setup` record. The MCP transports (stdio, HTTP/SSE), `main` and the logger are not part of this model.
- `Promise.all` in the price comparison is modelled as two calls in a fixed order, with the spot failure reported first. Which rejection wins when both fail concurrently is not modelled.
- Server.WrapFailureIdempotent: states that the wrapped text carries ❌ or 💡, not where.
- Validation.ValidateParameters: its own contract states only that a failure has no warnings; the full behaviour is in the Valid/Invalid/Crashed lemmas beside it.
- Formatting.FormatNumber: its own contract states only the zero case; the `toFixed` part is stated by `Numeric.ToFixedDenotes` and the grouping by `Formatting.GroupRoundTrip`.

## Findings

| source | as written | input that shows it | evidently intended | confidence | as-written member | corrected member |
|---|---|---|---|---|---|---|
| src/index.ts:163-183 | The market rule, which matches any name containing "price", is tested before the advanced prefixes. | `binance_compare_spot_futures_price` is routed to the market handler, which has no case for it and answers "未知的市场数据工具". | Advanced tools reach the advanced handler; the comparison runs its own case. | not executed | Server.CompareCallUnknown | Server.CompareHandledFixed |
| src/utils/formatter.ts:71 | The base currency deletes the first "USDT", then the first "BUSD", then the first "BTC", anywhere in the symbol. | "BTCUSDT" gives the empty base currency, so the quantity line names no asset. | Remove one trailing quote currency, so that "BTCUSDT" gives "BTC". | not executed | Formatter.SpotOrderBitcoinAsWritten | Formatter.SpotOrderBitcoinFixed |

The entry points follow the code as written: `Server.HandleTool` routes with `Server.Route`, and the spot-order confirmation (`Formatter.SpotOrderLines`, used by `Spot.PlaceOrder`) uses `Formatter.BaseCurrencyAsWritten`. The corrected definitions sit beside them: `Server.HandleToolFixed` with `Server.RouteFixed`, and `Formatter.SpotOrderLinesFixed` with `Formatter.BaseCurrency`.
