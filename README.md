# Binance futures REST client: request construction

This project models the request-building half of `binanceapi`, a Qt client for the Binance
USDⓈ-M futures REST API. Each public call of the class, such as `getDepth`, `sendNewOrder` or
`cancelBatchOrders`, validates some of its arguments and then either returns without sending
anything or issues exactly one HTTP request. The model captures which request that is: the
verb, the host and path, the query items in the order `QUrlQuery::addQueryItem` appends them,
the raw headers in the order they are set, and the body.

The model is built from these pieces:

- **Outcomes.** Every builder is a method that returns an `Http.Outcome`. It is either
  `Rejected(argument, message)`, when a client-side check fails and the source prints a message
  and returns, or `Issued(request)`.
- **Reference functions.** Each method is proved equal to a reference function that lists the
  endpoint's fields (`Query.Field`). A field is an item that is always sent, or one sent only
  when a guard holds: a non-empty text, a non-negative number, a positive number, a number in
  range, or a non-empty list.
- **The query as a sequence.** A `QUrlQuery` is an append-only sequence of key/value pairs.
  `Query.Params` is the query a list of fields produces. `Query.Lookup` reads the first value
  under a key, and `Query.Position` gives a key's index.
- **Numbers.** `QString::number` on integers is `Decimal.IntToString`, a verified decimal
  rendering. `Decimal.ParseInt` reads it back.
- **Signatures.** The HMAC-SHA256 of `QMessageAuthenticationCode` is an arbitrary function
  `Http.Mac` taken as a parameter; nothing is assumed about it.
- **Encoded text.** `QUrl::toEncoded` and `QUrlQuery::toString` are `Http.UrlText`,
  `Http.PathAndQuery` and `Query.QueryString`. Percent-encoding is not modelled.

The lemmas state what the source promises about each endpoint:

- which checks reject, and that they are the only ones (both directions);
- which keys are sent, and under which guards;
- the order of keys the source appends in sequence;
- which requests carry the API key and which carry a signature, and over what text.

Text round trips tie each rendering to an independent reader:

- decimal numbers;
- `key=value&…` query texts, for keys and values free of `&` and `=`;
- the bracketed id lists of `cancelBatchOrders`.

The model follows the two source files.

- `binanceapi.cpp` is imperative. Its builders are methods that fill the query step by step.
  A ghost list of the fields written so far proves each step against the reference function.
- `binanceapi.h` contributes the default arguments, in the `Defaults` module.

Some behaviour of the source that the model makes explicit:

- `sendNewOrder` builds its `QNetworkRequest` before it attaches the query. The request URL
  therefore has no query. The payload `path?query` is both the body and the text it signs.
- `sendNewOrder` ignores its `recvWindow` and `timestamp` arguments (`Trading.NewOrderSignature`).
- `changePositionMode` and `changeMultiAssetsMode` always send `recvWindow` and `timestamp`,
  even when they are -1. `getCommissionRate` always sends `timestamp`, even a negative one,
  though it leaves out a negative `recvWindow`. Every other builder that takes these arguments
  leaves each of them out when it is negative.
- `getPositionMode` signs the whole URL, scheme and host included.
- The v3 `getAccountInformation()` puts its signature in the query rather than in a header.
  It is the one call that goes to the general host `https://api.binance.com`.
- `binanceapi.h` declares both `getAccountInformation()` (line 21) and
  `getAccountInformation(qint64 recvWindow = -1, qint64 timestamp = -1)` (line 70). A call
  with no arguments matches both, so in C++ it is ambiguous. Neither the v3 call nor the v2 call
  with both defaults can be written as `getAccountInformation()`; this is read from the header,
  not compiled.
- `getFundingRate`, the statistics calls and `getLvtKlines` silently drop an out-of-range
  limit. `getDepth`, the trade calls and the candlestick calls reject one.
- The user data stream calls send no headers at all, so no API key.
- `cancelBatchOrders` puts each client order id between double quotes without escaping
  anything. A single id that holds `","` is therefore rendered exactly like the two ids on
  either side of it (`BatchLists.ClientIdListCollision`).

## Model

| member | source | states |
|---|---|---|
| Decimal.NatToStringValue | binanceapi.cpp:96 | the decimal digits of a natural number read back to that number |
| Decimal.ValueToNatString | binanceapi.cpp:96 | every canonical digit string is the rendering of its own value, so the rendering is onto the canonical strings |
| Decimal.IntToStringRoundTrip | binanceapi.cpp:96 | `QString::number` of any integer, negative sentinels included, parses back to that integer |
| Decimal.ParseIntRendersBack | binanceapi.cpp:96 | any text the decimal reader accepts is exactly the rendering of the value it reads |
| Decimal.IntToStringInjective | binanceapi.cpp:96 | distinct integers render to distinct texts |
| Decimal.IntToStringChars | binanceapi.cpp:96 | a rendered integer holds only digits and a leading minus sign |
| Decimal.IntToString | binanceapi.cpp:96 | the rendering is non-empty, canonical for non-negative numbers, and a '-' before a canonical magnitude for negative ones |
| Text.SplitJoin | binanceapi.cpp:1248-1257 | splitting a joined list on its separator gives the list back when no part holds the separator |
| Text.SplitFirst | binanceapi.cpp:1248-1257 | a split stops at the first separator |
| Query.LookupSpec | binanceapi.cpp:93-97 | a key is missing exactly when no item holds it, and a value found is that of an item under the key |
| Query.LookupAppend | binanceapi.cpp:93-97 | a lookup in appended queries finds the first part's value first |
| Query.Position | binanceapi.cpp:93-97 | a key's index is within the query, and strictly inside it exactly when the key is present |
| Query.QueryStringRoundTrip | binanceapi.cpp:1297-1303 | the `key=value&…` text of a query reads back to the same items when keys and values lack '&' and '=' |
| Query.ItemsRoundTrip | binanceapi.cpp:1297-1303 | each `key=value` item reads back to its pair |
| Query.ParamsAppend | binanceapi.cpp:93-97 | the query of concatenated field lists is the concatenation of their queries |
| Query.AddItem | binanceapi.cpp:95 | an unguarded `addQueryItem` appends exactly its pair |
| Query.AddIfNonEmpty | binanceapi.cpp:946-948 | a guarded `addQueryItem` appends its pair exactly when the text is non-empty |
| Query.AddIfNonNegative | binanceapi.cpp:1260-1265 | a guarded `addQueryItem` appends the decimal number exactly when it is non-negative |
| Query.AddIfPositive | binanceapi.cpp:1606-1608 | a guarded `addQueryItem` appends the decimal number exactly when it is positive |
| Query.AddIfPositiveAtMost | binanceapi.cpp:432-434 | a guarded `addQueryItem` appends the decimal number exactly when it lies in 1..bound |
| Query.LookupField | binanceapi.cpp:93-97 | in a query built from fields with distinct keys, a field's key holds its value when the guard passes and is absent otherwise |
| Query.LookupMissing | binanceapi.cpp:93-97 | a key that no field writes is absent from the query |
| Query.FieldOrder | binanceapi.cpp:93-97 | two fields that are both sent appear in the order they were appended |
| Query.LeadingItems | binanceapi.cpp:93-97 | unguarded leading fields are the leading items of the query |
| Query.EmptyParams | binanceapi.cpp:420-440 | the query is empty exactly when no field's guard passes |
| Query.ParamsKeys | binanceapi.cpp:93-97 | a key is in the query exactly when some field writes it and that field's guard passes, so no builder sends a key its field list does not name |
| Query.NumberPlain | binanceapi.cpp:96 | a rendered number never holds '&' or '=' |
| Http.FormSignedHeaders | binanceapi.cpp:939-990 | a form-signed request carries the API key, the form content type and the MAC of its payload |
| Http.KeyedHeaders | binanceapi.cpp:1269-1270 | a request with only the API-key header carries no signature header |
| MarketData.Ping | binanceapi.cpp:34-39 | `GET /fapi/v1/ping`, no query, no headers |
| MarketData.GetTime | binanceapi.cpp:49-54 | `GET /fapi/v1/time`, no query, no headers |
| MarketData.GetExchangeInfo | binanceapi.cpp:69-74 | `GET /fapi/v1/exchangeInfo`, no query, no headers |
| MarketData.GetDepth | binanceapi.cpp:86-102 | rejects a limit outside {5,10,20,50,100,500,1000}, else sends symbol and limit |
| MarketData.DepthValidation | binanceapi.cpp:86-102 | rejected exactly when the limit is not one of the seven values; otherwise the query is exactly symbol then limit |
| MarketData.DepthQueryText | binanceapi.cpp:93-97 | the accepted query text is `symbol=<s>&limit=<n>` |
| MarketData.DepthQueryRoundTrip | binanceapi.cpp:93-97 | that text reads back to the two items for a plain symbol |
| MarketData.GetRecentTrades | binanceapi.cpp:114-129 | rejects a limit outside 1..1000, else sends symbol and limit |
| MarketData.GetHistoricalTrades | binanceapi.cpp:142-160 | the same check; fromId only when non-negative |
| MarketData.GetAggregateTrades | binanceapi.cpp:173-199 | the same check; fromId, startTime and endTime only when non-negative |
| MarketData.TradeLimitChecked | binanceapi.cpp:114-199 | each of the three trade calls is rejected exactly when the limit is outside 1..1000; the recent-trades query is exactly symbol then limit |
| MarketData.HistoricalTradesQuery | binanceapi.cpp:142-160 | an accepted query leads with symbol and limit; fromId is present exactly when non-negative |
| MarketData.AggregateTradesQuery | binanceapi.cpp:173-199 | an accepted query leads with symbol and limit; each optional id and time is present exactly when non-negative |
| MarketData.GetKlines | binanceapi.cpp:211-235 | rejects a limit outside 1..1500, else sends symbol, interval, limit and the times given |
| MarketData.GetContinuousKlines | binanceapi.cpp:287-312 | the same check, with pair and contractType leading |
| MarketData.GetIndexPriceKlines | binanceapi.cpp:325-349 | the same check, with pair leading |
| MarketData.GetMarkPriceKlines | binanceapi.cpp:361-385 | the same check, with symbol leading |
| MarketData.KlinesLimitChecked | binanceapi.cpp:211-385 | each of the four candlestick calls is rejected exactly when the limit is outside 1..1500 |
| MarketData.CandlestickQueries | binanceapi.cpp:211-385 | an accepted candlestick query starts with the instrument (symbol; pair and contractType; pair; symbol), holds interval before limit, and each time exactly when non-negative |
| MarketData.SymbolFilter | binanceapi.cpp:397-830 | the shared steps of the six symbol-filter builders (397-509, 794-830): a public GET on the given path with `symbol` only when non-empty, never rejected |
| MarketData.SymbolFilterQuery | binanceapi.cpp:397-509 | a symbol-filter call is never rejected; an empty symbol sends the bare path, any other sends `?symbol=<s>` only |
| MarketData.GetPremiumIndex | binanceapi.cpp:397-408 | `GET /fapi/v1/premiumIndex` with the optional symbol filter |
| MarketData.Get24hrTicker | binanceapi.cpp:452-463 | `GET /fapi/v1/ticker/24hr` with the optional symbol filter |
| MarketData.GetLatestPrice | binanceapi.cpp:475-486 | `GET /fapi/v1/ticker/price` with the optional symbol filter |
| MarketData.GetBookTicker | binanceapi.cpp:498-509 | `GET /fapi/v1/ticker/bookTicker` with the optional symbol filter |
| MarketData.GetIndexInfo | binanceapi.cpp:794-805 | `GET /fapi/v1/indexInfo` with the optional symbol filter |
| MarketData.GetAssetIndex | binanceapi.cpp:818-829 | `GET /fapi/v1/assetIndex` with the optional symbol filter |
| MarketData.GetFundingRate | binanceapi.cpp:420-440 | every argument optional; the limit only in 1..1000 |
| MarketData.FundingRateOptional | binanceapi.cpp:420-440 | never rejected; each key is present exactly when its guard passes, so an out-of-range limit is silently dropped |
| MarketData.GetOpenInterest | binanceapi.cpp:521-535 | rejects an empty symbol, else sends it |
| MarketData.OpenInterestMandatory | binanceapi.cpp:521-535 | rejected exactly when the symbol is empty; otherwise the query is the symbol alone |
| MarketData.GetOpenInterestHist | binanceapi.cpp:547-576 | the statistics builder at `/futures/data/openInterestHist` |
| MarketData.GetTopLongShortAccountRatio | binanceapi.cpp:588-617 | the statistics builder at `/futures/data/topLongShortAccountRatio` |
| MarketData.GetTopLongShortPositionRatio | binanceapi.cpp:630-659 | the statistics builder at `/futures/data/topLongShortPositionRatio` |
| MarketData.GetGlobalLongShortAccountRatio | binanceapi.cpp:671-700 | the statistics builder at `/futures/data/globalLongShortAccountRatio` |
| MarketData.GetTakerLongShortRatio | binanceapi.cpp:712-741 | the statistics builder at `/futures/data/takerlongshortRatio` |
| MarketData.Statistics | binanceapi.cpp:547-741 | the shared steps of the five statistics builders: the empty-symbol early return, then the empty-period one, each with its call's message; otherwise a public GET with symbol, period, the limit in 1..500 and the times when non-negative |
| MarketData.StatisticValidation | binanceapi.cpp:547-741 | rejected exactly when symbol or period is empty, symbol checked first; otherwise symbol and period lead, the limit is sent only in 1..500 and each time only when non-negative |
| MarketData.GetLvtKlines | binanceapi.cpp:753-782 | rejects an empty symbol, then an empty interval; the limit only in 1..1000 |
| MarketData.LvtKlinesValidation | binanceapi.cpp:753-782 | rejected exactly when symbol or interval is empty, with the matching message; an accepted limit comes after both times |
| BatchLists.RenderIdList | binanceapi.cpp:1244-1250 | the loop renders `[id1,id2,…]` from every id in order |
| BatchLists.RenderClientIdList | binanceapi.cpp:1252-1258 | the loop renders `["a","b",…]` from every client id in order |
| BatchLists.RenderIds | binanceapi.cpp:1246-1248 | one decimal part per id, in order |
| BatchLists.QuoteAll | binanceapi.cpp:1254-1256 | one quoted part per client id, in order |
| BatchLists.AddIdList | binanceapi.cpp:1244-1250 | `orderIdList` is appended exactly when the list is non-empty |
| BatchLists.AddClientIdList | binanceapi.cpp:1252-1258 | `origClientOrderIdList` is appended exactly when the list is non-empty |
| BatchLists.IdListRoundTrip | binanceapi.cpp:1244-1250 | the order-id list text reads back to the ids, for every list |
| BatchLists.ClientIdListRoundTrip | binanceapi.cpp:1252-1258 | the client-id list text reads back to the ids when none holds a ',' |
| BatchLists.ClientIdWithComma | binanceapi.cpp:1252-1258 | the model's reader, which splits on every ',', does not read back a client id holding ','; this is why the round trip asks for comma-free ids |
| BatchLists.ClientIdListCollision | binanceapi.cpp:1252-1258 | for every `a` and `b`, the one-id list `[a + "\",\"" + b]` and the two-id list `[a, b]` differ but render to the same `origClientOrderIdList` text |
| Common.Window | binanceapi.cpp:1433-1451 | the keyed query of recvWindow and timestamp |
| Common.WindowKeys | binanceapi.cpp:1433-1451 | each key is present exactly when non-negative, in order; the query is empty exactly when both are negative |
| Common.SymbolWindow | binanceapi.cpp:1635-1655 | the keyed query of an optional symbol, recvWindow and timestamp |
| Common.SymbolWindowKeys | binanceapi.cpp:1635-1655 | each key is present exactly when its guard passes; empty exactly when none does; only the API-key header is sent |
| Trading.CheckOrderStatus | binanceapi.cpp:250-275 | `GET /fapi/v1/order` with the order-reference query |
| Trading.CancelOrder | binanceapi.cpp:1170-1195 | `DELETE /fapi/v1/order` with the same query |
| Trading.GetOpenOrder | binanceapi.cpp:1317-1343 | `GET /fapi/v1/openOrder` with the same query |
| Trading.OrderReference | binanceapi.cpp:250-275 | the shared steps of checkOrderStatus, cancelOrder (1170-1195) and getOpenOrder (1317-1343): a keyed request with the given verb and path, symbol first, orderId when non-negative, origClientOrderId when non-empty, then the window keys |
| Trading.OrderReferenceKeys | binanceapi.cpp:250-275 | symbol first; orderId when non-negative, origClientOrderId when non-empty, the window keys when non-negative; API key and no signature |
| Trading.SendNewOrder | binanceapi.cpp:931-994 | the signed POST whose body is the path and query of the order |
| Trading.AddTerms | binanceapi.cpp:950-967 | timeInForce to stopPrice, each appended exactly when non-empty |
| Trading.AddTriggers | binanceapi.cpp:968-985 | closePosition to newOrderRespType, each appended exactly when non-empty |
| Trading.NewOrderHead | binanceapi.cpp:944-949 | symbol and side lead; positionSide only when non-empty, between side and type |
| Trading.NewOrderWithoutWindow | binanceapi.cpp:931-994 | neither recvWindow nor timestamp is ever sent |
| Trading.NewOrderOptional | binanceapi.cpp:950-985 | each of the twelve optional keys is present exactly when its value is non-empty, after type, in source order |
| Trading.NewOrderSignature | binanceapi.cpp:937-994 | POST to the bare URL, body `path?query`, signature the MAC of the body; the request does not depend on recvWindow or timestamp |
| Trading.NewOrder.OptionalValues | binanceapi.cpp:950-985 | one optional value per optional key |
| Trading.ModifyOrder | binanceapi.cpp:1008-1041 | the signed PUT of the modification |
| Trading.ModifyOrderKeys | binanceapi.cpp:1008-1041 | symbol, side, quantity and price always; orderId, origClientOrderId and the window keys under their guards |
| Trading.ModifyOrderSigned | binanceapi.cpp:1008-1041 | PUT with the query on the URL; body `path?query`, signature the MAC of the body |
| Trading.Batch | binanceapi.cpp:1053-1111 | the shared steps of the two batch calls: a form-signed request with the given verb on `/fapi/v1/batchOrders`, batchOrders then the guarded window keys, body and signed text `path?query` |
| Trading.BatchOrders | binanceapi.cpp:1053-1076 | the signed POST of a batch |
| Trading.BatchModifyOrders | binanceapi.cpp:1088-1111 | the signed PUT of a batch |
| Trading.BatchVerbsAgree | binanceapi.cpp:1053-1111 | the two batch requests differ only in their verb; batchOrders first, window keys when non-negative |
| Trading.GetOrderAmendmentHistory | binanceapi.cpp:1124-1158 | `GET /fapi/v1/orderAmendment` |
| Trading.AmendmentHistoryLimit | binanceapi.cpp:1124-1158 | the limit only when positive; ids and times under their guards |
| Trading.CancelAllOpenOrders | binanceapi.cpp:1207-1226 | `DELETE /fapi/v1/allOpenOrders` |
| Trading.CancelAllKeys | binanceapi.cpp:1207-1226 | DELETE, symbol first, window keys when non-negative |
| Trading.CancelBatchOrders | binanceapi.cpp:1238-1274 | `DELETE /fapi/v1/batchOrders` with the two optional lists |
| Trading.CancelBatchLists | binanceapi.cpp:1238-1274 | each list is present exactly when non-empty and reads back to its ids; window keys when non-negative |
| Trading.CountdownCancelAll | binanceapi.cpp:1286-1305 | POST with the query text as body and no URL query |
| Trading.CountdownKeys | binanceapi.cpp:1286-1305 | symbol and countdownTime lead; window keys when non-negative |
| Trading.CountdownBody | binanceapi.cpp:1286-1305 | no URL query, no signature; the body reads back to the query for a plain symbol |
| Trading.GetOpenOrders | binanceapi.cpp:1355-1376 | the symbol-window query at `/fapi/v1/openOrders` |
| Trading.GetAllOrders | binanceapi.cpp:1388-1420 | `GET /fapi/v1/allOrders` |
| Trading.AllOrdersKeys | binanceapi.cpp:1388-1420 | symbol first; every other key exactly when non-negative, a zero limit included |
| Trading.AllOrdersOrder | binanceapi.cpp:1388-1420 | startTime before endTime and recvWindow before timestamp when sent |
| Account.ChangePositionMode | binanceapi.cpp:843-859 | the signed form POST of `dualSidePosition` |
| Account.ChangeMultiAssetsMode | binanceapi.cpp:903-919 | the signed form POST of `multiAssetsMargin` |
| Account.ChangeMode | binanceapi.cpp:843-919 | the shared steps of the two mode switches |
| Account.ModePayloadItems | binanceapi.cpp:845-846 | the formatted payload is the query text of its three items |
| Account.ModePayloadRoundTrip | binanceapi.cpp:845-846 | the payload reads back to the flag, recvWindow and timestamp, always all three |
| Account.ModeSwitchSigned | binanceapi.cpp:843-919 | POST, no URL query, signature the MAC of the body, body reads back to the three items |
| Account.GetPositionMode | binanceapi.cpp:872-891 | `GET /fapi/v1/positionSide/dual`, signed over the URL |
| Account.PositionModeSignature | binanceapi.cpp:872-891 | the signature is the MAC of the full URL, host included; window keys when non-negative |
| Account.GetSpotAccountInformation | binanceapi.cpp:14-27 | `GET https://api.binance.com/api/v3/account` |
| Account.SpotAccountSigned | binanceapi.cpp:14-32 | the query is the timestamp then the MAC of `timestamp=<now>`; general host; signed |
| Account.GetBalance | binanceapi.cpp:1433-1451 | the window query at `/fapi/v2/balance` |
| Account.GetAccountInformation | binanceapi.cpp:1463-1481 | the window query at `/fapi/v2/account` |
| Account.GetPositionRisk | binanceapi.cpp:1635-1655 | the symbol-window query at `/fapi/v2/positionRisk` |
| Account.GetLeverageBracket | binanceapi.cpp:1768-1790 | the symbol-window query at `/fapi/v1/leverageBracket` |
| Account.GetAdlQuantile | binanceapi.cpp:1803-1825 | the symbol-window query at `/fapi/v1/adlQuantile` |
| Account.GetApiTradingStatus | binanceapi.cpp:1891-1913 | the symbol-window query at `/fapi/v1/apiTradingStatus` |
| Account.ChangeLeverage | binanceapi.cpp:1493-1513 | keyed POST `/fapi/v1/leverage` |
| Account.ChangeMarginType | binanceapi.cpp:1525-1545 | keyed POST `/fapi/v1/marginType` |
| Account.SettingKeys | binanceapi.cpp:1493-1545 | symbol and the setting lead; window keys when non-negative; empty body |
| Account.AdjustPositionMargin | binanceapi.cpp:1557-1581 | keyed POST `/fapi/v1/positionMargin` |
| Account.AdjustMarginKeys | binanceapi.cpp:1557-1581 | amount and type always, amount first; positionSide when non-empty |
| Account.GetPositionMarginHistory | binanceapi.cpp:1593-1623 | keyed GET `/fapi/v1/positionMargin/history` |
| Account.MarginHistoryKeys | binanceapi.cpp:1593-1623 | type and limit only when positive, times when non-negative |
| Account.GetUserTrades | binanceapi.cpp:1673-1708 | keyed GET `/fapi/v1/userTrades` |
| Account.UserTradesKeys | binanceapi.cpp:1673-1708 | limit only when positive, ids and times when non-negative |
| Account.GetIncome | binanceapi.cpp:1721-1755 | keyed GET `/fapi/v1/income` |
| Account.GetForceOrders | binanceapi.cpp:1838-1872 | keyed GET `/fapi/v1/forceOrders` |
| Account.FilteredHistory | binanceapi.cpp:1721-1872 | the shared steps of the two filtered histories |
| Account.FilteredHistoryKeys | binanceapi.cpp:1721-1872 | symbol and kind when non-empty, limit when positive, times when non-negative |
| Account.GetCommissionRate | binanceapi.cpp:1932-1950 | keyed GET `/fapi/v1/commissionRate` |
| Account.CommissionRateTimestamp | binanceapi.cpp:1932-1950 | the timestamp is always the last item, even when negative; recvWindow only when non-negative |
| UserStream.CreateUserDataStream | binanceapi.cpp:1971-1976 | POST `/fapi/v1/listenKey`, no query, no headers |
| UserStream.ExtendUserDataStream | binanceapi.cpp:1978-1988 | PUT with the listen key as the only item |
| UserStream.CloseUserDataStream | binanceapi.cpp:1990-2000 | DELETE with the listen key as the only item |
| UserStream.StreamRequests | binanceapi.cpp:1971-2000 | no stream call sends a header or a signature; extend and close differ only in their verb |
| Defaults.TradeDefaults | binanceapi.h:25-28 | the default limits pass validation; the query is exactly symbol and `500` |
| Defaults.CandlestickDefaults | binanceapi.h:29-30 | the default limit passes; `500` is sent and no time |
| Defaults.FundingRateDefaults | binanceapi.h:34 | with every default only `limit=100` is sent |
| Defaults.StatisticDefaults | binanceapi.h:39-43 | the default limit `30` is sent and no time |
| Defaults.LvtDefaults | binanceapi.h:44 | the default limit `500` is sent |
| Defaults.SymbolFilterDefaults | binanceapi.h:33-46 | the premium index, the three tickers, the index info and the asset index with their default empty symbol send no query |
| Defaults.WindowDefaults | binanceapi.h:69-70 | getBalance and the v2 getAccountInformation with both defaults send no query |
| Defaults.SymbolWindowDefaults | binanceapi.h:67-75 | getOpenOrders and getPositionRisk with every default send no query |
| Defaults.PositionModeDefaults | binanceapi.h:48 | with defaults the position-mode signature is over the bare URL |
| Defaults.ModeSwitchDefaults | binanceapi.h:47-49 | with defaults the mode switches send `recvWindow=-1&timestamp=-1` |
| Defaults.OrderDefaults | binanceapi.h:61-68 | order lookups, cancels and order lists with defaults send the symbol alone, the -1 limit included |
| Defaults.AmendmentDefaults | binanceapi.h:60 | the default limit `50` is sent; the other defaulted keys are not |
| Defaults.MarginHistoryDefaults | binanceapi.h:74 | the default limit `500` is sent; no time |

## Left out

- Transport: `QNetworkAccessManager`, the replies and their handlers, the JSON parsing and the debug output are not modelled. Each builder ends at the request it hands to the transport.
- Percent-encoding: `QUrl::toEncoded` and `QUrlQuery::toString` escape some characters. The model renders keys and values as they are. The query round trips therefore require keys and values without '&' or '='.
- Integer widths: `int` and `qint64` arguments are bounded by `Decimal.Int32` and `Decimal.Int64`. No arithmetic is done on them, so nothing can wrap.
- The HMAC: `generateSignature` (binanceapi.cpp:30-32) and the inline `QMessageAuthenticationCode::hash(...).toHex()` calls are the parameter `mac`. The model proves what text is signed and with which secret, never what the digest is.
- The clock: `QDateTime::currentMSecsSinceEpoch()` in the v3 `getAccountInformation()` is the parameter `now`.
- JSON: `batchOrders` and `batchModifyOrders` serialise a `QJsonArray` with `QJsonDocument::toJson`. The model takes that text as the string `ordersJson`.
- Account.AdjustPositionMargin: `QString::number(double)` is not modelled. The amount is taken as its already-formatted text, so the contract says nothing about how a `double` is rendered.
- UTF-8: `toUtf8()` conversions of keys, secrets and bodies are identities, because strings are sequences of characters.
- The constructor: `binanceapi(apiKey, apiSecret)` stores two strings that never change. It is `Http.Credentials`, passed to each builder.
