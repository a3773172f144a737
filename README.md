# binance-client in Dafny

This project models the sequential core of a Go client for the Binance
exchange API, and proves what that core promises.

- **Requests** (`request.dfy`, on top of `url_values.dfy`, `hex.dfy` and `text.dfy`). The request builder has a parameter map, `WithParam` / `WithHeader`, and two ways to finish a request:
  - the unsigned `Request()`;
  - the signed `SignedRequest`, which sets `timestamp` and `recvWindow=5000` and appends `&signature=` plus the lowercase hex HMAC-SHA256 of exactly the encoded parameters.

  Go's `url.Values` is modelled as a map from keys to value lists. The model includes `Encode` (keys sorted, query-escaped), `ParseQuery` and `QueryEscape` / `QueryUnescape`, and proves the parse/encode and escape/unescape round trips. HMAC-SHA256 is a function parameter `Mac` that yields 32 bytes. The clock is a `now` parameter in milliseconds.
- **The older REST client** (`binance_client.dfy`, from binance_client.go):
  - `doRequest`'s classification of an HTTP outcome into a decoded result or an error;
  - the listen-key calls;
  - the three endpoints that sign inline.
- **The endpoint wrappers** of the API client (`endpoints.dfy`, `spot.dfy`, `margin.dfy`, `stake.dfy`):
  - each wrapper is a method that drives the builder step by step; its contract is the exact request it produces;
  - that request's parameters are a pure function, with lemmas showing that what the server parses out of the signed query is what the wrapper meant to send.
- **Shared records and helpers** (`common.dfy`, from common.go and binance.go):
  - the `APIError` text and the search for it along an error chain;
  - `TokensBalance` and `ToMap`, proved against a last-wins index;
  - `RateAndQty` decoding;
  - the wallet types.
- **The user-data-stream dispatcher** (`user_stream.dfy`, `stream_payload.dfy`, `json.dfy`):
  - the loop over incoming frames, which switches on the event type `e`;
  - the payload conversion into an account record;
  - the session start.

  The account store is a class that records the calls it receives and answers each with an error or not. Two JSON decoders are modelled:
  - jsonparser: the first top-level member with the key;
  - encoding/json: every member in order, matched by exact name or ASCII case fold, last value wins, a type mismatch remembered as an error.

  Frames come in already parsed.
- **The two small caches**:
  - `margin_account.dfy`: a one-minute cache of cross-margin account details, with the clock as a parameter;
  - `coin_state.dfy`: an all-or-nothing snapshot of the coin list and its keyed view.

Calls the model cannot see are inputs:
- the HTTP round trip (an `HttpOutcome`, or a `Reply` for the wrappers' transport);
- the REST results that `initWSSession`, the margin cache and the coin-state worker fetch;
- the clock;
- the store's answers.

## Model

| member | source | states |
|---|---|---|
| Requests.Sign | request.go:61-68 | The signature is 64 characters, all lowercase hex, and hex-decodes to the MAC of the UTF-8 secret and message. |
| Hex.HexEncode | request.go:66 | Two lowercase hex digits per byte. |
| Hex.HexRoundTrip | request.go:66 | Hex-decoding the encoding of any byte string gives it back. |
| Hex.HexRoundTripText | request.go:66 | Every even-length lowercase hex text is the encoding of the bytes it decodes to, so the encoding is onto such texts. |
| Requests.RequestMethod | request.go:23 | http.NewRequest's method check: the empty method means GET, otherwise the method must be an HTTP token. It holds in both directions. |
| Requests.SplitUrl | request.go:23 | The URL splits into the part before `?` and the raw query (fragment dropped). It fails exactly when that part holds a control character. |
| Requests.NewRequest | request.go:23-26 | Fails with the method error first, then the URL error, and succeeds exactly when both checks pass. The new request has the checked method, the split URL and no headers. |
| Requests.NewRequestBuilder | request.go:22-31 | Fails exactly when http.NewRequest does, with its error wrapped in "failed to create request, ". On success the parameters start as the query already in the URL. |
| Requests.RequestBuilder.constructor | request.go:27-30 | The builder's parameters are the parse of the request's raw query. |
| Requests.RequestBuilder.WithHeader | request.go:34-37 | Returns the same builder. The canonical form of the key now holds exactly that one value; the query is unchanged. |
| Requests.RequestBuilder.WithParam | request.go:40-43 | Returns the same builder, whose parameters are the old ones with the key set to exactly that one value. |
| Requests.RequestBuilder.SignedRequest | request.go:46-53 | The parameters gain timestamp and recvWindow. The raw query is the encoding of those parameters, then `&`, then the encoded signature over that same text. Headers are unchanged. |
| Requests.RequestBuilder.Request | request.go:56-59 | The raw query is the encoding of the parameters alone, and it parses back to them. Headers are unchanged. |
| Requests.HttpRequest.SetHeader | request.go:35 | Header.Set: the canonical key maps to exactly the one value; the query is unchanged. |
| Requests.CanonicalHeaderKey | request.go:35 | A non-token key stays as it is. A token key keeps its length and letters up to ASCII case: the first letter and each letter after `-` upper case, the rest lower case. |
| Requests.CanonicalHeaderKeyIdempotent | request.go:35 | Canonicalising twice is the same as once. |
| Requests.ApiKeyHeader | common.go:12 | The key header X-MBX-APIKEY is stored as X-Mbx-Apikey. |
| Requests.SigningParamsOverwrite | request.go:47-48 | Signing sets timestamp to the current millis in base 10 and recvWindow to "5000", overriding caller values for those two keys. Every other key is kept. |
| Requests.SignatureEncoding | request.go:49-50 | A lowercase-hex signature is encoded as `signature=` followed by its own characters, without escaping. |
| Requests.SignedTextShape | request.go:49-51 | The signed query is the signed-over text, then `&signature=`, then the signature of exactly that text. |
| Requests.SignedQueryParses | request.go:47-51 | On the server side, the signed query parses to the signing parameters with the signature of their encoding added under "signature". |
| Requests.ParamOrderIrrelevant | request.go:41 | For two distinct keys, the order of the calls changes neither the encoded query nor the signed query. |
| UrlValues.Set | request.go:41 | url.Values.Set: the key holds exactly the new value and every other key is unchanged. |
| UrlValues.SetCommutes | request.go:40-43 | Setting two distinct keys commutes, both in the map and in its encoding. |
| UrlValues.EscapeRoundTrip | request.go:50-51 | QueryUnescape undoes QueryEscape for every string. |
| UrlValues.ParseEncodeRoundTrip | request.go:57 | For parameters with no empty value list, parsing the encoded query gives the parameters back. |
| UrlValues.EncodeSingle | request.go:49-50 | A one-entry map encodes as the escaped key, `=` and the escaped value. |
| UrlValues.ParseAppendedPair | request.go:51 | Parsing an encoding followed by `&` and one more pair appends that value to the key's list. |
| Text.FormatInt | request.go:47 | strconv's base-10 text: digits with an optional leading minus. |
| Text.FormatIntRoundTrip | request.go:47 | Parsing the base-10 text of an integer gives it back. |
| Text.FormatIntInjective | binance_spot.go:94 | Distinct integers have distinct base-10 texts. |
| Text.SortedList | request.go:51 | The keys Encode visits: every key once, strictly ascending. |
| BinanceClient.DoRequest | binance_client.go:71-97 | A transport failure is wrapped by "failed to execute the request" and a read failure is returned as it is. A status other than 200 fails with a text carrying the status and the body. A 200 succeeds exactly when there is no target or the body decodes, and then yields the decoded value. |
| BinanceClient.StatusErrorTextInjective | binance_client.go:92-94 | The error text identifies the status and the body. |
| BinanceClient.NilTargetIgnoresBody | binance_client.go:84-87 | With no target, any 200 succeeds whatever the body, and yields nothing. |
| BinanceClient.OtherStatusFails | binance_client.go:92-94 | Every status other than 200, other 2xx codes included, fails with the status and body text. |
| BinanceClient.PlainUrl | binance_client.go:24 | A URL without `?`, `#` or control characters splits into itself and an empty query. |
| BinanceClient.EndpointUrl | binance_client.go:24 | Every endpoint URL of the older client parses with an empty query. |
| BinanceClient.KeepAliveUrl | binance_client.go:104-105 | With the listen key appended, the URL splits at `?` into the endpoint and `listenKey=<key>`. |
| BinanceClient.ApiKeyHeaders | binance_client.go:62 | The headers the older client sets: the canonical API-key header with the key. |
| BinanceClient.CreateListenKey | binance_client.go:51-69 | POSTs to the user-data-stream path with the key header and no query. Returns "" and the doRequest error on failure, and the decoded listen key and no error on success. |
| BinanceClient.KeepListenKeyAlive | binance_client.go:100-112 | PUTs with the listen key in the query and a nil target, so any 200 response succeeds. A bad URL or a failed request is returned as the error. |
| BinanceClient.SignInline | binance_client.go:141-147 | The raw query becomes the signed query of the request's own parameters; headers are unchanged. |
| BinanceClient.GetAccountState | binance_client.go:129-151 | Signed GET of /api/v3/account with only the signing parameters. The result is the decoded state exactly when doRequest succeeds, and its error otherwise. |
| BinanceClient.GetOpenOrders | binance_client.go:154-176 | Signed GET of /api/v3/openOrders. Its result and error are those of doRequest. |
| BinanceClient.OrderStatus | binance_client.go:177-200 | Signed GET of /api/v3/order with symbol and orderId. The result is the decoded order exactly when doRequest succeeds, and doRequest's error otherwise. |
| BinanceClient.OrderStatusSigned | binance_client.go:190-195 | The signed-over text holds symbol and orderId (base 10), together with timestamp and recvWindow. |
| BinanceClient.OrderStatusSent | binance_client.go:190-195 | The server parses symbol and the base-10 orderId out of the signed query, each exactly once. |
| Endpoints.SetIf | binance_spot.go:76-78 | A conditional WithParam: the key is added with the value exactly when the condition holds, and nothing else changes. |
| Endpoints.SignedCarries | request.go:46-53 | Every parameter other than timestamp, recvWindow and signature reaches the server's parse of the signed query unchanged. |
| Endpoints.FieldOr | binance_spot.go:251-255 | The wrappers' result selection: the forwarded data and error as they come, and the field of the result only when there is no error, else the zero value. |
| Spot.OpenOrdersParams | binance_spot.go:76-78 | symbol is present exactly when it is non-empty. No other key changes. |
| Spot.GetOpenOrders | binance_spot.go:66-82 | Builder failure is returned as it is. Otherwise: signed GET of /api/v3/openOrders with the key header and OpenOrdersParams. |
| Spot.OrderParams | binance_spot.go:92-94 | symbol, and orderId in base 10 that parses back to the id. |
| Spot.OrderRequest | binance_spot.go:85-98 | OrderStatus (GET) and CancelOrder (DELETE): signed request of /api/v3/order with OrderParams. |
| Spot.TradeHistoryParams | binance_spot.go:124-140 | limit always present; fromId defaulting to "0"; startTime and endTime only when non-empty. |
| Spot.AddTradeFilters | binance_spot.go:127-140 | The conditional tail of the chain adds exactly the time range and fromId. |
| Spot.GetAccountTradeHistory | binance_spot.go:117-144 | Signed GET of /api/v3/myTrades with TradeHistoryParams. |
| Spot.HistoryParams | binance_spot.go:155-166 | coin, status, startTime and endTime, each exactly when non-empty. |
| Spot.AddWithdrawFilters | binance_spot.go:155-166 | The withdraw chain yields HistoryParams. |
| Spot.AddDepositFilters | binance_spot.go:184-195 | The deposit chain, in its own order, yields the same HistoryParams. |
| Spot.DepositOrder | binance_spot.go:184-195 | Adding the four optional keys in the deposit order gives the same map as HistoryParams. |
| Spot.WithdrawHistory | binance_spot.go:147-173 | Signed GET of the withdraw history with HistoryParams. |
| Spot.DepositHistory | binance_spot.go:176-202 | Signed GET of the deposit history with HistoryParams. |
| Spot.WithdrawParams | binance_spot.go:243-249 | The six withdraw keys, each with its argument. |
| Spot.Withdraw | binance_spot.go:236-256 | Signed POST of the withdraw endpoint with WithdrawParams. |
| Spot.WithdrawOutcome | binance_spot.go:251-255 | "" on error, the result's id otherwise. Forwarded data and error are passed on. |
| Spot.AssetTransferParams | binance_spot.go:341-347 | The six universal-transfer keys, each with its argument. |
| Spot.AssetTransfer | binance_spot.go:332-357 | Signed POST of the universal-transfer endpoint with AssetTransferParams. |
| Spot.AssetTransferOutcome | binance_spot.go:353-355 | The error is none exactly when the reply has no error and the result succeeded or nothing was forwarded. An unsuccessful result with forwarded data gives a "binance failure" error. |
| Spot.FutureSummaryParams | binance_spot.go:503-513 | futuresType always. page is 1 when the page is below 1. limit is 10 when the limit is 0. |
| Spot.GetSubAccountFutureSummary | binance_spot.go:496-521 | Signed GET of the futures account summary with FutureSummaryParams. |
| Spot.PublicRequest | binance_spot.go:418-443 | GetExchangeInfo, GetServerTime and TickerData: unsigned GET with no key header. The query is the URL's own. |
| Spot.OrderBookParams | binance_spot.go:472 | symbol and limit, each with its argument. |
| Spot.GetOrderBook | binance_spot.go:464-478 | Unsigned GET of /api/v3/depth with OrderBookParams and no timestamp or signature. |
| Spot.SetSame | binance_spot.go:133-135 | Setting limit a second time, to the value it already holds, leaves the parameters unchanged. |
| Margin.TransferType | binance_margin.go:40-43 | "1" exactly when spot to margin, "2" otherwise. |
| Margin.CrossTransferParams | binance_margin.go:52-56 | Exactly asset, amount and the transfer type. |
| Margin.TransferCrossMargin | binance_margin.go:39-63 | Signed POST of the cross-margin transfer path with CrossTransferParams. |
| Margin.CrossTransferSent | binance_margin.go:52-56 | The server parses asset, amount and type out of the signed query. |
| Margin.IsolatedFlag | binance_margin.go:78-81 | isIsolated=TRUE and symbol are added exactly when the call is isolated; otherwise the map is unchanged. |
| Margin.AddIsolatedFlag | binance_margin.go:78-81 | The conditional part of the builder chain yields IsolatedFlag. |
| Margin.LoanParams | binance_margin.go:75-81 | asset and amount, plus isIsolated and symbol only when isolated. |
| Margin.Borrow | binance_margin.go:66-88 | Signed POST of the loan path with LoanParams. |
| Margin.Repay | binance_margin.go:91-113 | Signed POST of the repay path with LoanParams. |
| Margin.LoanRequest | binance_margin.go:66-88 | The chain Borrow and Repay share: signed POST with LoanParams. |
| Margin.LoanSent | binance_margin.go:75-81 | The server parses asset and amount, and sees isIsolated and symbol exactly when the call was isolated. |
| Margin.LoanFlagSent | binance_margin.go:100-106 | When isolated, the server parses isIsolated=TRUE and the symbol. When not, neither key is present. |
| Margin.TranIdOutcome | binance_margin.go:58-62 | tranId 0 on error, the result's tranId otherwise. Forwarded data and error are passed on. |
| Margin.LookupRequest | binance_margin.go:116-149 | GetMarginAsset and GetMarginPair: unsigned GET with only the asset or the symbol. |
| Margin.GetAllMarginAssets | binance_margin.go:152-167 | Unsigned GET with an empty query. |
| Margin.GetCrossMarginAccountDetails | binance_margin.go:170-185 | Signed GET with only the signing parameters. |
| Margin.MaxBorrowableParams | binance_margin.go:188-206 | Exactly asset and isolatedSymbol. |
| Margin.GetMaxBorrowable | binance_margin.go:188-206 | Signed GET with MaxBorrowableParams. |
| Margin.MaxBorrowableSent | binance_margin.go:197-200 | Both parameters reach the server's parse. |
| Margin.IsolatedTransferParams | binance_margin.go:218-224 | asset, symbol and amount, with transFrom and transTo sent by their wallet names. |
| Margin.TransferIsolatedMargin | binance_margin.go:209-230 | Signed POST with IsolatedTransferParams. |
| Margin.IsolatedTransferSent | binance_margin.go:218-224 | The server parses all five parameters. |
| Margin.IsolatedAccountParams | binance_margin.go:246-248 | symbols is present exactly when the list is non-empty, and is the comma-join of the list. |
| Margin.GetIsolatedMarginAccountDetails | binance_margin.go:233-254 | Fails exactly when there are more than five symbols, with the "max 5 symbols" error and before any request is built. Otherwise: signed GET with IsolatedAccountParams. |
| Margin.IsolatedAccountSent | binance_margin.go:246-248 | The server parses the comma-joined symbols exactly when the list is non-empty. |
| Stake.PositionParams | stakeapi.go:58-68 | product always. asset only when non-empty. current only when the page is positive. size only when positive. Every other key is unchanged. |
| Stake.AddPositionFilters | stakeapi.go:60-68 | The conditional chain, including the size call whose result is dropped, leaves the builder with exactly those filters. |
| Stake.GetStakingProductPosition | stakeapi.go:49-75 | Builder failure is returned as it is; otherwise the request is always signed and carries PositionParams. |
| Stake.PositionSent | stakeapi.go:58-69 | The server parses the product, the asset when not empty and the page and size when positive (base 10) out of the signed query, whatever the URL's own query held. |
| Common.APIErrorTextRoundTrip | common.go:38-40 | The text "code: <code>, msg: <msg>" reads back to the same code and message. |
| Common.APIErrorTextInjective | common.go:38-40 | Distinct API errors have distinct texts. |
| Common.Wrap | binance_client.go:75 | pkg/errors Wrap: the error's text is the cause's text after the message and ": ". |
| Common.Chain | common.go:51 | The chain errors.As walks starts at the error itself. |
| Common.FirstAPIErrorInChain | common.go:49-55 | None exactly when no link of the chain is an *APIError. Otherwise the first such link. |
| Common.ToAPIError | common.go:49-55 | A nil error gives none; otherwise the first *APIError along the chain. |
| Common.ToAPIErrorOfNew | common.go:42-55 | newAPIError(c, m), however often wrapped, gives back the APIError with c and m. |
| Common.WalletTypeStringFacts | common.go:19-24 | SpotWallet reads SPOT and IsolatedMarginWallet reads ISOLATED_MARGIN. Distinct wallet types read differently. |
| Common.StatusImpl.Status | common.go:232-234 | The flag and the message, unchanged. |
| Common.RateAndQtyFromPair | common.go:516-522 | A two-string array sets the quantity to the first element and the rate to the second. |
| Common.RateAndQtyCases | common.go:516-522 | The non-array case, the wrong-type case, and a short array that keeps the prior value. |
| Common.IndexByContents | binance.go:19-25 | The keys are exactly the keys present. An entry whose key does not recur later is the one kept (last wins). Each value's key is its own. |
| Common.IndexBySize | common.go:74-78 | The map is no larger than the list, and exactly as large when the keys are distinct. |
| Common.FillByKey | common.go:73-79 | The map-filling loop computes the last-wins index. |
| Common.TokensBalance | common.go:73-79 | Keys are the assets present; each asset maps to its last balance, whose asset is the key. The size is at most the number of balances, equal when the assets are distinct. |
| Common.ToMap | common.go:494-500 | Keys are the coins present, last wins, each value's coin equals its key; binance.go:419-425 is the same code. |
| StreamPayload.ToUint64 | binance_ws_worker.go:131 | Go's int64 to uint64 conversion: the same value when non-negative, plus 2^64 when negative. |
| StreamPayload.DecodeBalanceItems | binance_ws_worker.go:138-141 | Succeeds exactly when every element decodes; one balance per element, in order. |
| StreamPayload.ToBalances | binance_ws_worker.go:134-148 | One Balance per payload entry, in order, with Asset from a, Free from f and Locked from l. |
| StreamPayload.CopyBalances | binance_ws_worker.go:134-148 | The append loop yields ToBalances. |
| StreamPayload.FirstError | binance_ws_worker.go:98-137 | None exactly when every lookup succeeded. Otherwise the first failing lookup's error. |
| StreamPayload.AccountInfoFailsAtFirstLookup | binance_ws_worker.go:98-141 | parseAccountInfo fails exactly when one of m, t, b, s, T, W, D, u, B fails. The error is the first one in that order. |
| StreamPayload.AccountInfoContents | binance_ws_worker.go:99-148 | On success the record holds the looked-up values: the SPOT account type and permissions, and the balances in payload order. |
| StreamPayload.ParseAccountInfo | binance_ws_worker.go:97-150 | The field-by-field method yields AccountInfoOf the frame. binance_ws.go:83-136 is the same code. |
| StreamPayload.BalancesOf | binance_ws_worker.go:84-95 | The corrected balance parse: the B member's balances exactly when the lookup and the decoding succeed. |
| StreamPayload.ParseAccountBalanceFlag | binance_ws_worker.go:84-95 | parseAccountBalance returns true exactly when the B lookup or its decoding fails. binance_ws.go:70-81 is the same. |
| StreamPayload.EventKeyFoldsOntoE | binance_ws_worker.go:70 | The member "e" of a balanceUpdate frame is matched, by case folding, to the int64 field E. |
| StreamPayload.BalanceUpdateAlwaysFails | binance_ws_worker.go:70-73 | Every frame with a string "e" fails to unmarshal into BalanceUpdate. |
| Json.Member | binance_ws_worker.go:43 | jsonparser's lookup: the first member with the key, none exactly when no member has it. |
| Json.GetString | binance_ws_worker.go:43 | A string exactly when the member exists and is a string. |
| Json.GetInt | binance_ws_worker.go:99-102 | An int64 exactly when the member exists and is an integer within int64. |
| Json.GetBoolean | binance_ws_worker.go:115-118 | A boolean exactly when the member exists and is a boolean. |
| Json.FieldFor | binance_ws_worker.go:70 | encoding/json's field match: an exact-name field when there is one, otherwise a case-folded one. |
| Json.MisfitMemberFails | binance_ws_worker.go:70 | One member of the wrong type makes the whole Unmarshal fail. |
| Json.DecodeFieldsInOrder | binance_ws_worker.go:70 | When each member lands in its own field with a fitting value, the decode is exactly those values. |
| UserStream.AccountStore.Call | binance_ws_worker.go:55 | The store records the call and answers with its failure verdict on that trace. |
| UserStream.Actions | binance_ws_worker.go:42-81 | What the switch makes of each frame, in order. |
| UserStream.ProcessMessages | binance_ws_worker.go:38-82 | The loop leaves the store's trace and the returned flag exactly as Run describes them. binance_ws.go:24-68 is the Legacy variant. |
| UserStream.Steps | binance_ws_worker.go:38-82 | The trace only grows by at most one call per frame and keeps its prefix. |
| UserStream.StepsIgnoreLater | binance_ws_worker.go:44-46 | Once the loop has returned, later frames change nothing. |
| UserStream.Consumed | binance_ws_worker.go:38-82 | The frames read are at most the frames given, and at least one when the loop returned. |
| UserStream.StepsCallsPrefix | binance_ws_worker.go:38-82 | The store receives exactly the calls of the frames the loop read, in order, and the loop returns within them. |
| UserStream.StepsDrained | binance_ws_worker.go:38-82 | When the loop did not return, the store received the call of every frame. |
| UserStream.StepsRunOut | binance_ws_worker.go:51-77 | With a store that never fails and no stopping frame, the loop never returns early. |
| UserStream.NoEventTypeStops | binance_ws_worker.go:43-47 | A frame without a string e returns before any store call. |
| UserStream.RouteByEventType | binance_ws_worker.go:48-81 | SetAccountInfo (UpdateAccountInfo in the Legacy copy) only from outboundAccountInfo. UpdateBalance only from outboundAccountPosition. UpdateBalanceDelta only from balanceUpdate. executionReport and other types make no call. |
| UserStream.AccountInfoRouting | binance_ws_worker.go:49-58 | An outboundAccountInfo frame stops the loop exactly when parseAccountInfo fails, and is stored otherwise. |
| UserStream.BalanceUpdateHalts | binance_ws_worker.go:68-77 | As written, every balanceUpdate frame stops the loop. |
| UserStream.SampleBalanceDecodes | binance_ws_worker_test.go:13 | One sample balance entry decodes to its asset, free and lock. |
| UserStream.PositionFrameBalances | binance_ws_worker_test.go:13 | The test frame's B decodes to the expected balances, BNB first with free "1.60268308" and lock "0.00000000". |
| UserStream.PositionFrameCorrected | binance_ws_worker_test.go:12-22 | With the corrected parse, the test frame hands the expected balances to UpdateBalance. |
| UserStream.PositionFrameAsWritten | binance_ws_worker.go:59-67 | As written, the same frame decodes without error and UpdateBalance receives an empty slice. |
| UserStream.BalanceUpdateDocDecodes | binance_ws_worker.go:68-77 | With a field for e, every balanceUpdate frame in the exchange's layout decodes to its E, a, d and T. |
| UserStream.BalanceUpdateFrameCorrected | binance_ws_worker.go:68-77 | With that field, a sample balanceUpdate frame reaches UpdateBalanceDelta. |
| UserStream.InitWSSession | binance_ws_worker.go:188-204 | Either REST failure gives "" and that error, with the store untouched. On full success the key is returned and the store has received just SetAccountInfo of the account. |
| MarginAccount.MarginAccountInfo.constructor | margin_account.go:18-24 | Both caches start empty. |
| MarginAccount.MarginAccountInfo.Cached | margin_account.go:44-51 | A cached copy exists exactly when the id has an entry no older than the validity window. |
| MarginAccount.MarginAccountInfo.UpdateAccount | margin_account.go:26-40 | An unregistered id fails with "account not exists" and changes nothing. A failed fetch is returned and changes nothing. Success stores the details and the stamp under that id only. Both caches keep the same keys. |
| MarginAccount.MarginAccountInfo.GetAccountInfo | margin_account.go:43-57 | A fresh cached copy is returned without change. Otherwise the outcome and new state are UpdateAccount's. |
| MarginAccount.MarginAccountInfo.UpdateThenGet | margin_account.go:35-51 | After UpdateAccount stores details at a stamp, a GetAccountInfo within the next minute returns exactly those details, whatever a fetch would give. Only the id's entry and stamp change. |
| CoinState.CoinStateWorker.constructor | coinstate.go:38-46 | One update from empty state: the fetched list on success, empty on failure, and the keyed view always matches. |
| CoinState.CoinStateWorker.Update | coinstate.go:19-30 | A failure leaves both fields unchanged. Success replaces the snapshot, with the keyed view equal to its ToMap. |
| CoinState.CoinStateWorker.AllInfo | coinstate.go:48-53 | The current snapshot. |
| CoinState.CoinStateWorker.GetOneInfo | coinstate.go:55-63 | Some exactly when the snapshot lists the coin, and then its last record. |
| CoinState.LastIndexOf | coinstate.go:57 | The position of the coin's last record, or -1 when there is none. |

## Left out

- HMAC-SHA256 and SHA-256 themselves: the digest is a parameter `Mac`. The hex encoding and what is signed are modelled.
- The clock: `currentMillis` and `time.Since` are the parameters `now` (milliseconds) and `now` (nanoseconds, for the margin cache). An elapsed time is `now` minus the stamp. The model reads the clock once per call: GetAccountInfo passes its own `now` as UpdateAccount's stamp, whereas Go reads `time.Now()` again after the fetch (margin_account.go:37), so the Go stamp can be slightly later.
- HTTP execution, and JSON decoding of REST bodies. An outcome is an `HttpOutcome` input, and decoding a body is a `Decoder` function.
- The spot, margin and staking wrappers call a second `doRequest` that is not part of this model. Its result is a `Reply` input, and the wrappers are modelled up to the request they send, plus the result selection each applies.
- JSON text parsing: frames arrive as a parsed `Json` tree or `Unparsable`. Duplicate-key text quirks, escapes and number syntax are not modelled.
- jsonparser's unquoting of a string-valued `B`, and `null` elements of `[]*PayloadBalance`: the model decodes B only when it is an array of objects.
- url.Parse failures other than control characters, and the fragment and `%q` detail of those errors. The error value is kept abstract.
- Requests.RequestMethod: the invalid-method error text puts the method between plain double quotes, whereas net/http formats it with `%q`, which also escapes special characters. No wrapper in the model reaches this error.
- Partial results: the Go decoders may fill some fields before an error, and the model returns only the error.
- int64 width of the REST values: integers are unbounded, except the int64 range check of the JSON decoders and the uint64 conversion of `u`.
- The spot endpoints CreateListenKeySpot, KeepListenKeyAliveSpot, GetAccountState, CreateOrder, CancelAllOrder, TransferToMainAccount, SubAccountAssetBalances, GetAllAssetDetail and AllCoinInfo: fixed-parameter wrappers of the same shape as the ones modelled, with no rule of their own.
- The spot endpoints SubAccountList (email and isFreeze, binance_spot.go:290-295), SubAccountTransferHistory (fromEmail and toEmail, binance_spot.go:317-322) and GetDepositAddress (network, binance_spot.go:389-391): each adds its optional parameters only when they are not empty. They are built from the same pieces as the modelled endpoints (the conditional set of Endpoints.SetIf, then signing), but their own parameter sets are not modelled.
- The spot endpoint GetTradeHistory (binance_spot.go:101-111): it signs symbol and limit without setting the X-MBX-APIKEY header, unlike every signed wrapper the model covers. That request is not modelled.
- The margin listen-key wrappers (binance_margin.go:14-32): they delegate to createListenKey/keepListenKeyAlive, which are not part of this model.
- The WebSocket reader, the 1-second drop-on-timeout push, the keepalive ticker, the reconnect loop and the coin-state ticker (subscribeDataStream, Run, keepAliveKey, run): concurrency and timers. The channel is modelled as a finite sequence of frames.
- Locks in the caches: the model is single-threaded.
- MarginAccount.MarginAccountInfo.GetAccountInfo: the Go method returns a pointer into the cache, and the model returns the value, so aliasing is not captured. The accounts map is modelled as the set of ids whose context is non-nil.
- The account store's own behaviour (balances, deltas, orders): it lives in a package that is not part of this model. It is a recorder with a failure verdict per call.
- account.go, context.go, flags.go, future.go and subaccount.go: interfaces, wiring, floating-point order parameters and a one-parameter wrapper.
- binance_ws_worker_test.go calls NewAccountDataWorker and parseAccountBalance with signatures the source does not have. Only its data and expected values are used.
- Requests.RequestBuilder.constructor: the starting parameters are the model's ParseQuery of the raw query, which drops a pair whose percent-escapes do not decode to UTF-8, whereas Go keeps such a pair with its raw bytes.
- Requests.NewRequestBuilder: the same gap, through the constructor: a URL whose query holds an escape such as %FF starts with fewer parameters than in Go.
- UrlValues.QueryUnescape and UrlValues.ParseQuery: strings are sequences of Unicode characters, so an escape sequence that is not valid UTF-8 (such as %FF) is rejected, whereas Go returns a string holding the raw bytes.
- StreamPayload.BalanceUpdateAlwaysFails and the balanceUpdate decoding: the BalanceUpdate and PayloadBalance records come from a package that is not part of this model, and are assumed to have the layout binance.go declares for the same names (BalanceUpdate at binance.go:55-60).
- The duplicate declarations in common.go and binance.go are the same code, and are modelled once in `Common`. The two dispatchers are one model with a `Variant` switch: only the store call of an outboundAccountInfo frame differs.

## Findings

| source | as written | input that shows it | evidently intended | confidence | as-written member | corrected member |
|---|---|---|---|---|---|---|
| binance_ws_worker.go:68-77 | json.Unmarshal of the whole frame into BalanceUpdate (assuming the imported BalanceUpdate has the layout of binance.go:55-60), whose int64 field E case-folds onto the frame's string member "e"; the Unmarshal always fails and the loop returns (also binance_ws.go:54-59) | the balanceUpdate frame {"e":"balanceUpdate","E":1573200697110,"a":"BTC","d":"100.00000000","T":1573200697068} | the frame decodes and UpdateBalanceDelta receives it | not executed | UserStream.BalanceUpdateHalts | UserStream.BalanceUpdateDocDecodes |
| binance_ws_worker.go:84-95 | parseAccountBalance receives the slice by value and its appends never reach the caller, so UpdateBalance always receives an empty slice (also binance_ws.go:45-50,70-81) | the outboundAccountPosition frame of binance_ws_worker_test.go:13, whose B holds BNB 1.60268308 / 0.00000000 | UpdateBalance receives the frame's balances in order | not executed | UserStream.PositionFrameAsWritten | UserStream.PositionFrameCorrected |
