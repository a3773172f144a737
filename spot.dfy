/**
 * The spot wrappers of binance_spot.go: each builds its request with the
 * RequestBuilder, adding parameters one by one, some only under a
 * condition, and then either signs it or leaves it unsigned. The base URL
 * comes from the client, so the builder may fail; its parameters start as
 * the query already in that URL (`UrlQuery`).
 *
 * Each wrapper is a method that drives the builder as the source does and
 * returns the request it would send; the parameter rule is the function
 * the method's contract names.
 */
module Spot {
  import opened Wrappers
  import opened Text
  import opened UrlValues
  import opened Common
  import opened Requests
  import opened Endpoints
  import BinanceClient

  // ------------------------------------------------------- parameter rules

  /** GetOpenOrders: the symbol only when one is given. */
  function OpenOrdersParams(init: Values, symbol: string): (p: Values)
    ensures p.Keys == init.Keys + KeyIf(symbol != "", "symbol")
    ensures symbol != "" ==> p["symbol"] == [symbol]
    ensures Keeps(p, init, KeyIf(symbol != "", "symbol"))
  {
    SetIf(init, symbol != "", "symbol", symbol)
  }

  /** OrderStatus and CancelOrder: the symbol and the id in base 10. */
  function OrderParams(init: Values, symbol: string, id: int): (p: Values)
    ensures p.Keys == init.Keys + {"symbol", "orderId"}
    ensures p["symbol"] == [symbol] && p["orderId"] == [FormatInt(id)]
    ensures ParseInt(p["orderId"][0]) == Some(id)
    ensures Keeps(p, init, {"symbol", "orderId"})
  {
    FormatIntRoundTrip(id);
    init["symbol" := [symbol]]["orderId" := [FormatInt(id)]]
  }

  /** The optional time range of the history calls: each end only when given. */
  function TimeRange(v: Values, startTime: string, endTime: string): (p: Values)
    ensures p.Keys == v.Keys + KeyIf(startTime != "", "startTime") + KeyIf(endTime != "", "endTime")
    ensures startTime != "" ==> p["startTime"] == [startTime]
    ensures endTime != "" ==> p["endTime"] == [endTime]
    ensures Keeps(p, v, KeyIf(startTime != "", "startTime") + KeyIf(endTime != "", "endTime"))
  {
    SetIf(SetIf(v, startTime != "", "startTime", startTime), endTime != "", "endTime", endTime)
  }

  /** Setting a key to the one value it already has changes nothing. */
  lemma SetSame(v: Values, key: string, value: string)
    requires key in v && v[key] == [value]
    ensures Set(v, key, value) == v
  {
  }

  /** GetAccountTradeHistory: symbol and limit always, the times only when
      given, fromId defaulting to "0". The source sets limit a second time
      when it is not zero, to the value it already has (see SetSame). */
  function TradeHistoryParams(init: Values, symbol: string, startTime: string, endTime: string, limit: int, fromId: string): (p: Values)
    ensures p.Keys == init.Keys + {"symbol", "limit", "fromId"} + KeyIf(startTime != "", "startTime") + KeyIf(endTime != "", "endTime")
    ensures p["symbol"] == [symbol] && p["limit"] == [FormatInt(limit)]
    ensures p["fromId"] == [if fromId != "" then fromId else "0"]
    ensures startTime != "" ==> p["startTime"] == [startTime]
    ensures endTime != "" ==> p["endTime"] == [endTime]
    ensures Keeps(p, init, {"symbol", "limit", "fromId"} + KeyIf(startTime != "", "startTime") + KeyIf(endTime != "", "endTime"))
  {
    var p0 := init["symbol" := [symbol]]["limit" := [FormatInt(limit)]];
    TimeRange(p0, startTime, endTime)["fromId" := [if fromId != "" then fromId else "0"]]
  }

  /** WithdrawHistory (coin, status, startTime, endTime) and DepositHistory
      (coin, startTime, endTime, status): each key only when its value is
      not empty. The two orders give the same parameters. */
  function HistoryParams(init: Values, coin: string, startTime: string, endTime: string, status: string): (p: Values)
    ensures p.Keys == init.Keys + KeyIf(coin != "", "coin") + KeyIf(status != "", "status")
                      + KeyIf(startTime != "", "startTime") + KeyIf(endTime != "", "endTime")
    ensures coin != "" ==> p["coin"] == [coin]
    ensures status != "" ==> p["status"] == [status]
    ensures startTime != "" ==> p["startTime"] == [startTime]
    ensures endTime != "" ==> p["endTime"] == [endTime]
    ensures Keeps(p, init, KeyIf(coin != "", "coin") + KeyIf(status != "", "status")
                           + KeyIf(startTime != "", "startTime") + KeyIf(endTime != "", "endTime"))
  {
    TimeRange(SetIf(SetIf(init, coin != "", "coin", coin), status != "", "status", status), startTime, endTime)
  }

  /** Withdraw: six parameters, all always present. */
  function WithdrawParams(init: Values, coin: string, amount: string, address: string, network: string, name: string, orderId: string): (p: Values)
    ensures p.Keys == init.Keys + {"coin", "withdrawOrderId", "network", "address", "name", "amount"}
    ensures p["coin"] == [coin] && p["withdrawOrderId"] == [orderId] && p["network"] == [network]
    ensures p["address"] == [address] && p["name"] == [name] && p["amount"] == [amount]
    ensures Keeps(p, init, {"coin", "withdrawOrderId", "network", "address", "name", "amount"})
  {
    init["coin" := [coin]]["withdrawOrderId" := [orderId]]["network" := [network]]
        ["address" := [address]]["name" := [name]]["amount" := [amount]]
  }

  /** AssetTransfer: six parameters, all always present. */
  function AssetTransferParams(init: Values, fromEmail: string, fromAccType: string, toEmail: string, toAccountType: string, asset: string, amount: string): (p: Values)
    ensures p.Keys == init.Keys + {"fromEmail", "toEmail", "asset", "amount", "fromAccountType", "toAccountType"}
    ensures p["fromEmail"] == [fromEmail] && p["toEmail"] == [toEmail] && p["asset"] == [asset]
    ensures p["amount"] == [amount] && p["fromAccountType"] == [fromAccType] && p["toAccountType"] == [toAccountType]
    ensures Keeps(p, init, {"fromEmail", "toEmail", "asset", "amount", "fromAccountType", "toAccountType"})
  {
    init["fromEmail" := [fromEmail]]["toEmail" := [toEmail]]["asset" := [asset]]
        ["amount" := [amount]]["fromAccountType" := [fromAccType]]["toAccountType" := [toAccountType]]
  }

  /** GetSubAccountFutureSummary: futuresType always, a page below 1 sent
      as 1, a zero limit sent as 10. */
  function FutureSummaryParams(init: Values, futuresType: int, page: int, limit: int): (p: Values)
    ensures p.Keys == init.Keys + {"futuresType", "page", "limit"}
    ensures p["futuresType"] == [FormatInt(futuresType)]
    ensures p["page"] == [FormatInt(if page < 1 then 1 else page)]
    ensures p["limit"] == [FormatInt(if limit == 0 then 10 else limit)]
    ensures Keeps(p, init, {"futuresType", "page", "limit"})
  {
    var page' := if page < 1 then 1 else page;
    var limit' := if limit == 0 then 10 else limit;
    init["futuresType" := [FormatInt(futuresType)]]["page" := [FormatInt(page')]]["limit" := [FormatInt(limit')]]
  }

  /** GetOrderBook: symbol and limit, unsigned. */
  function OrderBookParams(init: Values, symbol: string, limit: string): (p: Values)
    ensures p.Keys == init.Keys + {"symbol", "limit"}
    ensures p["symbol"] == [symbol] && p["limit"] == [limit]
    ensures Keeps(p, init, {"symbol", "limit"})
  {
    init["symbol" := [symbol]]["limit" := [limit]]
  }

  // ---------------------------------------------------------------- results

  /** Withdraw hands back "" on error and the id of the withdrawal otherwise. */
  function WithdrawOutcome(reply: Reply<WithdrawResult>): (r: (string, Option<FwdData>, Option<Error>))
    ensures r.1 == reply.fwd && r.2 == reply.err
    ensures r.0 == (if reply.err.Some? then "" else reply.result.id)
  {
    FieldOr(reply, (w: WithdrawResult) => w.id, "")
  }

  /** AssetTransfer turns a reply that decoded to Success=false into an
      error, when there is forwarded data to quote. */
  function AssetTransferOutcome(reply: Reply<TransferResult>): (r: (TransferResult, Option<FwdData>, Option<Error>))
    ensures r.0 == reply.result && r.1 == reply.fwd
    ensures r.2.None? <==> reply.err.None? && (reply.result.status.success || reply.fwd.None?)
    ensures reply.err.Some? ==> r.2 == reply.err
    ensures reply.err.None? && !reply.result.status.success && reply.fwd.Some? ==>
              r.2 == Some(Plain("binance failure: " + reply.fwd.value.data))
  {
    if reply.err.Some? then (reply.result, reply.fwd, reply.err)
    else if !reply.result.status.success && reply.fwd.Some? then
      (reply.result, reply.fwd, Some(Plain("binance failure: " + reply.fwd.value.data)))
    else (reply.result, reply.fwd, None)
  }

  // --------------------------------------------------------------- requests

  /** GetOpenOrders: signed GET /api/v3/openOrders. */
  method GetOpenOrders(c: ApiClient, symbol: string, mac: Mac, now: nat) returns (r: Result<HttpRequest, Error>)
    ensures BuildFails(r, c.apiBaseUrl + "/api/v3/openOrders")
    ensures r.Success? ==> var url := c.apiBaseUrl + "/api/v3/openOrders";
      fresh(r.value) && Built(r.value, "GET", url, BinanceClient.ApiKeyHeaders(c.apiKey),
                              SignedQuery(OpenOrdersParams(UrlQuery(url), symbol), c.secretKey, mac, now))
  {
    var url := c.apiBaseUrl + "/api/v3/openOrders";
    StandardMethods();
    var b := NewRequestBuilder("GET", url);
    if b.Failure? {
      return Failure(b.error);
    }
    var rr := b.value.WithHeader(ApiKeyHeaderName, c.apiKey);
    if symbol != "" {
      rr := rr.WithParam("symbol", symbol);
    }
    var rq := rr.SignedRequest(c.secretKey, mac, now);
    return Success(rq);
  }

  /** OrderStatus (GET) and CancelOrder (DELETE) on /api/v3/order: signed,
      with the symbol and the id. */
  method OrderRequest(c: ApiClient, httpMethod: string, symbol: string, id: int, mac: Mac, now: nat)
    returns (r: Result<HttpRequest, Error>)
    requires httpMethod == "GET" || httpMethod == "DELETE"
    ensures BuildFails(r, c.apiBaseUrl + "/api/v3/order")
    ensures r.Success? ==> var url := c.apiBaseUrl + "/api/v3/order";
      fresh(r.value) && Built(r.value, httpMethod, url, BinanceClient.ApiKeyHeaders(c.apiKey),
                              SignedQuery(OrderParams(UrlQuery(url), symbol, id), c.secretKey, mac, now))
  {
    var url := c.apiBaseUrl + "/api/v3/order";
    StandardMethods();
    var b := NewRequestBuilder(httpMethod, url);
    if b.Failure? {
      return Failure(b.error);
    }
    var rr := b.value.WithHeader(ApiKeyHeaderName, c.apiKey);
    rr := rr.WithParam("symbol", symbol);
    rr := rr.WithParam("orderId", FormatInt(id));
    var rq := rr.SignedRequest(c.secretKey, mac, now);
    return Success(rq);
  }

  /** The conditional part of GetAccountTradeHistory's chain: the times
      when given, limit again when not zero, fromId or "0". */
  method AddTradeFilters(rr: RequestBuilder, startTime: string, endTime: string, limit: int, fromId: string)
    requires rr.Valid() && "limit" in rr.params && rr.params["limit"] == [FormatInt(limit)]
    modifies rr
    ensures rr.Valid()
    ensures rr.params == Set(TimeRange(old(rr.params), startTime, endTime), "fromId", if fromId != "" then fromId else "0")
  {
    ghost var p0 := rr.params;
    var r := rr;
    if startTime != "" {
      r := r.WithParam("startTime", startTime);
    }
    assert r == rr && rr.params == SetIf(p0, startTime != "", "startTime", startTime);
    if endTime != "" {
      r := r.WithParam("endTime", endTime);
    }
    assert rr.params == TimeRange(p0, startTime, endTime);
    SetSame(rr.params, "limit", FormatInt(limit));
    if limit != 0 {
      r := r.WithParam("limit", FormatInt(limit));
    }
    assert rr.params == TimeRange(p0, startTime, endTime);
    if fromId != "" {
      r := r.WithParam("fromId", fromId);
    } else {
      r := r.WithParam("fromId", "0");
    }
  }

  /** GetAccountTradeHistory: signed GET /api/v3/myTrades. */
  method GetAccountTradeHistory(c: ApiClient, symbol: string, startTime: string, endTime: string, limit: int, fromId: string, mac: Mac, now: nat)
    returns (r: Result<HttpRequest, Error>)
    ensures BuildFails(r, c.apiBaseUrl + "/api/v3/myTrades")
    ensures r.Success? ==> var url := c.apiBaseUrl + "/api/v3/myTrades";
      fresh(r.value) && Built(r.value, "GET", url, BinanceClient.ApiKeyHeaders(c.apiKey),
             SignedQuery(TradeHistoryParams(UrlQuery(url), symbol, startTime, endTime, limit, fromId), c.secretKey, mac, now))
  {
    var url := c.apiBaseUrl + "/api/v3/myTrades";
    StandardMethods();
    var b := NewRequestBuilder("GET", url);
    if b.Failure? {
      return Failure(b.error);
    }
    var rr := b.value.WithHeader(ApiKeyHeaderName, c.apiKey);
    rr := rr.WithParam("symbol", symbol);
    rr := rr.WithParam("limit", FormatInt(limit));
    AddTradeFilters(rr, startTime, endTime, limit, fromId);
    var rq := rr.SignedRequest(c.secretKey, mac, now);
    return Success(rq);
  }

  /** The conditional part of WithdrawHistory's chain: coin, status,
      startTime, endTime, each when not empty. */
  method AddWithdrawFilters(rr: RequestBuilder, coin: string, startTime: string, endTime: string, status: string)
    requires rr.Valid()
    modifies rr
    ensures rr.Valid()
    ensures rr.params == HistoryParams(old(rr.params), coin, startTime, endTime, status)
  {
    ghost var p := rr.params;
    var r := rr;
    if coin != "" {
      r := r.WithParam("coin", coin);
    }
    p := SetIf(p, coin != "", "coin", coin);
    assert r == rr && rr.params == p;
    if status != "" {
      r := r.WithParam("status", status);
    }
    p := SetIf(p, status != "", "status", status);
    assert rr.params == p;
    ghost var p1 := p;
    if startTime != "" {
      r := r.WithParam("startTime", startTime);
    }
    p := SetIf(p, startTime != "", "startTime", startTime);
    assert rr.params == p;
    if endTime != "" {
      r := r.WithParam("endTime", endTime);
    }
    assert rr.params == TimeRange(p1, startTime, endTime);
  }

  /** The conditional part of DepositHistory's chain: coin, startTime,
      endTime, status, each when not empty. */
  method AddDepositFilters(rr: RequestBuilder, coin: string, startTime: string, endTime: string, status: string)
    requires rr.Valid()
    modifies rr
    ensures rr.Valid()
    ensures rr.params == HistoryParams(old(rr.params), coin, startTime, endTime, status)
  {
    ghost var init := rr.params;
    ghost var p := init;
    var r := rr;
    if coin != "" {
      r := r.WithParam("coin", coin);
    }
    p := SetIf(p, coin != "", "coin", coin);
    assert r == rr && rr.params == p;
    if startTime != "" {
      r := r.WithParam("startTime", startTime);
    }
    p := SetIf(p, startTime != "", "startTime", startTime);
    assert rr.params == p;
    if endTime != "" {
      r := r.WithParam("endTime", endTime);
    }
    p := SetIf(p, endTime != "", "endTime", endTime);
    assert rr.params == p;
    if status != "" {
      r := r.WithParam("status", status);
    }
    p := SetIf(p, status != "", "status", status);
    assert rr.params == p;
    DepositOrder(init, coin, status, startTime, endTime);
  }

  /** WithdrawHistory: signed GET /sapi/v1/capital/withdraw/history. */
  method WithdrawHistory(c: ApiClient, coin: string, startTime: string, endTime: string, status: string, mac: Mac, now: nat)
    returns (r: Result<HttpRequest, Error>)
    ensures BuildFails(r, c.apiBaseUrl + "/sapi/v1/capital/withdraw/history")
    ensures r.Success? ==> var url := c.apiBaseUrl + "/sapi/v1/capital/withdraw/history";
      fresh(r.value) && Built(r.value, "GET", url, BinanceClient.ApiKeyHeaders(c.apiKey),
             SignedQuery(HistoryParams(UrlQuery(url), coin, startTime, endTime, status), c.secretKey, mac, now))
  {
    var url := c.apiBaseUrl + "/sapi/v1/capital/withdraw/history";
    StandardMethods();
    var b := NewRequestBuilder("GET", url);
    if b.Failure? {
      return Failure(b.error);
    }
    var rr := b.value.WithHeader(ApiKeyHeaderName, c.apiKey);
    AddWithdrawFilters(rr, coin, startTime, endTime, status);
    var rq := rr.SignedRequest(c.secretKey, mac, now);
    return Success(rq);
  }

  /** DepositHistory: signed GET /sapi/v1/capital/deposit/hisrec; the keys
      are added in another order than in WithdrawHistory. */
  method DepositHistory(c: ApiClient, coin: string, status: string, startTime: string, endTime: string, mac: Mac, now: nat)
    returns (r: Result<HttpRequest, Error>)
    ensures BuildFails(r, c.apiBaseUrl + "/sapi/v1/capital/deposit/hisrec")
    ensures r.Success? ==> var url := c.apiBaseUrl + "/sapi/v1/capital/deposit/hisrec";
      fresh(r.value) && Built(r.value, "GET", url, BinanceClient.ApiKeyHeaders(c.apiKey),
             SignedQuery(HistoryParams(UrlQuery(url), coin, startTime, endTime, status), c.secretKey, mac, now))
  {
    var url := c.apiBaseUrl + "/sapi/v1/capital/deposit/hisrec";
    StandardMethods();
    var b := NewRequestBuilder("GET", url);
    if b.Failure? {
      return Failure(b.error);
    }
    var rr := b.value.WithHeader(ApiKeyHeaderName, c.apiKey);
    AddDepositFilters(rr, coin, startTime, endTime, status);
    var rq := rr.SignedRequest(c.secretKey, mac, now);
    return Success(rq);
  }

  /** The order DepositHistory adds its keys in gives HistoryParams. */
  lemma DepositOrder(init: Values, coin: string, status: string, startTime: string, endTime: string)
    ensures SetIf(SetIf(SetIf(SetIf(init, coin != "", "coin", coin), startTime != "", "startTime", startTime),
                        endTime != "", "endTime", endTime), status != "", "status", status)
         == HistoryParams(init, coin, startTime, endTime, status)
  {
    var a := SetIf(SetIf(SetIf(SetIf(init, coin != "", "coin", coin), startTime != "", "startTime", startTime),
                         endTime != "", "endTime", endTime), status != "", "status", status);
    var h := HistoryParams(init, coin, startTime, endTime, status);
    assert a.Keys == h.Keys;
    forall k | k in a ensures a[k] == h[k] {
    }
  }

  /** Withdraw: signed POST /sapi/v1/capital/withdraw/apply. */
  method Withdraw(c: ApiClient, coin: string, amount: string, address: string, network: string, name: string, orderId: string, mac: Mac, now: nat)
    returns (r: Result<HttpRequest, Error>)
    ensures BuildFails(r, c.apiBaseUrl + "/sapi/v1/capital/withdraw/apply")
    ensures r.Success? ==> var url := c.apiBaseUrl + "/sapi/v1/capital/withdraw/apply";
      fresh(r.value) && Built(r.value, "POST", url, BinanceClient.ApiKeyHeaders(c.apiKey),
             SignedQuery(WithdrawParams(UrlQuery(url), coin, amount, address, network, name, orderId), c.secretKey, mac, now))
  {
    var url := c.apiBaseUrl + "/sapi/v1/capital/withdraw/apply";
    StandardMethods();
    var b := NewRequestBuilder("POST", url);
    if b.Failure? {
      return Failure(b.error);
    }
    var rr := b.value.WithHeader(ApiKeyHeaderName, c.apiKey);
    rr := rr.WithParam("coin", coin);
    rr := rr.WithParam("withdrawOrderId", orderId);
    rr := rr.WithParam("network", network);
    rr := rr.WithParam("address", address);
    rr := rr.WithParam("name", name);
    rr := rr.WithParam("amount", amount);
    var rq := rr.SignedRequest(c.secretKey, mac, now);
    return Success(rq);
  }

  /** AssetTransfer: signed POST /sapi/v1/sub-account/universalTransfer. */
  method AssetTransfer(c: ApiClient, fromEmail: string, fromAccType: string, toEmail: string, toAccountType: string, asset: string, amount: string, mac: Mac, now: nat)
    returns (r: Result<HttpRequest, Error>)
    ensures BuildFails(r, c.apiBaseUrl + "/sapi/v1/sub-account/universalTransfer")
    ensures r.Success? ==> var url := c.apiBaseUrl + "/sapi/v1/sub-account/universalTransfer";
      fresh(r.value) && Built(r.value, "POST", url, BinanceClient.ApiKeyHeaders(c.apiKey),
             SignedQuery(AssetTransferParams(UrlQuery(url), fromEmail, fromAccType, toEmail, toAccountType, asset, amount), c.secretKey, mac, now))
  {
    var url := c.apiBaseUrl + "/sapi/v1/sub-account/universalTransfer";
    StandardMethods();
    var b := NewRequestBuilder("POST", url);
    if b.Failure? {
      return Failure(b.error);
    }
    var rr := b.value.WithHeader(ApiKeyHeaderName, c.apiKey);
    rr := rr.WithParam("fromEmail", fromEmail);
    rr := rr.WithParam("toEmail", toEmail);
    rr := rr.WithParam("asset", asset);
    rr := rr.WithParam("amount", amount);
    rr := rr.WithParam("fromAccountType", fromAccType);
    rr := rr.WithParam("toAccountType", toAccountType);
    var rq := rr.SignedRequest(c.secretKey, mac, now);
    return Success(rq);
  }

  /** GetSubAccountFutureSummary: signed GET
      /sapi/v2/sub-account/futures/accountSummary; page and limit are
      reassigned before they are sent. */
  method GetSubAccountFutureSummary(c: ApiClient, futuresType: int, page: int, limit: int, mac: Mac, now: nat)
    returns (r: Result<HttpRequest, Error>)
    ensures BuildFails(r, c.apiBaseUrl + "/sapi/v2/sub-account/futures/accountSummary")
    ensures r.Success? ==> var url := c.apiBaseUrl + "/sapi/v2/sub-account/futures/accountSummary";
      fresh(r.value) && Built(r.value, "GET", url, BinanceClient.ApiKeyHeaders(c.apiKey),
             SignedQuery(FutureSummaryParams(UrlQuery(url), futuresType, page, limit), c.secretKey, mac, now))
  {
    var url := c.apiBaseUrl + "/sapi/v2/sub-account/futures/accountSummary";
    StandardMethods();
    var b := NewRequestBuilder("GET", url);
    if b.Failure? {
      return Failure(b.error);
    }
    var req := b.value.WithParam("futuresType", FormatInt(futuresType));
    var page' := page;
    if page' < 1 {
      page' := 1;
    }
    req := req.WithParam("page", FormatInt(page'));
    var limit' := limit;
    if limit' == 0 {
      limit' := 10;
    }
    req := req.WithParam("limit", FormatInt(limit'));
    var rr := req.WithHeader(ApiKeyHeaderName, c.apiKey);
    var rq := rr.SignedRequest(c.secretKey, mac, now);
    return Success(rq);
  }

  /** GetExchangeInfo (/api/v3/exchangeInfo), GetServerTime (/api/v3/time)
      and TickerData (/api/v3/ticker/bookTicker): unsigned GETs with no
      parameters and no key header. */
  method PublicRequest(c: ApiClient, path: string) returns (r: Result<HttpRequest, Error>)
    ensures BuildFails(r, c.apiBaseUrl + path)
    ensures r.Success? ==> var url := c.apiBaseUrl + path;
      fresh(r.value) && Built(r.value, "GET", url, map[], Encode(UrlQuery(url)))
  {
    var url := c.apiBaseUrl + path;
    StandardMethods();
    var b := NewRequestBuilder("GET", url);
    if b.Failure? {
      return Failure(b.error);
    }
    var rq := b.value.Request();
    return Success(rq);
  }

  /** GetOrderBook: unsigned GET /api/v3/depth with symbol and limit. */
  method GetOrderBook(c: ApiClient, symbol: string, limit: string) returns (r: Result<HttpRequest, Error>)
    ensures BuildFails(r, c.apiBaseUrl + "/api/v3/depth")
    ensures r.Success? ==> var url := c.apiBaseUrl + "/api/v3/depth";
      fresh(r.value) && Built(r.value, "GET", url, map[], Encode(OrderBookParams(UrlQuery(url), symbol, limit)))
  {
    var url := c.apiBaseUrl + "/api/v3/depth";
    StandardMethods();
    var b := NewRequestBuilder("GET", url);
    if b.Failure? {
      return Failure(b.error);
    }
    var rr := b.value.WithParam("symbol", symbol);
    rr := rr.WithParam("limit", limit);
    var rq := rr.Request();
    return Success(rq);
  }
}
