/**
 * The margin wrappers of binance_margin.go. Unlike the spot wrappers they
 * build their URL from the fixed base URL, which parses, so the builder
 * never fails and the parameters start empty. Each wrapper is a method
 * that drives the builder as the source does; the parameter rule is the
 * function its contract names, and the `...Sent` lemmas read the query
 * back to see what reaches the server.
 */
module Margin {
  import opened Wrappers
  import opened Text
  import opened UrlValues
  import opened Common
  import opened Requests
  import opened Endpoints
  import BinanceClient

  /** Every margin path starts with this prefix. */
  const MarginPrefix := "/sapi/v1/margin"
  const TransferPath := MarginPrefix + "/transfer"
  const LoanPath := MarginPrefix + "/loan"
  const RepayPath := MarginPrefix + "/repay"
  const AssetPath := MarginPrefix + "/asset"
  const PairPath := MarginPrefix + "/pair"
  const AllAssetsPath := MarginPrefix + "/allAssets"
  const AccountPath := MarginPrefix + "/account"
  const MaxBorrowablePath := MarginPrefix + "/maxBorrowable"
  const IsolatedTransferPath := MarginPrefix + "/isolated/transfer"
  const IsolatedAccountPath := MarginPrefix + "/isolated/account"

  /** Every margin path is plain text: no query, no fragment, no control
      character, so every URL below parses. */
  lemma PathsPlain()
    ensures BinanceClient.PlainText(TransferPath) && BinanceClient.PlainText(LoanPath)
    ensures BinanceClient.PlainText(RepayPath) && BinanceClient.PlainText(AssetPath)
    ensures BinanceClient.PlainText(PairPath) && BinanceClient.PlainText(AllAssetsPath)
    ensures BinanceClient.PlainText(AccountPath) && BinanceClient.PlainText(MaxBorrowablePath)
    ensures BinanceClient.PlainText(IsolatedTransferPath) && BinanceClient.PlainText(IsolatedAccountPath)
  {
    SuffixesPlain();
    BinanceClient.PlainJoin(MarginPrefix, "/transfer");
    BinanceClient.PlainJoin(MarginPrefix, "/loan");
    BinanceClient.PlainJoin(MarginPrefix, "/repay");
    BinanceClient.PlainJoin(MarginPrefix, "/asset");
    BinanceClient.PlainJoin(MarginPrefix, "/pair");
    BinanceClient.PlainJoin(MarginPrefix, "/allAssets");
    BinanceClient.PlainJoin(MarginPrefix, "/account");
    BinanceClient.PlainJoin(MarginPrefix, "/maxBorrowable");
    BinanceClient.PlainJoin(MarginPrefix, "/isolated/transfer");
    BinanceClient.PlainJoin(MarginPrefix, "/isolated/account");
  }

  lemma SuffixesPlain()
    ensures BinanceClient.PlainText(MarginPrefix)
    ensures BinanceClient.PlainText("/transfer") && BinanceClient.PlainText("/loan")
    ensures BinanceClient.PlainText("/repay") && BinanceClient.PlainText("/asset")
    ensures BinanceClient.PlainText("/pair") && BinanceClient.PlainText("/allAssets")
    ensures BinanceClient.PlainText("/account") && BinanceClient.PlainText("/maxBorrowable")
    ensures BinanceClient.PlainText("/isolated/transfer") && BinanceClient.PlainText("/isolated/account")
  {
    IsolatedSuffixesPlain();
  }

  lemma IsolatedSuffixesPlain()
    ensures BinanceClient.PlainText("/isolated/transfer") && BinanceClient.PlainText("/isolated/account")
  {
  }

  /** The request a margin wrapper sends: method, fixed base URL plus path,
      the key header, and the raw query. */
  predicate Sent(req: HttpRequest, httpMethod: string, path: string, apiKey: string, rawQuery: string)
    reads req
  {
    && req.httpMethod == httpMethod
    && req.target == BinanceClient.ApiBaseUrl + path
    && req.header == BinanceClient.ApiKeyHeaders(apiKey)
    && req.rawQuery == rawQuery
  }

  /** NewRequestBuilder on the fixed base URL and WithHeader: a builder
      with no parameters whose request has the key header. */
  method Begin(httpMethod: string, path: string, apiKey: string) returns (rr: RequestBuilder)
    requires httpMethod == "GET" || httpMethod == "POST"
    requires BinanceClient.PlainText(path)
    ensures fresh(rr) && fresh(rr.req) && rr.Valid() && rr.params == map[]
    ensures Sent(rr.req, httpMethod, path, apiKey, "")
  {
    StandardMethods();
    BinanceClient.EndpointUrl(path);
    var b := NewRequestBuilder(httpMethod, BinanceClient.ApiBaseUrl + path);
    if b.Failure? {
      assert false;
    }
    rr := b.value.WithHeader(ApiKeyHeaderName, apiKey);
  }

  // ------------------------------------------------------- parameter rules

  /** The transfer type: "1" from spot to margin, "2" the other way. */
  function TransferType(spotToMargin: bool): (t: string)
    ensures t == "1" <==> spotToMargin
    ensures t == "1" || t == "2"
  {
    if spotToMargin then "1" else "2"
  }

  /** TransferCrossMargin: asset, amount and the transfer type. */
  function CrossTransferParams(asset: string, amount: string, spotToMargin: bool): (p: Values)
    ensures p.Keys == {"asset", "amount", "type"}
    ensures p["asset"] == [asset] && p["amount"] == [amount] && p["type"] == [TransferType(spotToMargin)]
  {
    var none: Values := map[];
    none["asset" := [asset]]["amount" := [amount]]["type" := [TransferType(spotToMargin)]]
  }

  /** `if isIsolated { rr = rr.WithParam("isIsolated", "TRUE").WithParam("symbol", symbol) }`. */
  function IsolatedFlag(v: Values, isIsolated: bool, symbol: string): (p: Values)
    ensures p.Keys == v.Keys + (if isIsolated then {"isIsolated", "symbol"} else {})
    ensures isIsolated ==> p["isIsolated"] == ["TRUE"] && p["symbol"] == [symbol]
    ensures !isIsolated ==> p == v
  {
    if isIsolated then v["isIsolated" := ["TRUE"]]["symbol" := [symbol]] else v
  }

  /** Borrow and Repay: asset and amount, the flag and the symbol only for
      an isolated account. */
  function LoanParams(asset: string, symbol: string, amount: string, isIsolated: bool): (p: Values)
    ensures p.Keys == {"asset", "amount"} + (if isIsolated then {"isIsolated", "symbol"} else {})
    ensures p["asset"] == [asset] && p["amount"] == [amount]
    ensures isIsolated ==> p["isIsolated"] == ["TRUE"] && p["symbol"] == [symbol]
  {
    var none: Values := map[];
    IsolatedFlag(none["asset" := [asset]]["amount" := [amount]], isIsolated, symbol)
  }

  /** GetMaxBorrowable: asset and isolatedSymbol, both always sent. */
  function MaxBorrowableParams(asset: string, isolatedSymbol: string): (p: Values)
    ensures p.Keys == {"asset", "isolatedSymbol"}
    ensures p["asset"] == [asset] && p["isolatedSymbol"] == [isolatedSymbol]
  {
    var none: Values := map[];
    none["asset" := [asset]]["isolatedSymbol" := [isolatedSymbol]]
  }

  /** TransferIsolatedMargin: the wallets are sent by their String() names. */
  function IsolatedTransferParams(asset: string, symbol: string, amount: string, transFrom: int, transTo: int): (p: Values)
    ensures p.Keys == {"asset", "symbol", "transFrom", "transTo", "amount"}
    ensures p["asset"] == [asset] && p["symbol"] == [symbol] && p["amount"] == [amount]
    ensures p["transFrom"] == [WalletTypeString(transFrom)] && p["transTo"] == [WalletTypeString(transTo)]
  {
    var none: Values := map[];
    none["asset" := [asset]]["symbol" := [symbol]]["transFrom" := [WalletTypeString(transFrom)]]
        ["transTo" := [WalletTypeString(transTo)]]["amount" := [amount]]
  }

  /** GetIsolatedMarginAccountDetails: the comma-joined symbols, only when
      there are any. */
  function IsolatedAccountParams(symbols: seq<string>): (p: Values)
    ensures p.Keys == (if |symbols| > 0 then {"symbols"} else {})
    ensures |symbols| > 0 ==> p["symbols"] == [Join(symbols, ",")]
  {
    var none: Values := map[];
    if |symbols| > 0 then none["symbols" := [Join(symbols, ",")]] else none
  }

  // ---------------------------------------------------------------- results

  /** The result of the transfer, borrow and repay calls. */
  datatype MarginCommonResult = MarginCommonResult(tranId: nat)

  /** `if err != nil { return 0, fwd, err }; return result.TranID, fwd, err`. */
  function TranIdOutcome(reply: Reply<MarginCommonResult>): (r: (nat, Option<FwdData>, Option<Error>))
    ensures r.1 == reply.fwd && r.2 == reply.err
    ensures r.0 == (if reply.err.Some? then 0 else reply.result.tranId)
  {
    FieldOr(reply, (m: MarginCommonResult) => m.tranId, 0)
  }

  // --------------------------------------------------------------- requests

  /** TransferCrossMargin: signed POST. */
  method TransferCrossMargin(c: ApiClient, asset: string, amount: string, spotToMargin: bool, mac: Mac, now: nat)
    returns (sent: HttpRequest)
    ensures fresh(sent)
    ensures Sent(sent, "POST", TransferPath, c.apiKey,
                 SignedQuery(CrossTransferParams(asset, amount, spotToMargin), c.secretKey, mac, now))
  {
    var transType := "2";
    if spotToMargin {
      transType := "1";
    }
    PathsPlain();
    var rr := Begin("POST", TransferPath, c.apiKey);
    rr := rr.WithParam("asset", asset);
    rr := rr.WithParam("amount", amount);
    rr := rr.WithParam("type", transType);
    sent := rr.SignedRequest(c.secretKey, mac, now);
  }

  /** The conditional part of Borrow's and Repay's chain. */
  method AddIsolatedFlag(rr: RequestBuilder, isIsolated: bool, symbol: string)
    requires rr.Valid()
    modifies rr
    ensures rr.Valid()
    ensures rr.params == IsolatedFlag(old(rr.params), isIsolated, symbol)
  {
    if isIsolated {
      var r := rr.WithParam("isIsolated", "TRUE");
      r := r.WithParam("symbol", symbol);
    }
  }

  /** Borrow: POST /sapi/v1/margin/loan, signed. */
  method Borrow(c: ApiClient, asset: string, symbol: string, amount: string, isIsolated: bool, mac: Mac, now: nat)
    returns (sent: HttpRequest)
    ensures fresh(sent)
    ensures Sent(sent, "POST", LoanPath, c.apiKey, SignedQuery(LoanParams(asset, symbol, amount, isIsolated), c.secretKey, mac, now))
  {
    PathsPlain();
    sent := LoanRequest(c, LoanPath, asset, symbol, amount, isIsolated, mac, now);
  }

  /** Repay: the same chain as Borrow on POST /sapi/v1/margin/repay. */
  method Repay(c: ApiClient, asset: string, symbol: string, amount: string, isIsolated: bool, mac: Mac, now: nat)
    returns (sent: HttpRequest)
    ensures fresh(sent)
    ensures Sent(sent, "POST", RepayPath, c.apiKey, SignedQuery(LoanParams(asset, symbol, amount, isIsolated), c.secretKey, mac, now))
  {
    PathsPlain();
    sent := LoanRequest(c, RepayPath, asset, symbol, amount, isIsolated, mac, now);
  }

  /** The chain Borrow and Repay share. */
  method LoanRequest(c: ApiClient, path: string, asset: string, symbol: string, amount: string, isIsolated: bool, mac: Mac, now: nat)
    returns (sent: HttpRequest)
    requires BinanceClient.PlainText(path)
    ensures fresh(sent)
    ensures Sent(sent, "POST", path, c.apiKey, SignedQuery(LoanParams(asset, symbol, amount, isIsolated), c.secretKey, mac, now))
  {
    var rr := Begin("POST", path, c.apiKey);
    rr := rr.WithParam("asset", asset);
    rr := rr.WithParam("amount", amount);
    AddIsolatedFlag(rr, isIsolated, symbol);
    assert rr.params == LoanParams(asset, symbol, amount, isIsolated);
    sent := rr.SignedRequest(c.secretKey, mac, now);
  }

  /** GetMarginAsset (asset) and GetMarginPair (symbol): one parameter,
      unsigned. */
  method LookupRequest(c: ApiClient, path: string, key: string, value: string) returns (sent: HttpRequest)
    requires (path == AssetPath && key == "asset") || (path == PairPath && key == "symbol")
    ensures fresh(sent)
    ensures Sent(sent, "GET", path, c.apiKey, Encode(map[key := [value]]))
  {
    PathsPlain();
    var rr := Begin("GET", path, c.apiKey);
    rr := rr.WithParam(key, value);
    sent := rr.Request();
  }

  /** GetAllMarginAssets: no parameters, unsigned. */
  method GetAllMarginAssets(c: ApiClient) returns (sent: HttpRequest)
    ensures fresh(sent)
    ensures Sent(sent, "GET", AllAssetsPath, c.apiKey, Encode(map[]))
  {
    PathsPlain();
    var rr := Begin("GET", AllAssetsPath, c.apiKey);
    sent := rr.Request();
  }

  /** GetCrossMarginAccountDetails: no parameters, signed. */
  method GetCrossMarginAccountDetails(c: ApiClient, mac: Mac, now: nat) returns (sent: HttpRequest)
    ensures fresh(sent)
    ensures Sent(sent, "GET", AccountPath, c.apiKey, SignedQuery(map[], c.secretKey, mac, now))
  {
    PathsPlain();
    var rr := Begin("GET", AccountPath, c.apiKey);
    sent := rr.SignedRequest(c.secretKey, mac, now);
  }

  /** GetMaxBorrowable: signed GET. */
  method GetMaxBorrowable(c: ApiClient, asset: string, isolatedSymbol: string, mac: Mac, now: nat) returns (sent: HttpRequest)
    ensures fresh(sent)
    ensures Sent(sent, "GET", MaxBorrowablePath, c.apiKey,
                 SignedQuery(MaxBorrowableParams(asset, isolatedSymbol), c.secretKey, mac, now))
  {
    PathsPlain();
    var rr := Begin("GET", MaxBorrowablePath, c.apiKey);
    rr := rr.WithParam("asset", asset);
    rr := rr.WithParam("isolatedSymbol", isolatedSymbol);
    sent := rr.SignedRequest(c.secretKey, mac, now);
  }

  /** TransferIsolatedMargin: signed POST. */
  method TransferIsolatedMargin(c: ApiClient, asset: string, symbol: string, amount: string, transFrom: int, transTo: int, mac: Mac, now: nat)
    returns (sent: HttpRequest)
    ensures fresh(sent)
    ensures Sent(sent, "POST", IsolatedTransferPath, c.apiKey,
                 SignedQuery(IsolatedTransferParams(asset, symbol, amount, transFrom, transTo), c.secretKey, mac, now))
  {
    PathsPlain();
    var rr := Begin("POST", IsolatedTransferPath, c.apiKey);
    rr := rr.WithParam("asset", asset);
    rr := rr.WithParam("symbol", symbol);
    rr := rr.WithParam("transFrom", WalletTypeString(transFrom));
    rr := rr.WithParam("transTo", WalletTypeString(transTo));
    rr := rr.WithParam("amount", amount);
    assert rr.params == IsolatedTransferParams(asset, symbol, amount, transFrom, transTo);
    sent := rr.SignedRequest(c.secretKey, mac, now);
  }

  /** GetIsolatedMarginAccountDetails: more than five symbols fail before a
      request is built; otherwise a signed GET. The source calls WithParam
      without keeping its result, which adds the parameter all the same
      because the builder is changed in place. */
  method GetIsolatedMarginAccountDetails(c: ApiClient, symbols: seq<string>, mac: Mac, now: nat)
    returns (r: Result<HttpRequest, Error>)
    ensures r.Failure? <==> |symbols| > 5
    ensures r.Failure? ==> r.error == Plain("the api only supports max 5 symbols")
    ensures r.Success? ==> fresh(r.value) && Sent(r.value, "GET", IsolatedAccountPath, c.apiKey,
                                                  SignedQuery(IsolatedAccountParams(symbols), c.secretKey, mac, now))
  {
    if |symbols| > 5 {
      return Failure(Plain("the api only supports max 5 symbols"));
    }
    PathsPlain();
    var rr := Begin("GET", IsolatedAccountPath, c.apiKey);
    if |symbols| > 0 {
      var _ := rr.WithParam("symbols", Join(symbols, ","));
    }
    assert rr.params == IsolatedAccountParams(symbols);
    var rq := rr.SignedRequest(c.secretKey, mac, now);
    return Success(rq);
  }

  // ------------------------------------------------------ what is sent

  /** The signing adds timestamp, recvWindow and signature, none of which
      is a margin parameter. */
  predicate SigningFree(k: string) {
    k != "timestamp" && k != "recvWindow" && k != "signature"
  }

  lemma MarginKeysUntouched()
    ensures SigningFree("asset") && SigningFree("amount") && SigningFree("type") && SigningFree("symbol")
    ensures SigningFree("isolatedSymbol") && SigningFree("symbols") && SigningFree("transTo")
    ensures SigningFree("transFrom") && SigningFree("isIsolated")
  {
    assert |"asset"| == 5 && |"amount"| == 6 && |"type"| == 4 && |"symbol"| == 6;
    assert |"isolatedSymbol"| == 14 && |"symbols"| == 7 && |"transTo"| == 7;
    assert "transFrom"[1] != "timestamp"[1] && "transFrom"[0] != "signature"[0];
    assert "isIsolated"[0] != "recvWindow"[0];
  }

  /** The transfer reaches the server with its asset, amount and type. */
  lemma CrossTransferSent(asset: string, amount: string, spotToMargin: bool, secret: string, mac: Mac, now: nat)
    ensures var q := ParseQuery(SignedQuery(CrossTransferParams(asset, amount, spotToMargin), secret, mac, now));
      && ValuesOf(q, "asset") == [asset] && ValuesOf(q, "amount") == [amount]
      && ValuesOf(q, "type") == [if spotToMargin then "1" else "2"]
  {
    var p := CrossTransferParams(asset, amount, spotToMargin);
    MarginKeysUntouched();
    SignedCarries(p, "asset", secret, mac, now);
    SignedCarries(p, "amount", secret, mac, now);
    SignedCarries(p, "type", secret, mac, now);
  }

  /** Borrow and Repay send the asset and the amount, and the isolated flag
      and the symbol exactly when the account is isolated. */
  lemma LoanSent(asset: string, symbol: string, amount: string, isIsolated: bool, secret: string, mac: Mac, now: nat)
    ensures var q := ParseQuery(SignedQuery(LoanParams(asset, symbol, amount, isIsolated), secret, mac, now));
      && ValuesOf(q, "asset") == [asset] && ValuesOf(q, "amount") == [amount]
      && ValuesOf(q, "isIsolated") == (if isIsolated then ["TRUE"] else [])
      && ValuesOf(q, "symbol") == (if isIsolated then [symbol] else [])
  {
    var p := LoanParams(asset, symbol, amount, isIsolated);
    LoanParamsNoEmptyLists(asset, symbol, amount, isIsolated);
    MarginKeysUntouched();
    SignedCarries(p, "asset", secret, mac, now);
    SignedCarries(p, "amount", secret, mac, now);
    LoanFlagSent(asset, symbol, amount, isIsolated, secret, mac, now);
  }

  lemma LoanParamsNoEmptyLists(asset: string, symbol: string, amount: string, isIsolated: bool)
    ensures NoEmptyLists(LoanParams(asset, symbol, amount, isIsolated))
  {
  }

  lemma LoanFlagSent(asset: string, symbol: string, amount: string, isIsolated: bool, secret: string, mac: Mac, now: nat)
    ensures var q := ParseQuery(SignedQuery(LoanParams(asset, symbol, amount, isIsolated), secret, mac, now));
      && ValuesOf(q, "isIsolated") == (if isIsolated then ["TRUE"] else [])
      && ValuesOf(q, "symbol") == (if isIsolated then [symbol] else [])
  {
    var p := LoanParams(asset, symbol, amount, isIsolated);
    LoanParamsNoEmptyLists(asset, symbol, amount, isIsolated);
    MarginKeysUntouched();
    if isIsolated {
      assert ValuesOf(p, "isIsolated") == ["TRUE"] && ValuesOf(p, "symbol") == [symbol];
    } else {
      assert |"isIsolated"| == 10 && |"asset"| == 5 && "symbol"[0] != "amount"[0];
      assert ValuesOf(p, "isIsolated") == [] && ValuesOf(p, "symbol") == [];
    }
    SignedCarries(p, "isIsolated", secret, mac, now);
    SignedCarries(p, "symbol", secret, mac, now);
  }

  /** GetMaxBorrowable sends both its parameters. */
  lemma MaxBorrowableSent(asset: string, isolatedSymbol: string, secret: string, mac: Mac, now: nat)
    ensures var q := ParseQuery(SignedQuery(MaxBorrowableParams(asset, isolatedSymbol), secret, mac, now));
      ValuesOf(q, "asset") == [asset] && ValuesOf(q, "isolatedSymbol") == [isolatedSymbol]
  {
    var p := MaxBorrowableParams(asset, isolatedSymbol);
    MarginKeysUntouched();
    SignedCarries(p, "asset", secret, mac, now);
    SignedCarries(p, "isolatedSymbol", secret, mac, now);
  }

  /** The isolated transfer sends the wallets by name. */
  lemma IsolatedTransferSent(asset: string, symbol: string, amount: string, transFrom: int, transTo: int, secret: string, mac: Mac, now: nat)
    ensures var q := ParseQuery(SignedQuery(IsolatedTransferParams(asset, symbol, amount, transFrom, transTo), secret, mac, now));
      && ValuesOf(q, "asset") == [asset] && ValuesOf(q, "symbol") == [symbol] && ValuesOf(q, "amount") == [amount]
      && ValuesOf(q, "transFrom") == [WalletTypeString(transFrom)] && ValuesOf(q, "transTo") == [WalletTypeString(transTo)]
  {
    var p := IsolatedTransferParams(asset, symbol, amount, transFrom, transTo);
    MarginKeysUntouched();
    SignedCarries(p, "asset", secret, mac, now);
    SignedCarries(p, "symbol", secret, mac, now);
    SignedCarries(p, "amount", secret, mac, now);
    SignedCarries(p, "transFrom", secret, mac, now);
    SignedCarries(p, "transTo", secret, mac, now);
  }

  /** The symbols go out joined by commas, and only when there are any. */
  lemma IsolatedAccountSent(symbols: seq<string>, secret: string, mac: Mac, now: nat)
    ensures var q := ParseQuery(SignedQuery(IsolatedAccountParams(symbols), secret, mac, now));
      ValuesOf(q, "symbols") == (if |symbols| > 0 then [Join(symbols, ",")] else [])
  {
    var p := IsolatedAccountParams(symbols);
    assert NoEmptyLists(p);
    assert SigningFree("symbols") by { MarginKeysUntouched(); }
    SignedCarries(p, "symbols", secret, mac, now);
    if |symbols| == 0 {
      assert "symbols" !in p;
    }
  }
}
