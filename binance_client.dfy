/**
 * The REST client of binance_client.go: requests made with http.NewRequest
 * and the API-key header, the signing written out inline for the account
 * state, the open orders and the order status, the listen-key calls, and
 * doRequest, which sorts a reply into success or error.
 *
 * Nothing is sent: the reply to a request is an `HttpOutcome` input, the
 * JSON decoding of a body is a `Decoder` input, the HMAC is a `Mac` input
 * and the clock is the `now` input (milliseconds).
 */
module BinanceClient {
  import opened Wrappers
  import opened Text
  import opened UrlValues
  import opened Common
  import opened Requests

  const ApiBaseUrl: string := "https://api.binance.com"
  const UserDataStreamPath: string := "/api/v3/userDataStream"

  /** What the HTTP round trip gave back. */
  datatype HttpOutcome =
    | TransportFailed(cause: Error)   // httpClient.Do failed
    | ReadFailed(cause: Error)        // reading the body failed
    | Response(status: int, body: string)

  /** json.Unmarshal into the caller's target. */
  type Decoder<T> = string -> Result<T, Error>

  /** The text of the error for a status other than 200. */
  function StatusErrorText(status: int, body: string): string {
    "got unexpected status code " + FormatInt(status) + ", body=" + body
  }

  /** doRequest after the round trip. `data` is None where the caller
      passes a nil target; the value is the decoded target, if any. */
  function DoRequest<T>(o: HttpOutcome, data: Option<Decoder<T>>): (r: Result<Option<T>, Error>)
    ensures r.Success? <==> o.Response? && o.status == 200 && (data.None? || data.value(o.body).Success?)
    ensures r.Success? ==> r.value == (if data.None? then None else Some(data.value(o.body).value))
    ensures o.TransportFailed? ==> r == Failure(Wrap(o.cause, "failed to execute the request"))
    ensures o.ReadFailed? ==> r == Failure(o.cause)
    ensures o.Response? && o.status != 200 ==> r == Failure(Plain(StatusErrorText(o.status, o.body)))
    ensures o.Response? && o.status == 200 && data.Some? && r.Failure? ==>
              r.error == Wrap(data.value(o.body).error, "failed to parse data into struct")
  {
    match o
    case TransportFailed(cause) => Failure(Wrap(cause, "failed to execute the request"))
    case ReadFailed(cause) => Failure(cause)
    case Response(status, body) =>
      if status != 200 then Failure(Plain(StatusErrorText(status, body)))
      else
        match data
        case None => Success(None)
        case Some(decode) =>
          match decode(body)
          case Success(v) => Success(Some(v))
          case Failure(e) => Failure(Wrap(e, "failed to parse data into struct"))
  }

  /** The status error carries the status code and the body: different
      replies give different texts. */
  lemma StatusErrorTextInjective(s1: int, b1: string, s2: int, b2: string)
    ensures StatusErrorText(s1, b1) == StatusErrorText(s2, b2) ==> s1 == s2 && b1 == b2
  {
    var p := "got unexpected status code ";
    if StatusErrorText(s1, b1) == StatusErrorText(s2, b2) {
      var t1 := FormatInt(s1) + [','] + (" body=" + b1);
      var t2 := FormatInt(s2) + [','] + (" body=" + b2);
      assert StatusErrorText(s1, b1) == p + t1;
      assert StatusErrorText(s2, b2) == p + t2;
      assert t1 == (p + t1)[|p|..];
      assert t2 == (p + t2)[|p|..];
      FormatIntThenSeparator(s1, " body=" + b1, s2, " body=" + b2, ',');
      assert b1 == (" body=" + b1)[6..];
      assert b2 == (" body=" + b2)[6..];
    }
  }

  /** With a nil target every 200 reply succeeds, whatever its body, and
      nothing else does. */
  lemma NilTargetIgnoresBody<T>(o: HttpOutcome)
    ensures DoRequest<T>(o, None).Success? <==> o.Response? && o.status == 200
    ensures DoRequest<T>(o, None).Success? ==> DoRequest<T>(o, None).value == None
  {
  }

  /** Every status other than 200, other 2xx codes included, is an error
      that names the status and the body. */
  lemma OtherStatusFails<T>(status: int, body: string, data: Option<Decoder<T>>)
    requires status != 200
    ensures DoRequest(Response(status, body), data) == Failure(Plain(StatusErrorText(status, body)))
  {
  }

  // ------------------------------------------------------------ plain URLs

  /** Text that url.Parse takes as it is: printable ASCII other than the
      space, with no fragment and no query. */
  predicate PlainText(s: string) {
    forall i :: 0 <= i < |s| ==> ' ' < s[i] <= '~' && s[i] != '#' && s[i] != '?'
  }

  lemma PlainChars(s: string)
    requires PlainText(s)
    ensures forall c :: c in s ==> !IsCtl(c) && c != '#' && c != '?'
  {
    forall c | c in s ensures !IsCtl(c) && c != '#' && c != '?' {
      var i :| 0 <= i < |s| && s[i] == c;
    }
  }

  lemma PlainNoCtl(s: string)
    requires forall c :: c in s ==> !IsCtl(c)
    ensures !HasCtl(s)
  {
    forall i | 0 <= i < |s| ensures !IsCtl(s[i]) {
      assert s[i] in s;
    }
  }

  lemma PlainUrl(u: string)
    requires PlainText(u)
    ensures SplitUrl(u) == Success((u, ""))
  {
    PlainChars(u);
    PlainNoCtl(u);
  }

  lemma PlainJoin(a: string, b: string)
    requires PlainText(a) && PlainText(b)
    ensures PlainText(a + b)
  {
    forall i | |a| <= i < |a + b| ensures (a + b)[i] == b[i - |a|] {}
  }

  /** The paths the client calls are plain text. */
  lemma PathsPlain()
    ensures PlainText(UserDataStreamPath) && PlainText("/api/v3/account")
    ensures PlainText("/api/v3/openOrders") && PlainText("/api/v3/order")
  {
  }

  lemma BasePlain()
    ensures PlainText(ApiBaseUrl)
  {
  }

  /** A path under the base URL parses to itself with an empty query. */
  lemma EndpointUrl(path: string)
    requires PlainText(path)
    ensures SplitUrl(ApiBaseUrl + path) == Success((ApiBaseUrl + path, ""))
  {
    BasePlain();
    PlainJoin(ApiBaseUrl, path);
    PlainUrl(ApiBaseUrl + path);
  }

  /** The keep-alive URL: the listen key, not escaped, is the raw query. */
  lemma KeepAliveUrl(listenKey: string)
    requires '#' !in listenKey && forall c :: c in listenKey ==> !IsCtl(c)
    ensures SplitUrl(ApiBaseUrl + UserDataStreamPath + "?listenKey=" + listenKey)
         == Success((ApiBaseUrl + UserDataStreamPath, "listenKey=" + listenKey))
  {
    var a := ApiBaseUrl + UserDataStreamPath;
    var u := a + "?listenKey=" + listenKey;
    PathsPlain();
    BasePlain();
    PlainJoin(ApiBaseUrl, UserDataStreamPath);
    PlainChars(a);
    assert u == a + ['?'] + ("listenKey=" + listenKey);
    assert '#' !in u;
    assert Cut(u, '#') == (u, "", false);
    PlainNoCtl(u);
    CutAtFirst(a, '?', "listenKey=" + listenKey);
  }

  // ---------------------------------------------------------------- Client

  datatype Client = Client(apiKey: string, secretKey: string)

  datatype ListenKey = ListenKey(listenKey: string)

  /** The one header every call sets, under its canonical key. */
  function ApiKeyHeaders(apiKey: string): (h: map<string, seq<string>>)
    ensures h == map["X-Mbx-Apikey" := [apiKey]]
  {
    ApiKeyHeader();
    map[CanonicalHeaderKey(ApiKeyHeaderName) := [apiKey]]
  }

  /** The inline signing: the query already in the URL, then timestamp and
      recvWindow, then the signature of that encoding. The same text the
      builder's SignedRequest produces for the same parameters. */
  method SignInline(req: HttpRequest, secret: string, mac: Mac, now: nat)
    modifies req
    ensures req.rawQuery == SignedQuery(old(req.Query()), secret, mac, now)
    ensures unchanged(req`header)
  {
    var q := req.Query();
    SignValues(req, q, secret, mac, now);
  }

  /** The signing steps on parameters a wrapper has already collected from
      the request's query. */
  method SignValues(req: HttpRequest, params: Values, secret: string, mac: Mac, now: nat)
    modifies req
    ensures req.rawQuery == SignedQuery(params, secret, mac, now)
    ensures unchanged(req`header)
  {
    var q := params;
    var sig: Values := map[];
    q := Set(q, "timestamp", FormatInt(now));
    q := Set(q, "recvWindow", "5000");
    sig := Set(sig, "signature", Sign(Encode(q), secret, mac));
    req.rawQuery := Encode(q) + "&" + Encode(sig);
  }

  /** http.NewRequest on a plain path under the base URL, which parses, so
      the request is always built; then the key header. */
  method Open(httpMethod: string, path: string, apiKey: string) returns (sent: HttpRequest)
    requires httpMethod == "GET" || httpMethod == "POST"
    requires PlainText(path)
    ensures fresh(sent) && sent.httpMethod == httpMethod && sent.target == ApiBaseUrl + path
    ensures sent.rawQuery == "" && sent.header == ApiKeyHeaders(apiKey)
  {
    EndpointUrl(path);
    var r := NewRequest(httpMethod, ApiBaseUrl + path);
    if r.Failure? {
      assert false;
    }
    sent := r.value;
    sent.SetHeader(ApiKeyHeaderName, apiKey);
  }

  /** CreateListenKey: POST to the user-data-stream path with the key
      header; "" and the error on any failure, the decoded key otherwise. */
  method CreateListenKey(c: Client, reply: HttpOutcome, decode: Decoder<ListenKey>)
    returns (sent: HttpRequest, key: string, err: Option<Error>)
    ensures fresh(sent) && sent.httpMethod == "POST" && sent.target == ApiBaseUrl + UserDataStreamPath
    ensures sent.rawQuery == "" && sent.header == ApiKeyHeaders(c.apiKey)
    ensures DoRequest(reply, Some(decode)).Failure? ==> key == "" && err == Some(DoRequest(reply, Some(decode)).error)
    ensures DoRequest(reply, Some(decode)).Success? ==> key == decode(reply.body).value.listenKey && err == None
  {
    PathsPlain();
    sent := Open("POST", UserDataStreamPath, c.apiKey);
    var res := DoRequest(reply, Some(decode));
    if res.Failure? {
      return sent, "", Some(res.error);
    }
    return sent, res.value.value.listenKey, None;
  }

  /** KeepListenKeyAlive: PUT with the listen key pasted into the URL
      unescaped and a nil target, so any 200 reply is a success. A key that
      makes the URL unparsable fails before anything is sent. */
  method KeepListenKeyAlive(c: Client, listenKey: string, reply: HttpOutcome)
    returns (sent: Option<HttpRequest>, err: Option<Error>)
    ensures var u := SplitUrl(ApiBaseUrl + UserDataStreamPath + "?listenKey=" + listenKey);
      && (sent.None? <==> u.Failure?)
      && (sent.None? ==> err == Some(u.error))
      && (sent.Some? ==> fresh(sent.value) && sent.value.httpMethod == "PUT"
                         && (sent.value.target, sent.value.rawQuery) == u.value
                         && sent.value.header == ApiKeyHeaders(c.apiKey)
                         && (err.None? <==> reply.Response? && reply.status == 200)
                         && (err.Some? ==> err == Some(DoRequest<()>(reply, None).error)))
  {
    var r := NewRequest("PUT", ApiBaseUrl + UserDataStreamPath + "?listenKey=" + listenKey);
    if r.Failure? {
      return None, Some(r.error);
    }
    var req := r.value;
    req.SetHeader(ApiKeyHeaderName, c.apiKey);
    var res := DoRequest<()>(reply, None);
    NilTargetIgnoresBody<()>(reply);
    sent := Some(req);
    err := if res.Failure? then Some(res.error) else None;
  }

  /** GetAccountState: GET /api/v3/account signed inline. */
  method GetAccountState(c: Client, mac: Mac, now: nat, reply: HttpOutcome, decode: Decoder<AccountState>)
    returns (sent: HttpRequest, result: Result<AccountState, Error>)
    ensures fresh(sent) && sent.httpMethod == "GET" && sent.target == ApiBaseUrl + "/api/v3/account"
    ensures sent.rawQuery == SignedQuery(map[], c.secretKey, mac, now)
    ensures sent.header == ApiKeyHeaders(c.apiKey)
    ensures result.Success? <==> DoRequest(reply, Some(decode)).Success?
    ensures result.Success? ==> result.value == decode(reply.body).value
    ensures result.Failure? ==> result.error == DoRequest(reply, Some(decode)).error
  {
    PathsPlain();
    sent := Open("GET", "/api/v3/account", c.apiKey);
    SignInline(sent, c.secretKey, mac, now);
    var res := DoRequest(reply, Some(decode));
    result := if res.Failure? then Failure(res.error) else Success(res.value.value);
  }

  /** GetOpenOrders: GET /api/v3/openOrders signed inline. The order type
      is left to the decoder. */
  method GetOpenOrders<T>(c: Client, mac: Mac, now: nat, reply: HttpOutcome, decode: Decoder<T>)
    returns (sent: HttpRequest, result: Result<T, Error>)
    ensures fresh(sent) && sent.httpMethod == "GET" && sent.target == ApiBaseUrl + "/api/v3/openOrders"
    ensures sent.rawQuery == SignedQuery(map[], c.secretKey, mac, now)
    ensures sent.header == ApiKeyHeaders(c.apiKey)
    ensures result.Success? <==> DoRequest(reply, Some(decode)).Success?
    ensures result.Success? ==> result.value == decode(reply.body).value
    ensures result.Failure? ==> result.error == DoRequest(reply, Some(decode)).error
  {
    PathsPlain();
    sent := Open("GET", "/api/v3/openOrders", c.apiKey);
    SignInline(sent, c.secretKey, mac, now);
    var res := DoRequest(reply, Some(decode));
    result := if res.Failure? then Failure(res.error) else Success(res.value.value);
  }

  /** The parameters OrderStatus adds before signing; the id is written in
      base 10 (int64 and Go's int agree on 64-bit targets). */
  function OrderStatusParams(symbol: string, id: int): Values {
    var empty: Values := map[];
    Set(Set(empty, "symbol", symbol), "orderId", FormatInt(id))
  }

  /** OrderStatus: GET /api/v3/order with symbol and orderId, signed
      inline; the decoded order when doRequest succeeds, its error otherwise. */
  method OrderStatus<T>(c: Client, symbol: string, id: int, mac: Mac, now: nat, reply: HttpOutcome, decode: Decoder<T>)
    returns (sent: HttpRequest, result: Result<T, Error>)
    ensures fresh(sent) && sent.httpMethod == "GET" && sent.target == ApiBaseUrl + "/api/v3/order"
    ensures sent.rawQuery == SignedQuery(OrderStatusParams(symbol, id), c.secretKey, mac, now)
    ensures sent.header == ApiKeyHeaders(c.apiKey)
    ensures result.Success? <==> DoRequest(reply, Some(decode)).Success?
    ensures result.Success? ==> result.value == decode(reply.body).value
    ensures result.Failure? ==> result.error == DoRequest(reply, Some(decode)).error
  {
    PathsPlain();
    sent := Open("GET", "/api/v3/order", c.apiKey);
    var q := sent.Query();
    q := Set(q, "symbol", symbol);
    q := Set(q, "orderId", FormatInt(id));
    SignValues(sent, q, c.secretKey, mac, now);
    var res := DoRequest(reply, Some(decode));
    result := if res.Failure? then Failure(res.error) else Success(res.value.value);
  }

  /** The text OrderStatus signs holds the symbol and the decimal id, so
      the signature covers both. */
  lemma OrderStatusSigned(symbol: string, id: int, now: nat)
    ensures var signed := Encode(SigningParams(OrderStatusParams(symbol, id), now));
      && ValuesOf(ParseQuery(signed), "symbol") == [symbol]
      && ValuesOf(ParseQuery(signed), "orderId") == [FormatInt(id)]
  {
    var p := OrderStatusParams(symbol, id);
    var empty: Values := map[];
    SetNoEmptyLists(empty, "symbol", symbol);
    SetNoEmptyLists(Set(empty, "symbol", symbol), "orderId", FormatInt(id));
    SigningParamsNoEmptyLists(p, now);
    ParseEncodeRoundTrip(SigningParams(p, now));
    SigningParamsOverwrite(p, now);
  }

  /** The query OrderStatus sends parses back to the symbol and the id. */
  lemma OrderStatusSent(symbol: string, id: int, secret: string, mac: Mac, now: nat)
    ensures var sent := ParseQuery(SignedQuery(OrderStatusParams(symbol, id), secret, mac, now));
      && ValuesOf(sent, "symbol") == [symbol]
      && ValuesOf(sent, "orderId") == [FormatInt(id)]
  {
    var p := OrderStatusParams(symbol, id);
    var empty: Values := map[];
    SetNoEmptyLists(empty, "symbol", symbol);
    SetNoEmptyLists(Set(empty, "symbol", symbol), "orderId", FormatInt(id));
    SignedQueryParses(p, secret, mac, now);
    var sp := SigningParams(p, now);
    SigningParamsOverwrite(p, now);
    assert |"symbol"| != |"timestamp"| && |"symbol"| != |"recvWindow"| && |"symbol"| != |"signature"|;
    assert |"orderId"| != |"timestamp"| && |"orderId"| != |"recvWindow"| && |"orderId"| != |"signature"|;
    assert sp["symbol"] == [symbol] && sp["orderId"] == [FormatInt(id)];
  }
}
