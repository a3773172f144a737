/**
 * request.go: the builder that holds an HTTP request and its query
 * parameters, adds headers and parameters, and finishes the request either
 * as is or signed (timestamp, recvWindow and an HMAC-SHA256 signature over
 * the encoded query). The HMAC is a function parameter (RFC 2104 over
 * FIPS 180-4 SHA-256 is not part of this model); the current time is a
 * parameter in milliseconds.
 */
module Requests {
  import opened Wrappers
  import opened Text
  import opened Hex
  import opened UrlValues
  import opened Common

  // ---------------------------------------------------------------- signing

  /** A SHA-256 output: 32 bytes. */
  type Digest = d: seq<Byte> | |d| == 32
    witness [0, 0, 0, 0, 0, 0, 0, 0, 0, 0, 0, 0, 0, 0, 0, 0, 0, 0, 0, 0, 0, 0, 0, 0, 0, 0, 0, 0, 0, 0, 0, 0]

  /** HMAC-SHA256 as a function of (key, message). */
  type Mac = (seq<Byte>, seq<Byte>) -> Digest

  /** sign: the lower-case hex of the HMAC of the message under the secret. */
  function Sign(msg: string, secret: string, mac: Mac): (sig: string)
    ensures |sig| == 64 && IsLowerHex(sig)
    ensures HexDecode(sig) == Some(mac(Utf8Encode(secret), Utf8Encode(msg)))
  {
    var d := mac(Utf8Encode(secret), Utf8Encode(msg));
    HexRoundTrip(d);
    HexEncode(d)
  }

  // -------------------------------------------------------- http.NewRequest

  /** The characters of an HTTP token (RFC 7230 tchar); method names and header keys are tokens. */
  predicate IsTokenChar(c: char) {
    ('a' <= c <= 'z') || ('A' <= c <= 'Z') || ('0' <= c <= '9') || c in "!#$%&'*+-.^_`|~"
  }

  predicate IsToken(s: string) {
    forall i :: 0 <= i < |s| ==> IsTokenChar(s[i])
  }

  /** The ASCII control characters url.Parse refuses. */
  predicate IsCtl(c: char) {
    c < ' ' || c == 127 as char
  }

  predicate HasCtl(s: string) {
    exists i :: 0 <= i < |s| && IsCtl(s[i])
  }

  /** The method http.NewRequest sends: "" means GET; anything else must be a token. */
  function RequestMethod(httpMethod: string): (r: Result<string, Error>)
    ensures r.Success? <==> httpMethod == "" || IsToken(httpMethod)
    ensures r.Success? ==> r.value == (if httpMethod == "" then "GET" else httpMethod) && r.value != ""
  {
    if httpMethod == "" then Success("GET")
    else if IsToken(httpMethod) then Success(httpMethod)
    else Failure(Plain("net/http: invalid method \"" + httpMethod + "\""))
  }

  /** What url.Parse keeps of a URL for the request: the part before the
      first '?' and the raw query after it, the fragment after '#' set aside.
      A control character before the fragment is an error. */
  function SplitUrl(url: string): (r: Result<(string, string), Error>)
    ensures r.Success? <==> !HasCtl(Cut(url, '#').0)
    ensures r.Success? ==> '?' !in r.value.0 && '#' !in r.value.1
    ensures r.Success? ==> Cut(url, '#').0 == r.value.0 + (if '?' in Cut(url, '#').0 then "?" + r.value.1 else "")
  {
    var (beforeFragment, _, _) := Cut(url, '#');
    if HasCtl(beforeFragment) then
      Failure(Wrapped("parse \"" + url + "\": ", Plain("net/url: invalid control character in URL")))
    else
      var (target, rawQuery, _) := Cut(beforeFragment, '?');
      Success((target, rawQuery))
  }

  // ------------------------------------------------------ header canonical form

  /** One character of the canonical form: a letter in upper case when
      `upper`, in lower case otherwise; any other character as it is. */
  function CaseChar(c: char, upper: bool): char {
    if upper && 'a' <= c <= 'z' then (c as int - 32) as char
    else if !upper && 'A' <= c <= 'Z' then (c as int + 32) as char
    else c
  }

  /** textproto's canonical form of a token: the first letter and every
      letter after '-' upper case, every other letter lower case. */
  function Canonical(s: string, upper: bool): (r: string)
    ensures |r| == |s|
    ensures EqualFoldAscii(r, s)
    ensures forall i :: 0 <= i < |r| && ('a' <= r[i] <= 'z' || 'A' <= r[i] <= 'Z') ==>
              ('A' <= r[i] <= 'Z' <==> (if i == 0 then upper else r[i - 1] == '-'))
  {
    if s == "" then ""
    else
      var c := CaseChar(s[0], upper);
      var rest := Canonical(s[1..], c == '-');
      var r := [c] + rest;
      assert forall i :: 0 < i < |r| ==> r[i] == rest[i - 1];
      r
  }

  /** CanonicalMIMEHeaderKey: a key holding a non-token character stays as it is. */
  function CanonicalHeaderKey(key: string): (r: string)
    ensures !IsToken(key) ==> r == key
    ensures IsToken(key) ==> |r| == |key| && EqualFoldAscii(r, key)
    ensures IsToken(key) ==> forall i :: 0 <= i < |r| && ('a' <= r[i] <= 'z' || 'A' <= r[i] <= 'Z') ==>
              ('A' <= r[i] <= 'Z' <==> (i == 0 || r[i - 1] == '-'))
  {
    if IsToken(key) then Canonical(key, true) else key
  }

  lemma {:induction false} CanonicalIdempotent(s: string, upper: bool)
    ensures Canonical(Canonical(s, upper), upper) == Canonical(s, upper)
    decreases |s|
  {
    if s != "" {
      var c := CaseChar(s[0], upper);
      var rest := Canonical(s[1..], c == '-');
      var r := Canonical(s, upper);
      assert r == [c] + rest;
      assert r[0] == c && r[1..] == rest;
      assert CaseChar(c, upper) == c;
      CanonicalIdempotent(s[1..], c == '-');
    }
  }

  lemma {:induction false} CanonicalToken(s: string, upper: bool)
    requires IsToken(s)
    ensures IsToken(Canonical(s, upper))
    decreases |s|
  {
    if s != "" {
      var r := Canonical(s, upper);
      CanonicalToken(s[1..], r[0] == '-');
      assert r == [r[0]] + Canonical(s[1..], r[0] == '-');
    }
  }

  /** Setting a header under its canonical key twice changes nothing more. */
  lemma CanonicalHeaderKeyIdempotent(key: string)
    ensures CanonicalHeaderKey(CanonicalHeaderKey(key)) == CanonicalHeaderKey(key)
  {
    if IsToken(key) {
      CanonicalToken(key, true);
      CanonicalIdempotent(key, true);
    }
  }

  /** The API key header is sent as "X-Mbx-Apikey". */
  lemma ApiKeyHeader()
    ensures CanonicalHeaderKey(ApiKeyHeaderName) == "X-Mbx-Apikey"
  {
    var r := CanonicalHeaderKey(ApiKeyHeaderName);
    ApiKeyHeaderHead();
    ApiKeyHeaderMiddle();
    ApiKeyHeaderTail();
    var t := "X-Mbx-Apikey";
    assert r == r[0..4] + r[4..8] + r[8..12];
    assert t == t[0..4] + t[4..8] + t[8..12];
  }

  // The three parts of ApiKeyHeader, each worked out character by character
  // from the contract of CanonicalHeaderKey.
  lemma ApiKeyHeaderHead()
    ensures CanonicalHeaderKey(ApiKeyHeaderName)[0..4] == "X-Mbx-Apikey"[0..4]
  {
    var k := ApiKeyHeaderName;
    assert IsToken(k);
    var r := CanonicalHeaderKey(k);
    assert LowerAscii(r[0]) == LowerAscii(k[0]);
    assert r[0] == 'X';
    assert LowerAscii(r[1]) == LowerAscii(k[1]);
    assert r[1] == '-';
    assert LowerAscii(r[2]) == LowerAscii(k[2]);
    assert r[2] == 'M';
    assert LowerAscii(r[3]) == LowerAscii(k[3]);
    assert r[3] == 'b';
  }

  lemma ApiKeyHeaderMiddle()
    ensures CanonicalHeaderKey(ApiKeyHeaderName)[4..8] == "X-Mbx-Apikey"[4..8]
  {
    var k := ApiKeyHeaderName;
    assert IsToken(k);
    var r := CanonicalHeaderKey(k);
    assert LowerAscii(r[3]) == LowerAscii(k[3]);
    assert LowerAscii(r[4]) == LowerAscii(k[4]);
    assert r[4] == 'x';
    assert LowerAscii(r[5]) == LowerAscii(k[5]);
    assert r[5] == '-';
    assert LowerAscii(r[6]) == LowerAscii(k[6]);
    assert r[6] == 'A';
    assert LowerAscii(r[7]) == LowerAscii(k[7]);
    assert r[7] == 'p';
  }

  lemma ApiKeyHeaderTail()
    ensures CanonicalHeaderKey(ApiKeyHeaderName)[8..12] == "X-Mbx-Apikey"[8..12]
  {
    var k := ApiKeyHeaderName;
    assert IsToken(k);
    var r := CanonicalHeaderKey(k);
    assert LowerAscii(r[7]) == LowerAscii(k[7]);
    assert LowerAscii(r[8]) == LowerAscii(k[8]);
    assert r[8] == 'i';
    assert LowerAscii(r[9]) == LowerAscii(k[9]);
    assert r[9] == 'k';
    assert LowerAscii(r[10]) == LowerAscii(k[10]);
    assert r[10] == 'e';
    assert LowerAscii(r[11]) == LowerAscii(k[11]);
    assert r[11] == 'y';
  }

  const ApiKeyHeaderName: string := "X-MBX-APIKEY"

  // ----------------------------------------------------------- http.Request

  /** The part of an *http.Request the client touches. */
  class HttpRequest {
    const httpMethod: string
    /** Scheme, host and path: the URL before its query. */
    const target: string
    var rawQuery: string
    var header: map<string, seq<string>>

    constructor (httpMethod: string, target: string, rawQuery: string)
      ensures this.httpMethod == httpMethod && this.target == target
      ensures this.rawQuery == rawQuery && header == map[]
    {
      this.httpMethod := httpMethod;
      this.target := target;
      this.rawQuery := rawQuery;
      header := map[];
    }

    /** Header.Set: the canonical key afterwards holds exactly the given value. */
    method SetHeader(key: string, value: string)
      modifies this
      ensures header == old(header)[CanonicalHeaderKey(key) := [value]]
      ensures unchanged(this`rawQuery)
    {
      header := header[CanonicalHeaderKey(key) := [value]];
    }

    /** URL.Query(). */
    function Query(): Values
      reads this
    {
      ParseQuery(rawQuery)
    }
  }

  /** http.NewRequest with no body: the method is checked first, then the URL. */
  method NewRequest(httpMethod: string, url: string) returns (r: Result<HttpRequest, Error>)
    ensures RequestMethod(httpMethod).Failure? ==> r == Failure(RequestMethod(httpMethod).error)
    ensures RequestMethod(httpMethod).Success? && SplitUrl(url).Failure? ==> r == Failure(SplitUrl(url).error)
    ensures r.Success? <==> RequestMethod(httpMethod).Success? && SplitUrl(url).Success?
    ensures r.Success? ==> fresh(r.value) && r.value.httpMethod == RequestMethod(httpMethod).value
                           && (r.value.target, r.value.rawQuery) == SplitUrl(url).value
                           && r.value.header == map[]
  {
    var m := RequestMethod(httpMethod);
    if m.Failure? {
      return Failure(m.error);
    }
    var u := SplitUrl(url);
    if u.Failure? {
      return Failure(u.error);
    }
    var req := new HttpRequest(m.value, u.value.0, u.value.1);
    return Success(req);
  }

  // --------------------------------------------------------- RequestBuilder

  /** The parameters a signed request carries besides the caller's. */
  function SigningParams(params: Values, now: nat): Values {
    Set(Set(params, "timestamp", FormatInt(now)), "recvWindow", "5000")
  }

  lemma SigningParamsNoEmptyLists(params: Values, now: nat)
    requires NoEmptyLists(params)
    ensures NoEmptyLists(SigningParams(params, now))
  {
    SetNoEmptyLists(params, "timestamp", FormatInt(now));
    SetNoEmptyLists(Set(params, "timestamp", FormatInt(now)), "recvWindow", "5000");
  }

  /** The query SignedRequest writes: the encoded parameters, then '&' and
      the encoding of signature=<sign of exactly that encoding>. */
  function SignedQuery(params: Values, secret: string, mac: Mac, now: nat): string {
    SignedText(Encode(SigningParams(params, now)), secret, mac)
  }

  /** An encoded query followed by its signature. */
  function SignedText(q: string, secret: string, mac: Mac): string {
    q + "&" + Encode(SignatureValues(Sign(q, secret, mac)))
  }

  /** The one-entry url.Values the signature is encoded from. */
  function SignatureValues(sig: string): Values {
    var empty: Values := map[];
    Set(empty, "signature", sig)
  }

  lemma HexUnreserved(sig: string)
    requires IsLowerHex(sig)
    ensures QueryEscape(sig) == sig
  {
    assert IsUnreservedText(sig) by {
      forall i | 0 <= i < |sig| ensures Unreserved(sig[i]) {
        assert IsLowerHexChar(sig[i]);
      }
    }
    EscapeUnreserved(sig);
  }

  lemma SignatureKeyUnreserved()
    ensures QueryEscape("signature") == "signature"
  {
    EscapeUnreserved("signature");
  }

  /** A hex signature encodes as "signature=" and the digits themselves. */
  lemma SignatureEncoding(sig: string)
    requires IsLowerHex(sig)
    ensures SignatureValues(sig) == map["signature" := [sig]]
    ensures Encode(SignatureValues(sig)) == "signature" + "=" + sig
  {
    EncodeSingle("signature", sig);
    SignatureKeyUnreserved();
    HexUnreserved(sig);
  }

  class RequestBuilder {
    const req: HttpRequest
    var params: Values

    predicate Valid()
      reads this
    {
      NoEmptyLists(params)
    }

    constructor (req: HttpRequest)
      ensures this.req == req && params == ParseQuery(req.rawQuery) && Valid()
    {
      this.req := req;
      params := ParseQuery(req.rawQuery);
      ParseQueryNoEmptyLists(req.rawQuery);
    }

    /** WithHeader. */
    method WithHeader(key: string, value: string) returns (r: RequestBuilder)
      modifies req
      ensures r == this
      ensures req.header == old(req.header)[CanonicalHeaderKey(key) := [value]]
      ensures unchanged(req`rawQuery)
    {
      req.SetHeader(key, value);
      r := this;
    }

    /** WithParam: the key afterwards holds exactly the latest value. */
    method WithParam(key: string, value: string) returns (r: RequestBuilder)
      requires Valid()
      modifies this
      ensures r == this && Valid()
      ensures params == Set(old(params), key, value)
    {
      SetNoEmptyLists(params, key, value);
      params := Set(params, key, value);
      r := this;
    }

    /** SignedRequest: timestamp and recvWindow overwrite whatever the caller
        set, and the query is the signed encoding of the result. */
    method SignedRequest(secret: string, mac: Mac, now: nat) returns (r: HttpRequest)
      requires Valid()
      modifies this, req
      ensures r == req && Valid()
      ensures params == SigningParams(old(params), now)
      ensures req.rawQuery == SignedQuery(old(params), secret, mac, now)
      ensures unchanged(req`header)
    {
      var p := Set(params, "timestamp", FormatInt(now));
      p := Set(p, "recvWindow", "5000");
      var sig: Values := map[];
      sig := Set(sig, "signature", Sign(Encode(p), secret, mac));
      SigningParamsNoEmptyLists(params, now);
      req.rawQuery := Encode(p) + "&" + Encode(sig);
      params := p;
      r := req;
    }

    /** Request: the query is the encoding of the parameters and nothing else. */
    method Request() returns (r: HttpRequest)
      requires Valid()
      modifies req
      ensures r == req
      ensures req.rawQuery == Encode(params)
      ensures req.Query() == params
      ensures unchanged(req`header)
    {
      req.rawQuery := Encode(params);
      ParseEncodeRoundTrip(params);
      r := req;
    }
  }

  /** NewRequestBuilder: the parameters start as the query already in the URL. */
  method NewRequestBuilder(httpMethod: string, url: string) returns (r: Result<RequestBuilder, Error>)
    ensures r.Success? <==> RequestMethod(httpMethod).Success? && SplitUrl(url).Success?
    ensures r.Failure? ==> r.error == Wrapped("failed to create request, ",
                                   if RequestMethod(httpMethod).Failure? then RequestMethod(httpMethod).error
                                   else SplitUrl(url).error)
    ensures r.Success? ==> fresh(r.value) && fresh(r.value.req) && r.value.Valid()
                           && r.value.req.httpMethod == RequestMethod(httpMethod).value
                           && (r.value.req.target, r.value.req.rawQuery) == SplitUrl(url).value
                           && r.value.params == ParseQuery(SplitUrl(url).value.1)
                           && r.value.req.header == map[]
  {
    var req := NewRequest(httpMethod, url);
    if req.Failure? {
      return Failure(Wrapped("failed to create request, ", req.error));
    }
    var b := new RequestBuilder(req.value);
    return Success(b);
  }

  // -------------------------------------------------------------- properties

  /** The signing parameters replace any caller-supplied timestamp and
      recvWindow and leave every other parameter as it was. */
  lemma SigningParamsOverwrite(params: Values, now: nat)
    ensures SigningParams(params, now).Keys == params.Keys + {"timestamp", "recvWindow"}
    ensures SigningParams(params, now)["timestamp"] == [FormatInt(now)]
    ensures SigningParams(params, now)["recvWindow"] == ["5000"]
    ensures forall k :: k in params && k != "timestamp" && k != "recvWindow" ==> SigningParams(params, now)[k] == params[k]
  {
  }

  /** The signed query is the signed-over text itself, "&signature=" and the 64 hex digits. */
  lemma SignedTextShape(q: string, secret: string, mac: Mac)
    ensures SignedText(q, secret, mac) == q + "&" + ("signature" + "=" + Sign(q, secret, mac))
  {
    SignatureEncoding(Sign(q, secret, mac));
  }

  /** The signed query reads back as the signing parameters with the
      signature added to the values of "signature". */
  lemma SignedQueryParses(params: Values, secret: string, mac: Mac, now: nat)
    requires NoEmptyLists(params)
    ensures var sp := SigningParams(params, now);
      ParseQuery(SignedQuery(params, secret, mac, now))
        == sp["signature" := ValuesOf(sp, "signature") + [Sign(Encode(sp), secret, mac)]]
  {
    var sp := SigningParams(params, now);
    SetNoEmptyLists(params, "timestamp", FormatInt(now));
    SetNoEmptyLists(Set(params, "timestamp", FormatInt(now)), "recvWindow", "5000");
    var sig := Sign(Encode(sp), secret, mac);
    SignatureEncoding(sig);
    ParseAppendedPair(sp, "signature", sig);
  }

  /** Parameters with distinct keys may be added in either order: the query and the signature are the same. */
  lemma ParamOrderIrrelevant(params: Values, k1: string, v1: string, k2: string, v2: string, secret: string, mac: Mac, now: nat)
    requires k1 != k2
    ensures Encode(Set(Set(params, k1, v1), k2, v2)) == Encode(Set(Set(params, k2, v2), k1, v1))
    ensures SignedQuery(Set(Set(params, k1, v1), k2, v2), secret, mac, now)
         == SignedQuery(Set(Set(params, k2, v2), k1, v1), secret, mac, now)
  {
    SetCommutes(params, k1, v1, k2, v2);
  }
}
