/**
 * What the endpoint wrappers of the spot, margin and staking files share:
 * the client's configuration, the reply their doRequest hands back, the
 * request a builder leaves behind, and parameters added under a condition.
 */
module Endpoints {
  import opened Wrappers
  import opened Text
  import opened UrlValues
  import opened Common
  import opened Requests

  /** The configuration of the client the wrappers run on; the margin calls
      use the fixed base URL instead of `apiBaseUrl`. */
  datatype ApiClient = ApiClient(apiBaseUrl: string, apiKey: string, secretKey: string)

  /** What the wrappers' doRequest hands back: the target as decoding left
      it, the forwarded reply if there is one, and the error if there is one.
      That doRequest itself is not part of this model. */
  datatype Reply<T> = Reply(result: T, fwd: Option<FwdData>, err: Option<Error>)

  /** The methods the wrappers use are tokens, so NewRequest accepts them. */
  lemma StandardMethods()
    ensures RequestMethod("GET") == Success("GET")
    ensures RequestMethod("POST") == Success("POST")
    ensures RequestMethod("DELETE") == Success("DELETE")
  {
    assert IsTokenChar('G') && IsTokenChar('E') && IsTokenChar('T');
    assert IsTokenChar('P') && IsTokenChar('O') && IsTokenChar('S');
    assert IsTokenChar('D') && IsTokenChar('L');
  }

  /** The query already present in a URL, where a builder's parameters start. */
  function UrlQuery(url: string): Values {
    if SplitUrl(url).Success? then ParseQuery(SplitUrl(url).value.1) else map[]
  }

  /** The keys a conditional WithParam adds. */
  function KeyIf(cond: bool, key: string): set<string> {
    if cond then {key} else {}
  }

  /** Every parameter outside `changed` is as it was. */
  predicate Keeps(p: Values, init: Values, changed: set<string>) {
    forall k :: k in init && k !in changed ==> k in p && p[k] == init[k]
  }

  /** `if cond { rr = rr.WithParam(key, value) }` on parameters. */
  function SetIf(v: Values, cond: bool, key: string, value: string): (r: Values)
    ensures r.Keys == v.Keys + KeyIf(cond, key)
    ensures cond ==> r[key] == [value]
    ensures Keeps(r, v, KeyIf(cond, key))
  {
    if cond then v[key := [value]] else v
  }

  /** The request a wrapper sends: its method, the URL's target, its header
      map and its raw query. */
  predicate Built(req: HttpRequest, httpMethod: string, url: string, header: map<string, seq<string>>, rawQuery: string)
    reads req
  {
    && SplitUrl(url).Success?
    && req.httpMethod == httpMethod
    && req.target == SplitUrl(url).value.0
    && req.header == header
    && req.rawQuery == rawQuery
  }

  /** With a standard method NewRequestBuilder fails exactly when the URL
      does not parse, and the wrappers hand its error back as it is. */
  predicate BuildFails(r: Result<HttpRequest, Error>, url: string) {
    && (r.Failure? <==> SplitUrl(url).Failure?)
    && (r.Failure? ==> r.error == Wrapped("failed to create request, ", SplitUrl(url).error))
  }

  /** `if err != nil { return zero, fwd, err }; return result.Field, fwd, err`. */
  function FieldOr<T, U>(reply: Reply<T>, field: T -> U, zero: U): (r: (U, Option<FwdData>, Option<Error>))
    ensures r.1 == reply.fwd && r.2 == reply.err
    ensures reply.err.Some? ==> r.0 == zero
    ensures reply.err.None? ==> r.0 == field(reply.result)
  {
    if reply.err.Some? then (zero, reply.fwd, reply.err) else (field(reply.result), reply.fwd, reply.err)
  }

  /** A signed query carries every parameter other than the three the
      signing adds exactly as the builder held it, and no parameter the
      builder did not hold. */
  lemma SignedCarries(p: Values, key: string, secret: string, mac: Mac, now: nat)
    requires NoEmptyLists(p)
    requires key != "timestamp" && key != "recvWindow" && key != "signature"
    ensures ValuesOf(ParseQuery(SignedQuery(p, secret, mac, now)), key) == ValuesOf(p, key)
  {
    SignedQueryParses(p, secret, mac, now);
    var sp := SigningParams(p, now);
    SigningKeeps(p, key, now);
    AppendKeeps(sp, "signature", Sign(Encode(sp), secret, mac), key);
  }

  lemma AppendKeeps(v: Values, k: string, x: string, key: string)
    requires key != k
    ensures ValuesOf(v[k := ValuesOf(v, k) + [x]], key) == ValuesOf(v, key)
  {
  }

  lemma SigningKeeps(p: Values, key: string, now: nat)
    requires key != "timestamp" && key != "recvWindow"
    ensures ValuesOf(SigningParams(p, now), key) == ValuesOf(p, key)
  {
    SigningParamsOverwrite(p, now);
  }
}
