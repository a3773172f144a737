/**
 * The staking wrapper of stakeapi.go: GetStakingProductPosition builds a
 * signed GET on the client's base URL with the product always, and the
 * asset, the page (as `current`) and the size only when given.
 */
module Stake {
  import opened Wrappers
  import opened Text
  import opened UrlValues
  import opened Common
  import opened Requests
  import opened Endpoints
  import BinanceClient

  const PositionPath := "/sapi/v1/staking/position"

  /** The keys the optional arguments add. */
  function OptionalKeys(asset: string, page: int, size: int): set<string> {
    KeyIf(asset != "", "asset") + KeyIf(page > 0, "current") + KeyIf(size > 0, "size")
  }

  /** The parameters of GetStakingProductPosition on top of the URL's own
      query: the product always, the asset when not empty, the page as
      `current` when positive, the size when positive, both in base 10. */
  function PositionParams(init: Values, product: string, asset: string, page: int, size: int): (p: Values)
    ensures p.Keys == init.Keys + {"product"} + OptionalKeys(asset, page, size)
    ensures p["product"] == [product]
    ensures asset != "" ==> p["asset"] == [asset]
    ensures page > 0 ==> p["current"] == [FormatInt(page)]
    ensures size > 0 ==> p["size"] == [FormatInt(size)]
    ensures Keeps(p, init, {"product"} + OptionalKeys(asset, page, size))
  {
    PositionFilters(init["product" := [product]], asset, page, size)
  }

  /** The three conditional WithParam calls. */
  function PositionFilters(v: Values, asset: string, page: int, size: int): Values {
    var v1 := if asset != "" then v["asset" := [asset]] else v;
    var v2 := if page > 0 then v1["current" := [FormatInt(page)]] else v1;
    if size > 0 then v2["size" := [FormatInt(size)]] else v2
  }

  /** The conditional part of the chain. The size is added by a call whose
      result is not kept, which changes the builder all the same. */
  method AddPositionFilters(rr: RequestBuilder, asset: string, page: int, size: int)
    requires rr.Valid()
    modifies rr
    ensures rr.Valid()
    ensures rr.params == PositionFilters(old(rr.params), asset, page, size)
  {
    var r := rr;
    if asset != "" {
      r := r.WithParam("asset", asset);
    }
    if page > 0 {
      r := r.WithParam("current", FormatInt(page));
    }
    if size > 0 {
      var _ := r.WithParam("size", FormatInt(size));
    }
  }

  /** GetStakingProductPosition: a builder failure is handed back as it is;
      otherwise the request is always signed. */
  method GetStakingProductPosition(c: ApiClient, product: string, asset: string, page: int, size: int, mac: Mac, now: nat)
    returns (r: Result<HttpRequest, Error>)
    ensures BuildFails(r, c.apiBaseUrl + PositionPath)
    ensures r.Success? ==> var url := c.apiBaseUrl + PositionPath;
      fresh(r.value) && Built(r.value, "GET", url, BinanceClient.ApiKeyHeaders(c.apiKey),
             SignedQuery(PositionParams(UrlQuery(url), product, asset, page, size), c.secretKey, mac, now))
  {
    var url := c.apiBaseUrl + PositionPath;
    StandardMethods();
    var b := NewRequestBuilder("GET", url);
    if b.Failure? {
      return Failure(b.error);
    }
    var rr := b.value.WithHeader(ApiKeyHeaderName, c.apiKey);
    rr := rr.WithParam("product", product);
    AddPositionFilters(rr, asset, page, size);
    var rq := rr.SignedRequest(c.secretKey, mac, now);
    return Success(rq);
  }

  /** The server parses the product, and each filter that was given, out
      of the signed query, whatever the URL's own query held. */
  lemma PositionSent(url: string, product: string, asset: string, page: int, size: int, secret: string, mac: Mac, now: nat)
    ensures var q := ParseQuery(SignedQuery(PositionParams(UrlQuery(url), product, asset, page, size), secret, mac, now));
      && ValuesOf(q, "product") == [product]
      && (asset != "" ==> ValuesOf(q, "asset") == [asset])
      && (page > 0 ==> ValuesOf(q, "current") == [FormatInt(page)])
      && (size > 0 ==> ValuesOf(q, "size") == [FormatInt(size)])
  {
    if SplitUrl(url).Success? {
      ParseQueryNoEmptyLists(SplitUrl(url).value.1);
    }
    PositionSentOver(UrlQuery(url), product, asset, page, size, secret, mac, now);
  }

  /** PositionSent for any starting query without empty value lists. */
  lemma PositionSentOver(init: Values, product: string, asset: string, page: int, size: int, secret: string, mac: Mac, now: nat)
    requires NoEmptyLists(init)
    ensures var q := ParseQuery(SignedQuery(PositionParams(init, product, asset, page, size), secret, mac, now));
      && ValuesOf(q, "product") == [product]
      && (asset != "" ==> ValuesOf(q, "asset") == [asset])
      && (page > 0 ==> ValuesOf(q, "current") == [FormatInt(page)])
      && (size > 0 ==> ValuesOf(q, "size") == [FormatInt(size)])
  {
    var p := PositionParams(init, product, asset, page, size);
    PositionParamsNoEmptyLists(init, product, asset, page, size);
    assert |"product"| == 7 && |"asset"| == 5 && |"current"| == 7 && |"size"| == 4;
    assert |"timestamp"| == 9 && |"recvWindow"| == 10 && |"signature"| == 9;
    SignedCarries(p, "product", secret, mac, now);
    if asset != "" {
      SignedCarries(p, "asset", secret, mac, now);
    }
    if page > 0 {
      SignedCarries(p, "current", secret, mac, now);
    }
    if size > 0 {
      SignedCarries(p, "size", secret, mac, now);
    }
  }

  lemma PositionParamsNoEmptyLists(init: Values, product: string, asset: string, page: int, size: int)
    requires NoEmptyLists(init)
    ensures NoEmptyLists(PositionParams(init, product, asset, page, size))
  {
    var p := PositionParams(init, product, asset, page, size);
    forall k | k in p
      ensures p[k] != []
    {
      if k !in {"product"} + OptionalKeys(asset, page, size) {
        assert k in init;
      }
    }
  }
}
