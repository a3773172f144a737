/**
 * The shared types of the client (common.go, repeated in binance.go): Go
 * errors and the exchange's APIError, the wallet types, the balance and coin
 * records, and the two list-to-map conversions TokensBalance and ToMap.
 */
module Common {
  import opened Wrappers
  import opened Text
  import opened Json

  // ------------------------------------------------------------------ errors

  /** The exchange's error payload. */
  datatype APIError = APIError(code: int, msg: string)

  /** A Go error value: text only, a message wrapped around a cause
      (errors.Wrap, or fmt.Errorf with %w), or a *APIError. */
  datatype Error =
    | Plain(text: string)
    | Wrapped(prefix: string, cause: Error)
    | ApiErrorRef(api: APIError)

  /** APIError.Error(). */
  function APIErrorText(e: APIError): string {
    "code: " + FormatInt(e.code) + ", msg: " + e.msg
  }

  /** Reads an APIError back from its text. */
  function ParseAPIErrorText(s: string): Option<APIError> {
    if |s| < 6 || s[..6] != "code: " then None
    else
      var (num, rest, found) := Cut(s[6..], ',');
      if !found || |rest| < 6 || rest[..6] != " msg: " then None
      else match ParseInt(num)
        case None => None
        case Some(code) => Some(APIError(code, rest[6..]))
  }

  /** The text of an APIError determines its code and message. */
  lemma APIErrorTextRoundTrip(e: APIError)
    ensures ParseAPIErrorText(APIErrorText(e)) == Some(e)
  {
    var s := APIErrorText(e);
    var rest := " msg: " + e.msg;
    assert s[..6] == "code: ";
    assert s[6..] == FormatInt(e.code) + [','] + rest;
    assert ',' !in FormatInt(e.code);
    CutAtFirst(FormatInt(e.code), ',', rest);
    FormatIntRoundTrip(e.code);
    assert rest[..6] == " msg: " && rest[6..] == e.msg;
  }

  lemma APIErrorTextInjective(a: APIError, b: APIError)
    ensures APIErrorText(a) == APIErrorText(b) ==> a == b
  {
    APIErrorTextRoundTrip(a);
    APIErrorTextRoundTrip(b);
  }

  /** err.Error(). */
  function ErrorText(e: Error): string {
    match e
    case Plain(t) => t
    case Wrapped(p, c) => p + ErrorText(c)
    case ApiErrorRef(a) => APIErrorText(a)
  }

  /** errors.Wrap(cause, msg) of github.com/pkg/errors: text "msg: cause". */
  function Wrap(cause: Error, msg: string): (e: Error)
    ensures ErrorText(e) == msg + ": " + ErrorText(cause)
  {
    Wrapped(msg + ": ", cause)
  }

  /** newAPIError: a *APIError holding the code and message. */
  function NewAPIError(code: int, msg: string): Error {
    ApiErrorRef(APIError(code, msg))
  }

  /** The chain errors.As walks: the error, then what it wraps, and so on. */
  function Chain(e: Error): (c: seq<Error>)
    ensures |c| > 0 && c[0] == e
  {
    match e
    case Wrapped(_, cause) => [e] + Chain(cause)
    case _ => [e]
  }

  /** The first *APIError in the chain of e, as errors.As finds it. */
  function FirstAPIError(e: Error): Option<APIError> {
    match e
    case ApiErrorRef(a) => Some(a)
    case Plain(_) => None
    case Wrapped(_, c) => FirstAPIError(c)
  }

  /** FirstAPIError finds an *APIError exactly when the chain holds one, and
      then the one that comes first. */
  lemma {:induction false} FirstAPIErrorInChain(e: Error)
    ensures FirstAPIError(e).None? ==> forall i :: 0 <= i < |Chain(e)| ==> !Chain(e)[i].ApiErrorRef?
    ensures (forall i :: 0 <= i < |Chain(e)| ==> !Chain(e)[i].ApiErrorRef?) ==> FirstAPIError(e).None?
    ensures FirstAPIError(e).Some? ==>
              exists i :: 0 <= i < |Chain(e)| && Chain(e)[i] == ApiErrorRef(FirstAPIError(e).value)
                          && forall j :: 0 <= j < i ==> !Chain(e)[j].ApiErrorRef?
  {
    match e
    case ApiErrorRef(a) =>
      assert Chain(e)[0] == ApiErrorRef(a);
    case Plain(_) =>
    case Wrapped(_, c) =>
      FirstAPIErrorInChain(c);
      var r := FirstAPIError(c);
      var ch := Chain(e);
      assert FirstAPIError(e) == r;
      assert ch == [e] + Chain(c);
      if r.Some? {
        var n :| 0 <= n < |Chain(c)| && Chain(c)[n] == ApiErrorRef(r.value) && forall j :: 0 <= j < n ==> !Chain(c)[j].ApiErrorRef?;
        assert ch[n + 1] == ApiErrorRef(r.value);
        assert !(forall k :: 0 <= k < |ch| ==> !ch[k].ApiErrorRef?);
        forall j | 0 <= j < n + 1 ensures !ch[j].ApiErrorRef? {
          if j > 0 { assert ch[j] == Chain(c)[j - 1]; }
        }
      } else {
        assert forall k :: 0 <= k < |Chain(c)| ==> !Chain(c)[k].ApiErrorRef?;
        forall i | 0 <= i < |ch| ensures !ch[i].ApiErrorRef? {
          if i == 0 {
            assert ch[0] == e;
          } else {
            assert ch[i] == Chain(c)[i - 1];
          }
        }
      }
  }

  /** ToAPIError: errors.As into a *APIError; a nil error (None) holds none. */
  function ToAPIError(err: Option<Error>): (r: Option<APIError>)
    ensures err.None? ==> r.None?
    ensures err.Some? ==> r == FirstAPIError(err.value)
  {
    match err
    case None => None
    case Some(e) => FirstAPIError(e)
  }

  /** ToAPIError(newAPIError(c, m)) finds exactly that error, also under any number of wraps. */
  lemma ToAPIErrorOfNew(code: int, msg: string, wraps: seq<string>)
    ensures ToAPIError(Some(WrapAll(NewAPIError(code, msg), wraps))) == Some(APIError(code, msg))
  {
    if wraps != [] {
      ToAPIErrorOfNew(code, msg, wraps[1..]);
    }
  }

  function WrapAll(e: Error, msgs: seq<string>): Error {
    if msgs == [] then e else Wrap(WrapAll(e, msgs[1..]), msgs[0])
  }

  // ------------------------------------------------------------- wallet type

  const WalletSpot: string := "SPOT"
  const WalletIsolatedMargin: string := "ISOLATED_MARGIN"

  /** WalletType values: iota + 1. */
  const SpotWallet: int := 1
  const IsolatedMarginWallet: int := 2

  /** WalletType.String() as stringer generates it with -linecomment. */
  function WalletTypeString(w: int): string {
    if w == SpotWallet then "SPOT"
    else if w == IsolatedMarginWallet then "ISOLATED_MARGIN"
    else "WalletType(" + FormatInt(w) + ")"
  }

  /** The two wallet types print as the wallet names, and different wallet types print differently. */
  lemma WalletTypeStringFacts(a: int, b: int)
    ensures WalletTypeString(SpotWallet) == WalletSpot
    ensures WalletTypeString(IsolatedMarginWallet) == WalletIsolatedMargin
    ensures WalletTypeString(a) == WalletTypeString(b) ==> a == b
  {
    var sa, sb := WalletTypeString(a), WalletTypeString(b);
    assert sa[0] == (if a == SpotWallet then 'S' else if a == IsolatedMarginWallet then 'I' else 'W');
    assert sb[0] == (if b == SpotWallet then 'S' else if b == IsolatedMarginWallet then 'I' else 'W');
    if sa == sb && a != b {
      if a != SpotWallet && a != IsolatedMarginWallet && b != SpotWallet && b != IsolatedMarginWallet {
        assert sa[11..] == FormatInt(a) + [')'] + "";
        assert sb[11..] == FormatInt(b) + [')'] + "";
        FormatIntThenSeparator(a, "", b, "", ')');
      }
    }
  }

  // ---------------------------------------------------------------- records

  datatype Balance = Balance(asset: string, free: string, locked: string)

  /** A balance as the socket payload spells it (keys a, f, l). */
  datatype PayloadBalance = PayloadBalance(asset: string, free: string, lock: string)

  /** The balanceUpdate payload (keys E, a, d, T). */
  datatype BalanceUpdate = BalanceUpdate(eventTime: int, asset: string, balanceDelta: string, clearTime: int)

  /** The success flag and message several results embed. */
  datatype StatusImpl = StatusImpl(success: bool, msg: string) {
    /** Status(): the flag and the message, unchanged. */
    function Status(): (r: (bool, string))
      ensures StatusImpl(r.0, r.1) == this
    {
      (success, msg)
    }
  }

  datatype AccountState = AccountState(
    status: StatusImpl,
    makerCommission: int, takerCommission: int, buyerCommission: int, sellerCommission: int,
    canTrade: bool, canWithdraw: bool, canDeposit: bool,
    updateTime: nat, accountType: string,
    balances: seq<Balance>, permissions: seq<string>)

  /** The coin record (its network list is not part of this model). */
  datatype CoinInfo = CoinInfo(
    coin: string, depositAllEnable: bool, free: string, freeze: string,
    ipoable: string, isLegalMoney: bool, locked: string, name: string)

  /** The cross-margin account record (its per-asset list is not part of this model). */
  datatype CrossMarginAccountDetails = CrossMarginAccountDetails(
    borrowEnabled: bool, marginLevel: string, totalAssetOfBtc: string,
    totalLiabilityOfBtc: string, totalNetAssetOfBtc: string,
    tradeEnabled: bool, transferEnabled: bool)

  /** What the REST layer forwards to its caller. */
  datatype FwdData = FwdData(status: int, contentType: string, data: string)

  datatype TransferResult = TransferResult(status: StatusImpl, txnId: string)

  datatype WithdrawResult = WithdrawResult(id: string)

  // -------------------------------------------------------------- RateAndQty

  datatype RateAndQty = RateAndQty(quantity: string, rate: string)

  /** One slot of RateAndQty.UnmarshalJSON: a string is stored, null and a
      missing element leave the field as it was, anything else is a type error. */
  function Slot(items: seq<Json>, i: nat, prior: string): Result<string, JsonError> {
    if i >= |items| then Success(prior)
    else match items[i]
      case JString(s) => Success(s)
      case JNull => Success(prior)
      case _ => Failure(UnmarshalType)
  }

  /** RateAndQty.UnmarshalJSON on a value decoded over `prior`: the array's
      first element is the quantity, its second the rate, later elements are
      read and dropped; null keeps everything. */
  function UnmarshalRateAndQty(v: Json, prior: RateAndQty): Result<RateAndQty, JsonError> {
    match v
    case JNull => Success(prior)
    case JArray(items) =>
      var q :- Slot(items, 0, prior.quantity);
      var r :- Slot(items, 1, prior.rate);
      Success(RateAndQty(q, r))
    case _ => Failure(UnmarshalType)
  }

  lemma RateAndQtyFromPair(q: string, r: string, rest: seq<Json>, prior: RateAndQty)
    ensures UnmarshalRateAndQty(JArray([JString(q), JString(r)] + rest), prior) == Success(RateAndQty(q, r))
  {
  }

  /** Every outcome: which element lands in which field, and when decoding fails. */
  lemma RateAndQtyCases(items: seq<Json>, prior: RateAndQty)
    ensures var r := UnmarshalRateAndQty(JArray(items), prior);
      (r.Success? <==> (|items| < 1 || items[0].JString? || items[0].JNull?) && (|items| < 2 || items[1].JString? || items[1].JNull?))
      && (r.Success? ==>
            (r.value.quantity == (if |items| > 0 && items[0].JString? then items[0].s else prior.quantity)
             && r.value.rate == (if |items| > 1 && items[1].JString? then items[1].s else prior.rate)))
  {
  }

  // ------------------------------------------------------ list to map, keyed

  /** The map a loop  res[key(x)] = x  over xs leaves: a later element replaces an earlier one of the same key. */
  function IndexBy<T>(xs: seq<T>, key: T -> string): map<string, T> {
    if xs == [] then map[] else IndexBy(xs[..|xs| - 1], key)[key(xs[|xs| - 1]) := xs[|xs| - 1]]
  }

  predicate DistinctKeys<T>(xs: seq<T>, key: T -> string) {
    forall i, j :: 0 <= i < j < |xs| ==> key(xs[i]) != key(xs[j])
  }

  /** The keys are exactly the keys of the elements; each key holds the last element with that key. */
  lemma {:induction false} IndexByContents<T>(xs: seq<T>, key: T -> string)
    ensures forall k :: k in IndexBy(xs, key) <==> exists i :: 0 <= i < |xs| && key(xs[i]) == k
    ensures forall i :: 0 <= i < |xs| && (forall j :: i < j < |xs| ==> key(xs[j]) != key(xs[i]))
                        ==> IndexBy(xs, key)[key(xs[i])] == xs[i]
    ensures forall k :: k in IndexBy(xs, key) ==> key(IndexBy(xs, key)[k]) == k
  {
    if xs != [] {
      var n := |xs| - 1;
      var init := xs[..n];
      IndexByContents(init, key);
      forall i | 0 <= i < n ensures init[i] == xs[i] { }
    }
  }

  /** At most one entry per element, and one per element exactly when the keys are distinct. */
  lemma {:induction false} IndexBySize<T>(xs: seq<T>, key: T -> string)
    ensures |IndexBy(xs, key)| <= |xs|
    ensures |IndexBy(xs, key)| == |xs| <==> DistinctKeys(xs, key)
  {
    if xs != [] {
      var n := |xs| - 1;
      var init := xs[..n];
      var x := xs[n];
      IndexBySize(init, key);
      IndexByContents(init, key);
      var m := IndexBy(init, key);
      forall i | 0 <= i < n ensures init[i] == xs[i] { }
      if key(x) in m {
        var i :| 0 <= i < n && key(init[i]) == key(x);
        assert key(xs[i]) == key(xs[n]);
        assert !DistinctKeys(xs, key);
      } else {
        assert |m[key(x) := x]| == |m| + 1;
        if DistinctKeys(init, key) {
          forall i, j | 0 <= i < j < |xs| ensures key(xs[i]) != key(xs[j]) {
            if j == n {
              assert key(init[i]) != key(x);
            } else {
              assert key(init[i]) != key(init[j]);
            }
          }
        }
        if DistinctKeys(xs, key) {
          assert DistinctKeys(init, key) by {
            forall i, j | 0 <= i < j < |init| ensures key(init[i]) != key(init[j]) {
              assert key(xs[i]) != key(xs[j]);
            }
          }
        }
      }
    }
  }

  /** The loop both conversions run: one pass over the list filling the map. */
  method FillByKey<T>(xs: seq<T>, key: T -> string) returns (res: map<string, T>)
    ensures res == IndexBy(xs, key)
    ensures forall k :: k in res <==> exists i :: 0 <= i < |xs| && key(xs[i]) == k
    ensures forall i :: 0 <= i < |xs| && (forall j :: i < j < |xs| ==> key(xs[j]) != key(xs[i])) ==> res[key(xs[i])] == xs[i]
    ensures forall k :: k in res ==> key(res[k]) == k
    ensures |res| <= |xs| && (|res| == |xs| <==> DistinctKeys(xs, key))
  {
    res := map[];
    var i := 0;
    while i < |xs|
      invariant 0 <= i <= |xs|
      invariant res == IndexBy(xs[..i], key)
    {
      assert xs[..i + 1][..i] == xs[..i];
      res := res[key(xs[i]) := xs[i]];
      i := i + 1;
    }
    assert xs[..|xs|] == xs;
    IndexByContents(xs, key);
    IndexBySize(xs, key);
  }

  function AssetOf(b: Balance): string {
    b.asset
  }

  function CoinOf(c: CoinInfo): string {
    c.coin
  }

  /** AccountState.TokensBalance: the balances keyed by asset, the last balance of an asset winning. */
  method TokensBalance(a: AccountState) returns (res: map<string, Balance>)
    ensures forall k :: k in res <==> exists i :: 0 <= i < |a.balances| && a.balances[i].asset == k
    ensures forall i :: 0 <= i < |a.balances| && (forall j :: i < j < |a.balances| ==> a.balances[j].asset != a.balances[i].asset)
                        ==> res[a.balances[i].asset] == a.balances[i]
    ensures forall k :: k in res ==> res[k].asset == k
    ensures |res| <= |a.balances| && (|res| == |a.balances| <==> DistinctKeys(a.balances, AssetOf))
  {
    res := FillByKey(a.balances, AssetOf);
  }

  /** AllCoinInfo.ToMap: the coins keyed by coin name, the last record of a coin winning. */
  method ToMap(all: seq<CoinInfo>) returns (res: map<string, CoinInfo>)
    ensures res == IndexBy(all, CoinOf)
    ensures forall k :: k in res <==> exists i :: 0 <= i < |all| && all[i].coin == k
    ensures forall i :: 0 <= i < |all| && (forall j :: i < j < |all| ==> all[j].coin != all[i].coin)
                        ==> res[all[i].coin] == all[i]
    ensures forall k :: k in res ==> res[k].coin == k
  {
    res := FillByKey(all, CoinOf);
  }
}
