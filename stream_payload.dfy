/**
 * The payload conversions of the user-data-stream code (binance_ws_worker.go
 * and its older copy binance_ws.go): parseAccountInfo, which reads the
 * account fields one by one and copies the balances in order,
 * parseAccountBalance, and the decoding of a balanceUpdate frame.
 *
 * The record types live in a package that is not part of this model; their
 * layout is taken to be the one binance.go declares for the same names
 * (PayloadBalance under keys a, f, l; BalanceUpdate under E, a, d, T).
 */
module StreamPayload {
  import opened Wrappers
  import opened Text
  import opened Json
  import opened Common

  /** The account record the stream builds and the store keeps. */
  datatype AccountInfo = AccountInfo(
    makerCommission: int, takerCommission: int, buyerCommission: int, sellerCommission: int,
    canTrade: bool, canWithdraw: bool, canDeposit: bool,
    updateTime: nat, accountType: string,
    balances: seq<Balance>, permissions: seq<string>)

  /** The only account type and permission the stream reports. */
  const SpotAccount := "SPOT"

  /** uint64(x): the value modulo 2^64, so a negative int64 wraps around. */
  function ToUint64(x: int): (r: nat)
    ensures r < 0x1_0000_0000_0000_0000
    ensures 0 <= x < 0x1_0000_0000_0000_0000 ==> r == x
    ensures MinInt64 <= x < 0 ==> r == x + 0x1_0000_0000_0000_0000
  {
    x % 0x1_0000_0000_0000_0000
  }

  // ------------------------------------------------------------- balances

  const PayloadFields: seq<(string, Kind)> := [("a", StringKind), ("f", StringKind), ("l", StringKind)]

  function StrOf(x: Scalar): string {
    if x.Str? then x.s else ""
  }

  function IntOf(x: Scalar): int {
    if x.Int? then x.n else 0
  }

  /** One element of B into a PayloadBalance. */
  function DecodePayloadBalance(v: Json): Result<PayloadBalance, JsonError> {
    var s :- DecodeStruct(PayloadFields, v);
    Success(PayloadBalance(StrOf(s[0]), StrOf(s[1]), StrOf(s[2])))
  }

  function DecodeBalanceItems(items: seq<Json>): (r: Result<seq<PayloadBalance>, JsonError>)
    ensures r.Success? <==> forall i :: 0 <= i < |items| ==> DecodePayloadBalance(items[i]).Success?
    ensures r.Success? ==> |r.value| == |items|
    ensures r.Success? ==> forall i :: 0 <= i < |items| ==> r.value[i] == DecodePayloadBalance(items[i]).value
  {
    if items == [] then Success([])
    else
      var x :- DecodePayloadBalance(items[0]);
      var rest :- DecodeBalanceItems(items[1..]);
      assert forall i :: 1 <= i < |items| ==> items[i] == items[1..][i - 1];
      Success([x] + rest)
  }

  /** json.Unmarshal of the B value into a slice of balances: null is the
      empty slice, an array is decoded element by element, anything else is
      a type error. */
  function DecodeBalances(v: Json): Result<seq<PayloadBalance>, JsonError> {
    match v
    case JNull => Success([])
    case JArray(items) => DecodeBalanceItems(items)
    case _ => Failure(UnmarshalType)
  }

  /** The Balance parseAccountInfo makes of a payload entry. */
  function ToBalance(p: PayloadBalance): Balance {
    Balance(p.asset, p.free, p.lock)
  }

  function ToBalances(ps: seq<PayloadBalance>): (r: seq<Balance>)
    ensures |r| == |ps|
    ensures forall i :: 0 <= i < |ps| ==> r[i] == Balance(ps[i].asset, ps[i].free, ps[i].lock)
  {
    if ps == [] then [] else [ToBalance(ps[0])] + ToBalances(ps[1..])
  }

  // --------------------------------------------------------- account info

  /** The error of a lookup that failed, if it failed. */
  function ErrorOf<T>(r: Result<T, JsonError>): Option<JsonError> {
    if r.Failure? then Some(r.error) else None
  }

  /** The lookups parseAccountInfo makes, in the order it makes them; the
      last is the B lookup together with its decoding. */
  function Lookups(f: Frame): seq<Option<JsonError>> {
    LookupErrors(GetInt(f, "m"), GetInt(f, "t"), GetInt(f, "b"), GetInt(f, "s"),
                 GetBoolean(f, "T"), GetBoolean(f, "W"), GetBoolean(f, "D"), GetInt(f, "u"), BalancesOf(f))
  }

  /** The errors of nine lookups, first to last. */
  function LookupErrors(maker: Result<int, JsonError>, taker: Result<int, JsonError>, buyer: Result<int, JsonError>,
                        seller: Result<int, JsonError>, canTrade: Result<bool, JsonError>, canWithdraw: Result<bool, JsonError>,
                        canDeposit: Result<bool, JsonError>, updateTime: Result<int, JsonError>,
                        payload: Result<seq<PayloadBalance>, JsonError>): (ls: seq<Option<JsonError>>)
    ensures |ls| == 9
  {
    [ErrorOf(maker)] + ([ErrorOf(taker)] + ([ErrorOf(buyer)] + ([ErrorOf(seller)] + ([ErrorOf(canTrade)] +
    ([ErrorOf(canWithdraw)] + ([ErrorOf(canDeposit)] + ([ErrorOf(updateTime)] + [ErrorOf(payload)])))))))
  }

  /** The first error of a sequence of steps. */
  function FirstError(es: seq<Option<JsonError>>): (r: Option<JsonError>)
    ensures r.None? <==> forall i :: 0 <= i < |es| ==> es[i].None?
    ensures r.Some? ==> exists i :: 0 <= i < |es| && es[i] == r && forall j :: 0 <= j < i ==> es[j].None?
  {
    if es == [] then None
    else if es[0].Some? then es[0]
    else
      var r := FirstError(es[1..]);
      assert r.Some? ==> exists i :: 0 <= i < |es| && es[i] == r && forall j :: 0 <= j < i ==> es[j].None? by {
        if r.Some? {
          var i :| 0 <= i < |es[1..]| && es[1..][i] == r && forall j :: 0 <= j < i ==> es[1..][j].None?;
          assert es[i + 1] == r;
          forall j | 0 <= j < i + 1 ensures es[j].None? {
            if j > 0 { assert es[j] == es[1..][j - 1]; }
          }
        }
      }
      assert r.None? ==> forall i :: 0 <= i < |es| ==> es[i].None? by {
        if r.None? {
          forall i | 0 <= i < |es| ensures es[i].None? {
            if i > 0 { assert es[i] == es[1..][i - 1]; }
          }
        }
      }
      r
  }

  /** parseAccountInfo as a value: the first failing lookup ends it, and a
      full account has the commissions, the flags, the update time as an
      unsigned number, the SPOT type and permission and the balances. */
  function AccountInfoOf(f: Frame): Result<AccountInfo, JsonError> {
    Assemble(GetInt(f, "m"), GetInt(f, "t"), GetInt(f, "b"), GetInt(f, "s"),
             GetBoolean(f, "T"), GetBoolean(f, "W"), GetBoolean(f, "D"), GetInt(f, "u"), BalancesOf(f))
  }

  /** The account from the results of the lookups, taken in order. */
  function Assemble(maker: Result<int, JsonError>, taker: Result<int, JsonError>, buyer: Result<int, JsonError>,
                    seller: Result<int, JsonError>, canTrade: Result<bool, JsonError>, canWithdraw: Result<bool, JsonError>,
                    canDeposit: Result<bool, JsonError>, updateTime: Result<int, JsonError>,
                    payload: Result<seq<PayloadBalance>, JsonError>): Result<AccountInfo, JsonError>
  {
    var m :- maker;
    var t :- taker;
    var b :- buyer;
    var s :- seller;
    var ct :- canTrade;
    var cw :- canWithdraw;
    var cd :- canDeposit;
    var u :- updateTime;
    var ps :- payload;
    Success(AccountInfo(m, t, b, s, ct, cw, cd, ToUint64(u), SpotAccount, ToBalances(ps), [SpotAccount]))
  }

  lemma FirstErrorCons(x: Option<JsonError>, rest: seq<Option<JsonError>>)
    ensures FirstError([x] + rest) == if x.Some? then x else FirstError(rest)
  {
    assert ([x] + rest)[1..] == rest;
  }

  lemma AssembleFailsAtFirst(maker: Result<int, JsonError>, taker: Result<int, JsonError>, buyer: Result<int, JsonError>,
                             seller: Result<int, JsonError>, canTrade: Result<bool, JsonError>, canWithdraw: Result<bool, JsonError>,
                             canDeposit: Result<bool, JsonError>, updateTime: Result<int, JsonError>,
                             payload: Result<seq<PayloadBalance>, JsonError>)
    ensures var r := Assemble(maker, taker, buyer, seller, canTrade, canWithdraw, canDeposit, updateTime, payload);
      var ls := LookupErrors(maker, taker, buyer, seller, canTrade, canWithdraw, canDeposit, updateTime, payload);
      && (r.Failure? <==> FirstError(ls).Some?)
      && (r.Failure? ==> r.error == FirstError(ls).value)
  {
    var l8 := [ErrorOf(payload)];
    var l7 := [ErrorOf(updateTime)] + l8;
    var l6 := [ErrorOf(canDeposit)] + l7;
    var l5 := [ErrorOf(canWithdraw)] + l6;
    var l4 := [ErrorOf(canTrade)] + l5;
    var l3 := [ErrorOf(seller)] + l4;
    var l2 := [ErrorOf(buyer)] + l3;
    var l1 := [ErrorOf(taker)] + l2;
    FirstErrorCons(ErrorOf(payload), []);
    assert l8 == [ErrorOf(payload)] + [];
    FirstErrorCons(ErrorOf(updateTime), l8);
    FirstErrorCons(ErrorOf(canDeposit), l7);
    FirstErrorCons(ErrorOf(canWithdraw), l6);
    FirstErrorCons(ErrorOf(canTrade), l5);
    FirstErrorCons(ErrorOf(seller), l4);
    FirstErrorCons(ErrorOf(buyer), l3);
    FirstErrorCons(ErrorOf(taker), l2);
    FirstErrorCons(ErrorOf(maker), l1);
  }

  /** parseAccountInfo fails exactly when one of its lookups fails, and then
      with the error of the first one in the order m, t, b, s, T, W, D, u, B. */
  lemma AccountInfoFailsAtFirstLookup(f: Frame)
    ensures AccountInfoOf(f).Failure? <==> FirstError(Lookups(f)).Some?
    ensures AccountInfoOf(f).Failure? ==> AccountInfoOf(f).error == FirstError(Lookups(f)).value
  {
    AssembleFailsAtFirst(GetInt(f, "m"), GetInt(f, "t"), GetInt(f, "b"), GetInt(f, "s"),
                         GetBoolean(f, "T"), GetBoolean(f, "W"), GetBoolean(f, "D"), GetInt(f, "u"), BalancesOf(f));
  }

  /** A parsed account carries the frame's values, the SPOT type and
      permission, and one balance per payload entry, in order, with the
      asset, free and locked amounts of that entry. */
  lemma AccountInfoContents(f: Frame)
    requires AccountInfoOf(f).Success?
    ensures var a := AccountInfoOf(f).value;
      && a.makerCommission == GetInt(f, "m").value && a.takerCommission == GetInt(f, "t").value
      && a.buyerCommission == GetInt(f, "b").value && a.sellerCommission == GetInt(f, "s").value
      && a.canTrade == GetBoolean(f, "T").value && a.canWithdraw == GetBoolean(f, "W").value
      && a.canDeposit == GetBoolean(f, "D").value
      && a.updateTime == ToUint64(GetInt(f, "u").value)
      && a.accountType == "SPOT" && a.permissions == ["SPOT"]
      && BalancesOf(f).Success?
      && var ps := BalancesOf(f).value;
         |a.balances| == |ps| &&
         forall i :: 0 <= i < |ps| ==> a.balances[i] == Balance(ps[i].asset, ps[i].free, ps[i].lock)
  {
  }

  /** parseAccountInfo: the fields one by one, each failure returned at once,
      then the balances appended in payload order. */
  method ParseAccountInfo(f: Frame) returns (r: Result<AccountInfo, JsonError>)
    ensures r == AccountInfoOf(f)
  {
    var maker := GetInt(f, "m");
    if maker.Failure? { return Failure(maker.error); }
    var taker := GetInt(f, "t");
    if taker.Failure? { return Failure(taker.error); }
    var buyer := GetInt(f, "b");
    if buyer.Failure? { return Failure(buyer.error); }
    var seller := GetInt(f, "s");
    if seller.Failure? { return Failure(seller.error); }
    var canTrade := GetBoolean(f, "T");
    if canTrade.Failure? { return Failure(canTrade.error); }
    var canWithdraw := GetBoolean(f, "W");
    if canWithdraw.Failure? { return Failure(canWithdraw.error); }
    var canDeposit := GetBoolean(f, "D");
    if canDeposit.Failure? { return Failure(canDeposit.error); }
    var updateTime := GetInt(f, "u");
    if updateTime.Failure? { return Failure(updateTime.error); }
    var raw := Get(f, "B");
    if raw.Failure? { return Failure(raw.error); }
    var payload := DecodeBalances(raw.value);
    if payload.Failure? { return Failure(payload.error); }
    assert payload == BalancesOf(f);
    var balances := CopyBalances(payload.value);
    r := Success(AccountInfo(maker.value, taker.value, buyer.value, seller.value,
                             canTrade.value, canWithdraw.value, canDeposit.value,
                             ToUint64(updateTime.value), SpotAccount, balances, [SpotAccount]));
  }

  /** The append loop at the end of parseAccountInfo. */
  method CopyBalances(ps: seq<PayloadBalance>) returns (balances: seq<Balance>)
    ensures balances == ToBalances(ps)
  {
    balances := [];
    for i := 0 to |ps|
      invariant |balances| == i
      invariant forall j :: 0 <= j < i ==> balances[j] == Balance(ps[j].asset, ps[j].free, ps[j].lock)
    {
      balances := balances + [Balance(ps[i].asset, ps[i].free, ps[i].lock)];
    }
  }

  // ------------------------------------------------------ account balance

  /** parseAccountBalance as written: true when the B lookup or its decoding
      fails. The slice it decodes into is its own copy, so the caller learns
      nothing but this flag. */
  function ParseAccountBalance(f: Frame): bool {
    match Get(f, "B")
    case Failure(_) => true
    case Success(raw) => DecodeBalances(raw).Failure?
  }

  /** What parseAccountBalance evidently means to hand back: the decoded B. */
  function BalancesOf(f: Frame): (r: Result<seq<PayloadBalance>, JsonError>)
    ensures r.Success? <==> Get(f, "B").Success? && DecodeBalances(Get(f, "B").value).Success?
    ensures r.Success? ==> r.value == DecodeBalances(Get(f, "B").value).value
  {
    var raw :- Get(f, "B");
    DecodeBalances(raw)
  }

  /** The flag of the written parseAccountBalance is exactly the failure of
      the corrected one: the two accept the same frames. */
  lemma ParseAccountBalanceFlag(f: Frame)
    ensures ParseAccountBalance(f) <==> BalancesOf(f).Failure?
  {
  }

  // ------------------------------------------------------- balance update

  const BalanceUpdateFields: seq<(string, Kind)> :=
    [("E", Int64Kind), ("a", StringKind), ("d", StringKind), ("T", Int64Kind)]

  /** The same record with the event type given a field of its own. */
  const TypedBalanceUpdateFields: seq<(string, Kind)> := [("e", StringKind)] + BalanceUpdateFields

  /** json.Unmarshal of a whole balanceUpdate frame into the record as
      written: the frame's "e" member has no field of its name and lands,
      case folded, in the int64 field E. */
  function DecodeBalanceUpdate(f: Frame): Result<BalanceUpdate, JsonError> {
    match f
    case Unparsable => Failure(Malformed)
    case Document(v) =>
      var s :- DecodeStruct(BalanceUpdateFields, v);
      Success(BalanceUpdate(IntOf(s[0]), StrOf(s[1]), StrOf(s[2]), IntOf(s[3])))
  }

  /** The corrected decoding: the record also has a string field for "e". */
  function DecodeTypedBalanceUpdate(f: Frame): Result<BalanceUpdate, JsonError> {
    match f
    case Unparsable => Failure(Malformed)
    case Document(v) =>
      var s :- DecodeStruct(TypedBalanceUpdateFields, v);
      Success(BalanceUpdate(IntOf(s[1]), StrOf(s[2]), StrOf(s[3]), IntOf(s[4])))
  }

  /** The key "e" lands in the int64 field E of the record as written. */
  lemma EventKeyFoldsOntoE()
    ensures FieldFor(BalanceUpdateFields, "e") == Some(0)
    ensures BalanceUpdateFields[0] == ("E", Int64Kind)
  {
    assert EqualFoldAscii("E", "e");
    assert "E" != "e" && "a" != "e" && "d" != "e" && "T" != "e";
  }

  /** Every frame the dispatcher sends to the balanceUpdate case has a
      string "e", so decoding it as written always fails. */
  lemma BalanceUpdateAlwaysFails(f: Frame)
    requires GetString(f, "e").Success?
    ensures DecodeBalanceUpdate(f).Failure?
  {
    var ms := f.doc.members;
    var k :| 0 <= k < |ms| && ms[k] == ("e", Member(ms, "e").value) && forall j :: 0 <= j < k ==> ms[j].0 != "e";
    EventKeyFoldsOntoE();
    assert Member(ms, "e").value.JString?;
    MisfitMemberFails(BalanceUpdateFields, ms, Zeros(BalanceUpdateFields), false, k);
  }
}
