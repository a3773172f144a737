/**
 * The user-data-stream dispatcher of binance_ws_worker.go (AccountDataWorker)
 * and of its older copy binance_ws.go (Client): processMessages reads frames
 * in order, switches on the string field "e" and hands each handled event
 * to the account store; any failure ends the loop. initWSSession writes the
 * store only once both REST calls have succeeded.
 *
 * The store lives in a package that is not part of this model: it is a
 * class that records the calls it receives, and whether a call fails is
 * its own business, given as a function of the calls before it.
 */
module UserStream {
  import opened Wrappers
  import opened Json
  import opened Common
  import opened StreamPayload

  const OutboundAccountInfo := "outboundAccountInfo"
  const OutboundAccountPosition := "outboundAccountPosition"
  const BalanceUpdateEvent := "balanceUpdate"
  const ExecutionReport := "executionReport"

  /** A call into the account store. */
  datatype StoreCall =
    | SetAccountInfo(info: AccountInfo)        // binance_ws_worker.go
    | UpdateAccountInfo(info: AccountInfo)     // binance_ws.go
    | UpdateBalance(balances: seq<PayloadBalance>)
    | UpdateBalanceDelta(update: BalanceUpdate)

  /** Which of the two copies of the dispatcher. */
  datatype Variant = Worker | Legacy

  /** The decoders as written, or with the two corrections of the findings:
      parseAccountBalance handing its balances back, and the balanceUpdate
      record given a field for "e". */
  datatype Decoding = AsWritten | Corrected

  /** The store: the calls it has received, in order. */
  class AccountStore {
    var trace: seq<StoreCall>
    /** Whether the store reports an error for a call, after the calls before it. */
    const fails: (seq<StoreCall>, StoreCall) -> bool

    constructor (fails: (seq<StoreCall>, StoreCall) -> bool)
      ensures trace == [] && this.fails == fails
    {
      trace := [];
      this.fails := fails;
    }

    /** One call: recorded, and answered. */
    method Call(c: StoreCall) returns (failed: bool)
      modifies this
      ensures trace == old(trace) + [c]
      ensures failed == fails(old(trace), c)
    {
      failed := fails(trace, c);
      trace := trace + [c];
    }
  }

  // ------------------------------------------------------------- dispatch

  /** What one frame makes the loop do. */
  datatype Action = Stop | Skip | Store(call: StoreCall)

  /** The store call of an outboundAccountInfo frame in each copy. */
  function InfoCall(v: Variant, info: AccountInfo): StoreCall {
    if v == Worker then SetAccountInfo(info) else UpdateAccountInfo(info)
  }

  /** The switch on "e" for one frame. */
  function Route(f: Frame, v: Variant, d: Decoding): Action {
    match GetString(f, "e")
    case Failure(_) => Stop
    case Success(e) =>
      if e == OutboundAccountInfo then
        (match AccountInfoOf(f)
         case Failure(_) => Stop
         case Success(info) => Store(InfoCall(v, info)))
      else if e == OutboundAccountPosition then
        (if d == AsWritten then
           (if ParseAccountBalance(f) then Stop else Store(UpdateBalance([])))
         else
           (match BalancesOf(f)
            case Failure(_) => Stop
            case Success(bs) => Store(UpdateBalance(bs))))
      else if e == BalanceUpdateEvent then
        (match (if d == AsWritten then DecodeBalanceUpdate(f) else DecodeTypedBalanceUpdate(f))
         case Failure(_) => Stop
         case Success(u) => Store(UpdateBalanceDelta(u)))
      else Skip
  }

  /** What the switch makes of each frame, in order. */
  function Actions(frames: seq<Frame>, v: Variant, d: Decoding): (acts: seq<Action>)
    ensures |acts| == |frames|
    ensures forall i :: 0 <= i < |frames| ==> acts[i] == Route(frames[i], v, d)
  {
    seq(|frames|, i requires 0 <= i < |frames| => Route(frames[i], v, d))
  }

  /** The loop of processMessages over a finite run of actions: the store's
      trace after it, and whether the loop returned (true) or the frames ran
      out (false). */
  function Steps(fails: (seq<StoreCall>, StoreCall) -> bool, trace: seq<StoreCall>, acts: seq<Action>)
    : (r: (seq<StoreCall>, bool))
    ensures |trace| <= |r.0| <= |trace| + |acts|
    ensures r.0[..|trace|] == trace
    decreases |acts|
  {
    if acts == [] then (trace, false)
    else
      match acts[0]
      case Stop => (trace, true)
      case Skip => Steps(fails, trace, acts[1..])
      case Store(c) =>
        if fails(trace, c) then (trace + [c], true)
        else
          var r := Steps(fails, trace + [c], acts[1..]);
          assert r.0[..|trace|] == (r.0[..|trace + [c]|])[..|trace|];
          r
  }

  /** processMessages over a finite run of frames. */
  function Run(fails: (seq<StoreCall>, StoreCall) -> bool, trace: seq<StoreCall>, frames: seq<Frame>, v: Variant, d: Decoding)
    : (seq<StoreCall>, bool)
  {
    Steps(fails, trace, Actions(frames, v, d))
  }

  /** The store calls the actions ask for, in order, failures aside. */
  function Calls(acts: seq<Action>): (cs: seq<StoreCall>)
    ensures |cs| <= |acts|
  {
    if acts == [] then []
    else if acts[0].Store? then [acts[0].call] + Calls(acts[1..])
    else Calls(acts[1..])
  }

  /** processMessages: `for m := range messages` with a return on the first
      failure. */
  method ProcessMessages(store: AccountStore, frames: seq<Frame>, v: Variant, d: Decoding) returns (returned: bool)
    modifies store
    ensures (store.trace, returned) == Run(store.fails, old(store.trace), frames, v, d)
  {
    ghost var acts := Actions(frames, v, d);
    var i := 0;
    while i < |frames|
      invariant 0 <= i <= |frames|
      invariant Steps(store.fails, store.trace, acts[i..]) == Steps(store.fails, old(store.trace), acts)
    {
      assert acts[i..][0] == acts[i] && acts[i..][1..] == acts[i + 1..];
      var action := Route(frames[i], v, d);
      if action.Stop? {
        return true;
      }
      if action.Store? {
        var failed := store.Call(action.call);
        if failed {
          return true;
        }
      }
      i := i + 1;
    }
    return false;
  }

  // ---------------------------------------------------- loop properties

  /** Once the loop has returned, later frames change nothing: no frame
      after the one that stopped it reaches the store. */
  lemma {:induction false} StepsIgnoreLater(fails: (seq<StoreCall>, StoreCall) -> bool, trace: seq<StoreCall>,
                                            acts: seq<Action>, later: seq<Action>)
    requires Steps(fails, trace, acts).1
    ensures Steps(fails, trace, acts + later) == Steps(fails, trace, acts)
    decreases |acts|
  {
    assert acts != [];
    assert (acts + later)[0] == acts[0];
    assert (acts + later)[1..] == acts[1..] + later;
    match acts[0]
    case Stop =>
    case Skip => StepsIgnoreLater(fails, trace, acts[1..], later);
    case Store(c) =>
      if !fails(trace, c) {
        StepsIgnoreLater(fails, trace + [c], acts[1..], later);
      }
  }

  /** The calls of the first action. */
  function HeadCalls(acts: seq<Action>): seq<StoreCall>
    requires acts != []
  {
    if acts[0].Store? then [acts[0].call] else []
  }

  /** Calls of a leading run, first action split off. */
  lemma CallsOfPrefix(acts: seq<Action>, k: nat)
    requires k < |acts|
    ensures Calls(acts[..k + 1]) == HeadCalls(acts) + Calls(acts[1..][..k])
  {
    assert acts[..k + 1][0] == acts[0];
    assert acts[..k + 1][1..] == acts[1..][..k];
  }

  /** A step that neither stops nor fails passes its call on. */
  lemma StepOn(fails: (seq<StoreCall>, StoreCall) -> bool, trace: seq<StoreCall>, acts: seq<Action>)
    requires acts != [] && !acts[0].Stop?
    requires acts[0].Store? ==> !fails(trace, acts[0].call)
    ensures Steps(fails, trace, acts) == Steps(fails, trace + HeadCalls(acts), acts[1..])
  {
    if acts[0].Skip? {
      assert trace + HeadCalls(acts) == trace;
    }
  }

  /** How many frames the loop reads: up to and including the one that
      stops it, or all of them. */
  function Consumed(fails: (seq<StoreCall>, StoreCall) -> bool, trace: seq<StoreCall>, acts: seq<Action>): (n: nat)
    ensures n <= |acts|
    ensures Steps(fails, trace, acts).1 ==> n > 0
    decreases |acts|
  {
    if acts == [] then 0
    else if acts[0].Stop? || (acts[0].Store? && fails(trace, acts[0].call)) then 1
    else 1 + Consumed(fails, trace + HeadCalls(acts), acts[1..])
  }

  /** The store receives exactly the calls of the frames the loop read,
      whole and in frame order; the frame that stopped the loop is the last
      one read. */
  lemma {:induction false} StepsCallsPrefix(fails: (seq<StoreCall>, StoreCall) -> bool, trace: seq<StoreCall>, acts: seq<Action>)
    ensures Steps(fails, trace, acts).0 == trace + Calls(acts[..Consumed(fails, trace, acts)])
    ensures Steps(fails, trace, acts).1 ==> Steps(fails, trace, acts[..Consumed(fails, trace, acts)]).1
    decreases |acts|
  {
    var n := Consumed(fails, trace, acts);
    if acts == [] {
    } else if acts[0].Stop? || (acts[0].Store? && fails(trace, acts[0].call)) {
      CallsOfPrefix(acts, 0);
      assert acts[..1] == [acts[0]];
    } else {
      var t := trace + HeadCalls(acts);
      StepOn(fails, trace, acts);
      StepsCallsPrefix(fails, t, acts[1..]);
      CallsOfPrefix(acts, n - 1);
      assert acts[..n][1..] == acts[1..][..n - 1];
      StepOn(fails, trace, acts[..n]);
    }
  }

  /** When the loop ran out of frames, the store received every call. */
  lemma {:induction false} StepsDrained(fails: (seq<StoreCall>, StoreCall) -> bool, trace: seq<StoreCall>, acts: seq<Action>)
    requires !Steps(fails, trace, acts).1
    ensures Steps(fails, trace, acts).0 == trace + Calls(acts)
    decreases |acts|
  {
    if acts != [] {
      StepOn(fails, trace, acts);
      StepsDrained(fails, trace + HeadCalls(acts), acts[1..]);
      assert Calls(acts) == HeadCalls(acts) + Calls(acts[1..]);
    }
  }

  /** With a store that never fails and no frame that stops the loop, the
      loop runs out of frames rather than returning. */
  lemma {:induction false} StepsRunOut(fails: (seq<StoreCall>, StoreCall) -> bool, trace: seq<StoreCall>, acts: seq<Action>)
    requires forall t, c :: !fails(t, c)
    requires forall i :: 0 <= i < |acts| ==> !acts[i].Stop?
    ensures !Steps(fails, trace, acts).1
    decreases |acts|
  {
    if acts != [] {
      assert !acts[0].Stop?;
      StepOn(fails, trace, acts);
      StepsRunOut(fails, trace + HeadCalls(acts), acts[1..]);
    }
  }

  // ------------------------------------------------------- routing facts

  /** A frame without a string "e" ends the loop, before any store call. */
  lemma NoEventTypeStops(fails: (seq<StoreCall>, StoreCall) -> bool, trace: seq<StoreCall>,
                         frames: seq<Frame>, v: Variant, d: Decoding)
    requires |frames| > 0 && GetString(frames[0], "e").Failure?
    ensures Run(fails, trace, frames, v, d) == (trace, true)
  {
    assert Actions(frames, v, d)[0] == Stop;
  }

  /** Only the three handled event types reach the store, each with its
      own call; executionReport and unknown types are skipped and any
      parse failure stops. */
  lemma RouteByEventType(f: Frame, v: Variant, d: Decoding)
    ensures Route(f, v, d).Store? ==> GetString(f, "e").Success?
    ensures var a := Route(f, v, d); var e := GetString(f, "e");
      && (a.Store? && (a.call.SetAccountInfo? || a.call.UpdateAccountInfo?) ==> e.value == OutboundAccountInfo)
      && (a.Store? && a.call.UpdateBalance? ==> e.value == OutboundAccountPosition)
      && (a.Store? && a.call.UpdateBalanceDelta? ==> e.value == BalanceUpdateEvent)
      && (a.Store? && a.call.SetAccountInfo? ==> v == Worker)
      && (a.Store? && a.call.UpdateAccountInfo? ==> v == Legacy)
    ensures var e := GetString(f, "e");
      e.Success? && e.value !in {OutboundAccountInfo, OutboundAccountPosition, BalanceUpdateEvent} ==> Route(f, v, d) == Skip
  {
  }

  /** An outboundAccountInfo frame is stored exactly when parseAccountInfo
      succeeds, with the account it parsed. */
  lemma AccountInfoRouting(f: Frame, v: Variant, d: Decoding)
    requires GetString(f, "e") == Success(OutboundAccountInfo)
    ensures Route(f, v, d) == if AccountInfoOf(f).Failure? then Stop else Store(InfoCall(v, AccountInfoOf(f).value))
  {
  }

  // ------------------------------------------------------------ findings

  /** As written, every balanceUpdate frame stops the loop: its "e" lands
      in the int64 field, so the store never sees a balance delta. */
  lemma BalanceUpdateHalts(f: Frame, v: Variant)
    requires GetString(f, "e") == Success(BalanceUpdateEvent)
    ensures Route(f, v, AsWritten) == Stop
  {
    BalanceUpdateAlwaysFails(f);
  }

  function SampleBalance(asset: string, free: string, locked: string): Json {
    JObject([("a", JString(asset)), ("f", JString(free)), ("l", JString(locked))])
  }

  /** The outboundAccountPosition frame of binance_ws_worker_test.go. */
  const PositionFrame: Frame := Document(JObject([
    ("e", JString(OutboundAccountPosition)), ("E", JInt(1600749480712)), ("u", JInt(1600749480711)),
    ("B", JArray([SampleBalance("BNB", "1.60268308", "0.00000000"),
                  SampleBalance("USDT", "1000.24006746", "0.00000000"),
                  SampleBalance("UNI", "1.54197400", "75.34000000")]))]))

  /** The balances of that frame, as the test expects them. */
  const PositionBalances: seq<PayloadBalance> := [
    PayloadBalance("BNB", "1.60268308", "0.00000000"),
    PayloadBalance("USDT", "1000.24006746", "0.00000000"),
    PayloadBalance("UNI", "1.54197400", "75.34000000")]

  /** Decoding one sample balance. */
  lemma SampleBalanceDecodes(asset: string, free: string, locked: string)
    ensures DecodePayloadBalance(SampleBalance(asset, free, locked)) == Success(PayloadBalance(asset, free, locked))
  {
    var ms := [("a", JString(asset)), ("f", JString(free)), ("l", JString(locked))];
    assert FieldFor(PayloadFields, "a") == Some(0);
    assert FieldFor(PayloadFields, "f") == Some(1);
    assert FieldFor(PayloadFields, "l") == Some(2);
    var z := Zeros(PayloadFields);
    var s := [Str(asset), Str(free), Str(locked)];
    assert z == [Str(""), Str(""), Str("")];
    calc {
      DecodeMembers(PayloadFields, ms, z, false);
      DecodeMembers(PayloadFields, ms[1..], z[0 := Str(asset)], false);
      DecodeMembers(PayloadFields, ms[2..], z[0 := Str(asset)][1 := Str(free)], false);
      DecodeMembers(PayloadFields, ms[3..], z[0 := Str(asset)][1 := Str(free)][2 := Str(locked)], false);
      { assert z[0 := Str(asset)][1 := Str(free)][2 := Str(locked)] == s; }
      Success(s);
    }
  }

  /** The corrected parseAccountBalance hands the test's balances to the store. */
  lemma PositionFrameCorrected(v: Variant)
    ensures Route(PositionFrame, v, Corrected) == Store(UpdateBalance(PositionBalances))
  {
    PositionFrameBalances();
    assert GetString(PositionFrame, "e") == Success(OutboundAccountPosition);
  }

  /** The B member of the test frame decodes to the test's balances. */
  lemma PositionFrameBalances()
    ensures BalancesOf(PositionFrame) == Success(PositionBalances)
  {
    var items := [SampleBalance("BNB", "1.60268308", "0.00000000"),
                  SampleBalance("USDT", "1000.24006746", "0.00000000"),
                  SampleBalance("UNI", "1.54197400", "75.34000000")];
    assert Get(PositionFrame, "B") == Success(JArray(items));
    SampleBalanceDecodes("BNB", "1.60268308", "0.00000000");
    SampleBalanceDecodes("USDT", "1000.24006746", "0.00000000");
    SampleBalanceDecodes("UNI", "1.54197400", "75.34000000");
    var r := DecodeBalanceItems(items);
    assert r.Success?;
    assert r.value == PositionBalances;
  }

  /** As written, the same frame decodes without error and the store is
      given no balances at all. */
  lemma PositionFrameAsWritten(v: Variant)
    ensures Route(PositionFrame, v, AsWritten) == Store(UpdateBalance([]))
  {
    PositionFrameCorrected(v);
    ParseAccountBalanceFlag(PositionFrame);
  }

  /** A balanceUpdate frame in the layout the exchange sends. */
  function BalanceUpdateDoc(eventTime: int, asset: string, delta: string, clearTime: int): Frame {
    Document(JObject([
      ("e", JString(BalanceUpdateEvent)), ("E", JInt(eventTime)), ("a", JString(asset)),
      ("d", JString(delta)), ("T", JInt(clearTime))]))
  }

  const BalanceUpdateFrame: Frame := BalanceUpdateDoc(1573200697110, "BTC", "100.00000000", 1573200697068)

  /** With a field for "e", the frame decodes and reaches the store. */
  lemma BalanceUpdateFrameCorrected(v: Variant)
    ensures Route(BalanceUpdateFrame, v, Corrected)
         == Store(UpdateBalanceDelta(BalanceUpdate(1573200697110, "BTC", "100.00000000", 1573200697068)))
  {
    assert GetString(BalanceUpdateFrame, "e") == Success(BalanceUpdateEvent);
    BalanceUpdateDocDecodes(1573200697110, "BTC", "100.00000000", 1573200697068);
  }

  /** Every frame of that layout decodes, under the corrected record, to
      the values it carries. */
  lemma BalanceUpdateDocDecodes(eventTime: int, asset: string, delta: string, clearTime: int)
    requires IsInt64(eventTime) && IsInt64(clearTime)
    ensures DecodeTypedBalanceUpdate(BalanceUpdateDoc(eventTime, asset, delta, clearTime))
         == Success(BalanceUpdate(eventTime, asset, delta, clearTime))
  {
    var fs := TypedBalanceUpdateFields;
    var ms := BalanceUpdateDoc(eventTime, asset, delta, clearTime).doc.members;
    var xs := [Str(BalanceUpdateEvent), Int(eventTime), Str(asset), Str(delta), Int(clearTime)];
    assert fs == [("e", StringKind), ("E", Int64Kind), ("a", StringKind), ("d", StringKind), ("T", Int64Kind)];
    forall i | 0 <= i < 5 ensures FieldFor(fs, ms[i].0) == Some(i) && StoreScalar(fs[i].1, ms[i].1) == Some(Some(xs[i])) {
      TypedFieldIndex(ms[i].0, i);
    }
    var z := Zeros(fs);
    assert z[..0] == xs[..0];
    DecodeFieldsInOrder(fs, ms, xs, z, 0);
    assert ms[0..] == ms;
  }

  /** Each key of the typed record lands in the field of its own name. */
  lemma TypedFieldIndex(key: string, i: nat)
    requires i < |TypedBalanceUpdateFields| && TypedBalanceUpdateFields[i].0 == key
    ensures FieldFor(TypedBalanceUpdateFields, key) == Some(i)
  {
    var fs := TypedBalanceUpdateFields;
    assert fs == [("e", StringKind), ("E", Int64Kind), ("a", StringKind), ("d", StringKind), ("T", Int64Kind)];
    assert fs[i].0 == key;
  }

  // ------------------------------------------------------------- session

  /** initWSSession with the two REST results as inputs: the listen key on
      full success, after the store has been given the account; "" and the
      first error otherwise, with the store untouched. The store's answer
      to that call is ignored. */
  method InitWSSession(store: AccountStore, listenKey: Result<string, Error>, account: Result<AccountInfo, Error>)
    returns (key: string, err: Option<Error>)
    modifies store
    ensures listenKey.Failure? ==> key == "" && err == Some(listenKey.error) && store.trace == old(store.trace)
    ensures listenKey.Success? && account.Failure? ==> key == "" && err == Some(account.error) && store.trace == old(store.trace)
    ensures listenKey.Success? && account.Success? ==>
              key == listenKey.value && err == None && store.trace == old(store.trace) + [SetAccountInfo(account.value)]
  {
    if listenKey.Failure? {
      return "", Some(listenKey.error);
    }
    if account.Failure? {
      return "", Some(account.error);
    }
    var _ := store.Call(SetAccountInfo(account.value));
    return listenKey.value, None;
  }
}
