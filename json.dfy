/**
 * JSON documents as the user-data-stream code reads them, and the two
 * libraries it reads them with: buger/jsonparser (Get, GetString, GetInt,
 * GetBoolean look up one top-level key) and encoding/json (Unmarshal into
 * a struct or a slice of structs).
 */
module Json {
  import opened Wrappers
  import opened Text

  /** A parsed JSON value. Numbers are split into integer literals and the
      other number literals (fractions, exponents), kept as written. */
  datatype Json =
    | JNull
    | JBool(b: bool)
    | JInt(n: int)
    | JFrac(lexeme: string)
    | JString(s: string)
    | JArray(items: seq<Json>)
    | JObject(members: seq<(string, Json)>)

  /** One frame off the socket: a JSON document, or bytes that are not one. */
  datatype Frame = Unparsable | Document(doc: Json)

  datatype JsonError =
    | KeyPathNotFound   // jsonparser: no such top-level key
    | WrongType         // jsonparser: the value is not of the requested type
    | BadNumber         // jsonparser: not an integer literal, or outside int64
    | Malformed         // the bytes are not JSON
    | UnmarshalType     // encoding/json: a value does not fit the Go type

  const MinInt64: int := -0x8000_0000_0000_0000
  const MaxInt64: int := 0x7fff_ffff_ffff_ffff

  predicate IsInt64(n: int) {
    MinInt64 <= n <= MaxInt64
  }

  // ------------------------------------------------------------ jsonparser

  /** The value of the first member with exactly this key. */
  function Member(ms: seq<(string, Json)>, key: string): (r: Option<Json>)
    ensures r.None? <==> forall i :: 0 <= i < |ms| ==> ms[i].0 != key
    ensures r.Some? ==> exists i :: 0 <= i < |ms| && ms[i] == (key, r.value) && forall j :: 0 <= j < i ==> ms[j].0 != key
  {
    if ms == [] then None
    else if ms[0].0 == key then Some(ms[0].1)
    else
      var r := Member(ms[1..], key);
      assert r.Some? ==> exists i :: 0 <= i < |ms| && ms[i] == (key, r.value) && forall j :: 0 <= j < i ==> ms[j].0 != key by {
        if r.Some? {
          var i :| 0 <= i < |ms[1..]| && ms[1..][i] == (key, r.value) && forall j :: 0 <= j < i ==> ms[1..][j].0 != key;
          assert ms[i + 1] == (key, r.value);
          forall j | 0 <= j < i + 1 ensures ms[j].0 != key {
            if j > 0 { assert ms[j] == ms[1..][j - 1]; }
          }
        }
      }
      r
  }

  /** jsonparser.Get(data, key): the raw value of the first top-level member named key. */
  function Get(f: Frame, key: string): (r: Result<Json, JsonError>)
    ensures r.Success? <==> f.Document? && f.doc.JObject? && Member(f.doc.members, key).Some?
    ensures r.Success? ==> r.value == Member(f.doc.members, key).value
  {
    match f
    case Unparsable => Failure(Malformed)
    case Document(JObject(ms)) =>
      (match Member(ms, key)
       case None => Failure(KeyPathNotFound)
       case Some(v) => Success(v))
    case Document(_) => Failure(KeyPathNotFound)
  }

  /** jsonparser.GetString: the member must hold a string. */
  function GetString(f: Frame, key: string): (r: Result<string, JsonError>)
    ensures r.Success? <==> Get(f, key).Success? && Get(f, key).value.JString?
    ensures r.Success? ==> Get(f, key).value == JString(r.value)
  {
    var v :- Get(f, key);
    if v.JString? then Success(v.s) else Failure(WrongType)
  }

  /** jsonparser.GetInt: the member must hold an integer literal that fits in int64. */
  function GetInt(f: Frame, key: string): (r: Result<int, JsonError>)
    ensures r.Success? <==> Get(f, key).Success? && Get(f, key).value.JInt? && IsInt64(Get(f, key).value.n)
    ensures r.Success? ==> Get(f, key).value == JInt(r.value) && IsInt64(r.value)
  {
    var v :- Get(f, key);
    match v
    case JInt(n) => if IsInt64(n) then Success(n) else Failure(BadNumber)
    case JFrac(_) => Failure(BadNumber)
    case _ => Failure(WrongType)
  }

  /** jsonparser.GetBoolean: the member must hold true or false. */
  function GetBoolean(f: Frame, key: string): (r: Result<bool, JsonError>)
    ensures r.Success? <==> Get(f, key).Success? && Get(f, key).value.JBool?
    ensures r.Success? ==> Get(f, key).value == JBool(r.value)
  {
    var v :- Get(f, key);
    if v.JBool? then Success(v.b) else Failure(WrongType)
  }

  // --------------------------------------------------------- encoding/json

  /** The Go types of the struct fields decoded here. */
  datatype Kind = StringKind | Int64Kind

  datatype Scalar = Str(s: string) | Int(n: int)

  function Zero(k: Kind): Scalar {
    match k
    case StringKind => Str("")
    case Int64Kind => Int(0)
  }

  function Zeros(fields: seq<(string, Kind)>): (r: seq<Scalar>)
    ensures |r| == |fields|
    ensures forall i :: 0 <= i < |fields| ==> r[i] == Zero(fields[i].1)
  {
    if fields == [] then [] else [Zero(fields[0].1)] + Zeros(fields[1..])
  }

  function IndexOfName(fields: seq<(string, Kind)>, key: string): (r: Option<nat>)
    ensures r.Some? ==> r.value < |fields| && fields[r.value].0 == key
    ensures r.None? ==> forall i :: 0 <= i < |fields| ==> fields[i].0 != key
  {
    if fields == [] then None
    else if fields[0].0 == key then Some(0)
    else match IndexOfName(fields[1..], key)
      case None => None
      case Some(i) => Some(i + 1)
  }

  function IndexOfFolded(fields: seq<(string, Kind)>, key: string): (r: Option<nat>)
    ensures r.Some? ==> r.value < |fields| && EqualFoldAscii(fields[r.value].0, key)
    ensures r.None? ==> forall i :: 0 <= i < |fields| ==> !EqualFoldAscii(fields[i].0, key)
  {
    if fields == [] then None
    else if EqualFoldAscii(fields[0].0, key) then Some(0)
    else match IndexOfFolded(fields[1..], key)
      case None => None
      case Some(i) => Some(i + 1)
  }

  /** The field a member key lands in: the field of exactly that name, else
      the first field whose name equals the key up to case. (Go folds case
      with Unicode simple folding; for the ASCII field names decoded here
      that is ASCII case folding.) Keys matching no field are ignored. */
  function FieldFor(fields: seq<(string, Kind)>, key: string): (r: Option<nat>)
    ensures r.Some? ==> r.value < |fields|
    ensures (exists i :: 0 <= i < |fields| && fields[i].0 == key) ==> r.Some? && fields[r.value].0 == key
  {
    match IndexOfName(fields, key)
    case Some(i) => Some(i)
    case None => IndexOfFolded(fields, key)
  }

  /** What storing v into a field of kind k does: None when the value does not
      fit (a type error), Some(None) for null (the field is left as it is),
      Some(Some(x)) for a new field value. */
  function StoreScalar(k: Kind, v: Json): Option<Option<Scalar>> {
    match (k, v)
    case (_, JNull) => Some(None)
    case (StringKind, JString(s)) => Some(Some(Str(s)))
    case (Int64Kind, JInt(n)) => if IsInt64(n) then Some(Some(Int(n))) else None
    case _ => None
  }

  /** The members of an object, in order, each one overwriting its field;
      a type error is remembered and decoding goes on, as encoding/json does. */
  function DecodeMembers(fields: seq<(string, Kind)>, ms: seq<(string, Json)>, acc: seq<Scalar>, failed: bool): (r: Result<seq<Scalar>, JsonError>)
    requires |acc| == |fields|
    ensures r.Success? ==> |r.value| == |fields|
  {
    if ms == [] then (if failed then Failure(UnmarshalType) else Success(acc))
    else
      match FieldFor(fields, ms[0].0)
      case None => DecodeMembers(fields, ms[1..], acc, failed)
      case Some(i) =>
        match StoreScalar(fields[i].1, ms[0].1)
        case None => DecodeMembers(fields, ms[1..], acc, true)
        case Some(None) => DecodeMembers(fields, ms[1..], acc, failed)
        case Some(Some(x)) => DecodeMembers(fields, ms[1..], acc[i := x], failed)
  }

  /** json.Unmarshal into a struct of string and int64 fields: null leaves the
      zero struct, an object is decoded member by member, anything else is a
      type error. */
  function DecodeStruct(fields: seq<(string, Kind)>, v: Json): (r: Result<seq<Scalar>, JsonError>)
    ensures r.Success? ==> |r.value| == |fields|
  {
    match v
    case JNull => Success(Zeros(fields))
    case JObject(ms) => DecodeMembers(fields, ms, Zeros(fields), false)
    case _ => Failure(UnmarshalType)
  }

  /** One member that fits its field: the field takes its value. */
  lemma DecodeStoresMember(fields: seq<(string, Kind)>, ms: seq<(string, Json)>, acc: seq<Scalar>, i: nat, x: Scalar)
    requires |acc| == |fields| && ms != []
    requires FieldFor(fields, ms[0].0) == Some(i) && StoreScalar(fields[i].1, ms[0].1) == Some(Some(x))
    ensures DecodeMembers(fields, ms, acc, false) == DecodeMembers(fields, ms[1..], acc[i := x], false)
  {
  }

  /** An object whose members name the fields in order, each with a value
      that fits, decodes to exactly those values. */
  lemma {:induction false} DecodeFieldsInOrder(fields: seq<(string, Kind)>, ms: seq<(string, Json)>, xs: seq<Scalar>, acc: seq<Scalar>, j: nat)
    requires |ms| == |fields| == |xs| == |acc| && j <= |ms|
    requires forall i :: j <= i < |ms| ==> FieldFor(fields, ms[i].0) == Some(i) && StoreScalar(fields[i].1, ms[i].1) == Some(Some(xs[i]))
    requires acc[..j] == xs[..j]
    ensures DecodeMembers(fields, ms[j..], acc, false) == Success(xs)
    decreases |ms| - j
  {
    if j == |ms| {
      assert acc == acc[..j] && xs == xs[..j];
    } else {
      DecodeStoresMember(fields, ms[j..], acc, j, xs[j]);
      assert ms[j..][1..] == ms[j + 1..];
      assert acc[j := xs[j]][..j + 1] == xs[..j + 1];
      DecodeFieldsInOrder(fields, ms, xs, acc[j := xs[j]], j + 1);
    }
  }

  /** Once a type error is remembered the result is an error, whatever follows. */
  lemma {:induction false} FailedStaysFailed(fields: seq<(string, Kind)>, ms: seq<(string, Json)>, acc: seq<Scalar>)
    requires |acc| == |fields|
    ensures DecodeMembers(fields, ms, acc, true) == Failure(UnmarshalType)
  {
    if ms != [] {
      match FieldFor(fields, ms[0].0)
      case None => FailedStaysFailed(fields, ms[1..], acc);
      case Some(i) =>
        match StoreScalar(fields[i].1, ms[0].1)
        case None => FailedStaysFailed(fields, ms[1..], acc);
        case Some(None) => FailedStaysFailed(fields, ms[1..], acc);
        case Some(Some(x)) => FailedStaysFailed(fields, ms[1..], acc[i := x]);
    }
  }

  /** A member that lands in a field it does not fit makes the whole decoding fail. */
  lemma {:induction false} MisfitMemberFails(fields: seq<(string, Kind)>, ms: seq<(string, Json)>, acc: seq<Scalar>, failed: bool, k: nat)
    requires |acc| == |fields|
    requires k < |ms| && FieldFor(fields, ms[k].0).Some?
    requires StoreScalar(fields[FieldFor(fields, ms[k].0).value].1, ms[k].1).None?
    ensures DecodeMembers(fields, ms, acc, failed) == Failure(UnmarshalType)
  {
    if k == 0 {
      FailedStaysFailed(fields, ms[1..], acc);
    } else {
      assert ms[1..][k - 1] == ms[k];
      match FieldFor(fields, ms[0].0)
      case None => MisfitMemberFails(fields, ms[1..], acc, failed, k - 1);
      case Some(i) =>
        match StoreScalar(fields[i].1, ms[0].1)
        case None => FailedStaysFailed(fields, ms[1..], acc);
        case Some(None) => MisfitMemberFails(fields, ms[1..], acc, failed, k - 1);
        case Some(Some(x)) => MisfitMemberFails(fields, ms[1..], acc[i := x], failed, k - 1);
    }
  }
}
