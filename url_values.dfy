/**
 * The part of Go's net/url the request builder stands on: url.Values (a map
 * from a key to its list of values), Values.Set, QueryEscape, QueryUnescape,
 * ParseQuery (what URL.Query() returns) and Values.Encode, which writes the
 * pairs sorted by key.
 */
module UrlValues {
  import opened Wrappers
  import opened Text
  import Hex

  type Values = map<string, seq<string>>

  /** Values.Set: the key afterwards holds exactly one value, the given one. */
  function Set(v: Values, key: string, value: string): (r: Values)
    ensures r.Keys == v.Keys + {key}
    ensures r[key] == [value]
    ensures forall k :: k in v && k != key ==> r[k] == v[k]
  {
    v[key := [value]]
  }

  /** The values already held under a key; a missing key holds none. */
  function ValuesOf(v: Values, key: string): seq<string> {
    if key in v then v[key] else []
  }

  // ---------------------------------------------------------------- escaping

  /** The characters QueryEscape leaves alone (shouldEscape in net/url, query-component mode). */
  predicate Unreserved(c: char) {
    ('a' <= c <= 'z') || ('A' <= c <= 'Z') || ('0' <= c <= '9') || c == '-' || c == '_' || c == '.' || c == '~'
  }

  function UpperHexChar(n: nat): (c: char)
    requires n < 16
    ensures Hex.HexValue(c) == Some(n)
  {
    if n < 10 then ('0' as int + n) as char else ('A' as int + n - 10) as char
  }

  /** "%XY" for every byte, upper-case digits. */
  function PercentBytes(b: seq<Byte>): (s: string)
    ensures |s| == 3 * |b|
  {
    if b == [] then "" else ['%', UpperHexChar(b[0] as int / 16), UpperHexChar(b[0] as int % 16)] + PercentBytes(b[1..])
  }

  function EscapeChar(c: char): string {
    if c == ' ' then "+"
    else if Unreserved(c) then [c]
    else PercentBytes(Utf8EncodeChar(c))
  }

  /** url.QueryEscape: every byte of the UTF-8 text that is not unreserved is
      written as %XY, and a space as '+'. */
  function QueryEscape(s: string): string {
    if s == "" then "" else EscapeChar(s[0]) + QueryEscape(s[1..])
  }

  /** The bytes a query component stands for: '%' must be followed by two hex
      digits, '+' is a space, any other character stands for its UTF-8 bytes. */
  function UnescapeBytes(s: string): Option<seq<Byte>>
    decreases |s|
  {
    if s == "" then Some([])
    else if s[0] == '%' then
      if |s| >= 3 && Hex.HexValue(s[1]).Some? && Hex.HexValue(s[2]).Some? then
        Prepend([(Hex.HexValue(s[1]).value * 16 + Hex.HexValue(s[2]).value) as Byte], UnescapeBytes(s[3..]))
      else None
    else if s[0] == '+' then Prepend([0x20], UnescapeBytes(s[1..]))
    else Prepend(Utf8EncodeChar(s[0]), UnescapeBytes(s[1..]))
  }

  function Prepend(p: seq<Byte>, r: Option<seq<Byte>>): Option<seq<Byte>> {
    match r
    case None => None
    case Some(b) => Some(p + b)
  }

  /** url.QueryUnescape, for components whose bytes are well-formed UTF-8. */
  function QueryUnescape(s: string): Option<string> {
    match UnescapeBytes(s)
    case None => None
    case Some(b) => Utf8Decode(b)
  }

  // ----------------------------------------------------------------- parsing

  /** The pieces between the '&' separators, as the loop of url.parseQuery
      cuts them off one by one. */
  function Pieces(q: string): seq<string>
    decreases |q|
  {
    if q == "" then []
    else
      var (piece, rest, _) := Cut(q, '&');
      [piece] + Pieces(rest)
  }

  /** The key and value one piece stands for. Pieces holding ';' and empty
      pieces are skipped, and so are pieces whose key or value does not
      unescape; a piece without '=' has an empty value. */
  function DecodePiece(piece: string): Option<(string, string)> {
    if ';' in piece || piece == "" then None
    else
      var (k, v, _) := Cut(piece, '=');
      match (QueryUnescape(k), QueryUnescape(v))
      case (Some(key), Some(value)) => Some((key, value))
      case _ => None
  }

  function DecodePieces(ps: seq<string>): seq<(string, string)> {
    if ps == [] then []
    else match DecodePiece(ps[0])
      case None => DecodePieces(ps[1..])
      case Some(kv) => [kv] + DecodePieces(ps[1..])
  }

  /** Appends every value to the list of its key, in order. */
  function AddAll(m: Values, kvs: seq<(string, string)>): Values
    decreases |kvs|
  {
    if kvs == [] then m
    else AddAll(m[kvs[0].0 := ValuesOf(m, kvs[0].0) + [kvs[0].1]], kvs[1..])
  }

  /** url.ParseQuery with its error dropped, which is what URL.Query() returns. */
  function ParseQuery(q: string): Values {
    AddAll(map[], DecodePieces(Pieces(q)))
  }

  // ---------------------------------------------------------------- encoding

  function Pair(k: string, v: string): string {
    QueryEscape(k) + "=" + QueryEscape(v)
  }

  /** The pairs of one key, in the order its values were added. */
  function KeyPairs(k: string, vs: seq<string>): (r: seq<string>)
    ensures |r| == |vs|
    ensures forall i :: 0 <= i < |vs| ==> r[i] == Pair(k, vs[i])
  {
    if vs == [] then [] else [Pair(k, vs[0])] + KeyPairs(k, vs[1..])
  }

  function PairsFor(m: Values, ks: seq<string>): seq<string>
    requires forall k :: k in ks ==> k in m
  {
    if ks == [] then [] else KeyPairs(ks[0], m[ks[0]]) + PairsFor(m, ks[1..])
  }

  /** Values.Encode: the pairs of every key, keys in increasing order, joined by '&'. */
  function Encode(m: Values): string {
    Join(PairsFor(m, SortedList(m.Keys)), "&")
  }

  // ------------------------------------------------------------------ lemmas

  predicate IsUnreservedText(s: string) {
    forall i :: 0 <= i < |s| ==> Unreserved(s[i])
  }

  /** Text made of unreserved characters only, such as a hex digest, is not changed by escaping. */
  lemma {:induction false} EscapeUnreserved(s: string)
    requires IsUnreservedText(s)
    ensures QueryEscape(s) == s
  {
    if s != "" {
      EscapeUnreserved(s[1..]);
      assert [s[0]] + s[1..] == s;
    }
  }

  /** No escaped text holds a separator of the query syntax. */
  predicate SafeComponent(s: string) {
    forall i :: 0 <= i < |s| ==> s[i] != '&' && s[i] != '=' && s[i] != ';'
  }

  lemma {:induction false} PercentBytesSafe(b: seq<Byte>)
    ensures SafeComponent(PercentBytes(b))
  {
    if b != [] {
      PercentBytesSafe(b[1..]);
    }
  }

  lemma {:induction false} EscapeSafe(s: string)
    ensures SafeComponent(QueryEscape(s))
  {
    if s != "" {
      EscapeSafe(s[1..]);
      if s[0] != ' ' && !Unreserved(s[0]) { PercentBytesSafe(Utf8EncodeChar(s[0])); }
      var e := EscapeChar(s[0]);
      assert SafeComponent(e);
      assert QueryEscape(s) == e + QueryEscape(s[1..]);
    }
  }

  lemma UnescapeTriple(x: Byte, rest: string)
    ensures UnescapeBytes(['%', UpperHexChar(x as int / 16), UpperHexChar(x as int % 16)] + rest)
         == Prepend([x], UnescapeBytes(rest))
  {
    var s := ['%', UpperHexChar(x as int / 16), UpperHexChar(x as int % 16)] + rest;
    assert s[3..] == rest;
    assert ((x as int / 16) * 16 + x as int % 16) as Byte == x;
  }

  lemma PrependTwice(a: seq<Byte>, b: seq<Byte>, r: Option<seq<Byte>>)
    ensures Prepend(a, Prepend(b, r)) == Prepend(a + b, r)
  {
    match r
    case None =>
    case Some(t) => assert a + (b + t) == (a + b) + t;
  }

  lemma {:induction false} UnescapePercentBytes(b: seq<Byte>, rest: string)
    ensures UnescapeBytes(PercentBytes(b) + rest) == Prepend(b, UnescapeBytes(rest))
  {
    if b == [] {
      assert PercentBytes(b) + rest == rest;
      match UnescapeBytes(rest)
      case None =>
      case Some(r) => assert b + r == r;
    } else {
      var x := b[0];
      var t := ['%', UpperHexChar(x as int / 16), UpperHexChar(x as int % 16)];
      assert PercentBytes(b) + rest == t + (PercentBytes(b[1..]) + rest);
      UnescapeTriple(x, PercentBytes(b[1..]) + rest);
      UnescapePercentBytes(b[1..], rest);
      PrependTwice([x], b[1..], UnescapeBytes(rest));
      assert [x] + b[1..] == b;
    }
  }

  lemma UnescapeEscapeChar(c: char, rest: string)
    ensures UnescapeBytes(EscapeChar(c) + rest) == Prepend(Utf8EncodeChar(c), UnescapeBytes(rest))
  {
    if c == ' ' {
      assert (EscapeChar(c) + rest)[1..] == rest;
    } else if Unreserved(c) {
      assert (EscapeChar(c) + rest)[1..] == rest;
    } else {
      UnescapePercentBytes(Utf8EncodeChar(c), rest);
    }
  }

  lemma {:induction false} UnescapeBytesOfEscape(s: string)
    ensures UnescapeBytes(QueryEscape(s)) == Some(Utf8Encode(s))
  {
    if s != "" {
      UnescapeEscapeChar(s[0], QueryEscape(s[1..]));
      UnescapeBytesOfEscape(s[1..]);
    }
  }

  /** QueryUnescape undoes QueryEscape. */
  lemma EscapeRoundTrip(s: string)
    ensures QueryUnescape(QueryEscape(s)) == Some(s)
  {
    UnescapeBytesOfEscape(s);
    Utf8RoundTrip(s);
  }

  /** Set on distinct keys commutes, so the order of such calls changes neither the map nor its encoding. */
  lemma SetCommutes(m: Values, a: string, x: string, b: string, y: string)
    requires a != b
    ensures Set(Set(m, a, x), b, y) == Set(Set(m, b, y), a, x)
    ensures Encode(Set(Set(m, a, x), b, y)) == Encode(Set(Set(m, b, y), a, x))
  {
    assert m[a := [x]][b := [y]] == m[b := [y]][a := [x]];
  }

  lemma {:induction false} PairsForContains(m: Values, ks: seq<string>, k: string, v: string)
    requires forall j :: j in ks ==> j in m
    requires k in ks && v in m[k]
    ensures Pair(k, v) in PairsFor(m, ks)
  {
    if ks[0] == k {
      var i :| 0 <= i < |m[k]| && m[k][i] == v;
      assert KeyPairs(k, m[k])[i] == Pair(k, v);
    } else {
      PairsForContains(m, ks[1..], k, v);
    }
  }

  /** Every value of every key is written into the encoding as its own pair. */
  lemma EncodeListsEveryPair(m: Values, k: string, v: string)
    requires k in m && v in m[k]
    ensures Pair(k, v) in PairsFor(m, SortedList(m.Keys))
  {
    PairsForContains(m, SortedList(m.Keys), k, v);
  }

  /** A map of one key and one value encodes to that single pair. */
  lemma EncodeSingle(k: string, v: string)
    ensures Encode(map[k := [v]]) == QueryEscape(k) + "=" + QueryEscape(v)
  {
    var m := map[k := [v]];
    var ks := SortedList(m.Keys);
    assert m.Keys == {k};
    assert |ks| == 1 && ks[0] in m.Keys;
    assert ks == [k];
    assert PairsFor(m, ks) == KeyPairs(k, [v]) + PairsFor(m, []);
    assert PairsFor(m, ks) == [Pair(k, v)];
  }

  // The round trip ParseQuery(Encode(m)) == m: the join splits back into
  // its pairs, each pair decodes to its key and value, and adding the
  // entries of every key in turn rebuilds the map.

  /** A piece the parser takes whole: not empty, and holding no '&' or ';'. */
  predicate WholePiece(p: string) {
    p != "" && '&' !in p && ';' !in p
  }

  lemma {:induction false} PiecesOfJoin(ps: seq<string>)
    requires forall i :: 0 <= i < |ps| ==> WholePiece(ps[i])
    ensures Pieces(Join(ps, "&")) == ps
    decreases |ps|
  {
    if |ps| == 1 {
      assert Cut(ps[0], '&') == (ps[0], "", false);
    } else if |ps| > 1 {
      var rest := Join(ps[1..], "&");
      assert Join(ps, "&") == ps[0] + ['&'] + rest;
      CutAtFirst(ps[0], '&', rest);
      PiecesOfJoin(ps[1..]);
    }
  }

  lemma PairWhole(k: string, v: string)
    ensures WholePiece(Pair(k, v))
    ensures Cut(Pair(k, v), '=') == (QueryEscape(k), QueryEscape(v), true)
  {
    var qk, qv := QueryEscape(k), QueryEscape(v);
    EscapeSafe(k);
    EscapeSafe(v);
    var p := Pair(k, v);
    assert p == qk + ['='] + qv;
    assert '=' !in qk;
    CutAtFirst(qk, '=', qv);
    assert '&' !in qk && ';' !in qk;
    assert '&' !in qv && ';' !in qv;
  }

  /** A written pair reads back as its key and value. */
  lemma DecodePair(k: string, v: string)
    ensures DecodePiece(Pair(k, v)) == Some((k, v))
  {
    PairWhole(k, v);
    EscapeRoundTrip(k);
    EscapeRoundTrip(v);
  }

  lemma {:induction false} DecodePiecesAppend(a: seq<string>, b: seq<string>)
    ensures DecodePieces(a + b) == DecodePieces(a) + DecodePieces(b)
  {
    if a == [] {
      assert a + b == b;
    } else {
      assert (a + b)[0] == a[0] && (a + b)[1..] == a[1..] + b;
      DecodePiecesAppend(a[1..], b);
    }
  }

  /** The entries (k, v) of one key, in the order of its values. */
  function Entries(k: string, vs: seq<string>): (r: seq<(string, string)>)
    ensures |r| == |vs|
  {
    if vs == [] then [] else [(k, vs[0])] + Entries(k, vs[1..])
  }

  function EntriesFor(m: Values, ks: seq<string>): seq<(string, string)>
    requires forall k :: k in ks ==> k in m
  {
    if ks == [] then [] else Entries(ks[0], m[ks[0]]) + EntriesFor(m, ks[1..])
  }

  lemma {:induction false} DecodeKeyPairs(k: string, vs: seq<string>)
    ensures DecodePieces(KeyPairs(k, vs)) == Entries(k, vs)
  {
    if vs != [] {
      var ps := KeyPairs(k, vs);
      assert ps == [Pair(k, vs[0])] + KeyPairs(k, vs[1..]);
      DecodePair(k, vs[0]);
      assert ps[1..] == KeyPairs(k, vs[1..]);
      DecodeKeyPairs(k, vs[1..]);
    }
  }

  lemma {:induction false} DecodePairsFor(m: Values, ks: seq<string>)
    requires forall k :: k in ks ==> k in m
    ensures DecodePieces(PairsFor(m, ks)) == EntriesFor(m, ks)
  {
    if ks != [] {
      DecodePiecesAppend(KeyPairs(ks[0], m[ks[0]]), PairsFor(m, ks[1..]));
      DecodeKeyPairs(ks[0], m[ks[0]]);
      DecodePairsFor(m, ks[1..]);
    }
  }

  lemma {:induction false} AddAllAppend(m: Values, a: seq<(string, string)>, b: seq<(string, string)>)
    ensures AddAll(m, a + b) == AddAll(AddAll(m, a), b)
    decreases |a|
  {
    if a == [] {
      assert a + b == b;
    } else {
      assert (a + b)[0] == a[0] && (a + b)[1..] == a[1..] + b;
      AddAllAppend(m[a[0].0 := ValuesOf(m, a[0].0) + [a[0].1]], a[1..], b);
    }
  }

  lemma {:induction false} AddAllEntries(m: Values, k: string, vs: seq<string>)
    requires vs != []
    ensures AddAll(m, Entries(k, vs)) == m[k := ValuesOf(m, k) + vs]
    decreases |vs|
  {
    var m1 := m[k := ValuesOf(m, k) + [vs[0]]];
    var es := Entries(k, vs);
    assert es[0] == (k, vs[0]) && es[1..] == Entries(k, vs[1..]);
    if |vs| == 1 {
      assert vs == [vs[0]];
    } else {
      AddAllEntries(m1, k, vs[1..]);
      assert ValuesOf(m1, k) + vs[1..] == ValuesOf(m, k) + vs by {
        assert ValuesOf(m, k) + [vs[0]] + vs[1..] == ValuesOf(m, k) + vs;
      }
    }
  }

  /** The entries of m under the keys ks. */
  function Restrict(m: Values, ks: seq<string>): (r: Values)
    requires forall k :: k in ks ==> k in m
    ensures forall k :: k in r <==> k in ks
    ensures forall k :: k in r ==> r[k] == m[k]
  {
    if ks == [] then map[] else Restrict(m, ks[1..])[ks[0] := m[ks[0]]]
  }

  lemma AddAllEntriesForCons(acc: Values, m: Values, ks: seq<string>)
    requires ks != [] && (forall k :: k in ks ==> k in m)
    requires m[ks[0]] != [] && ks[0] !in acc
    ensures AddAll(acc, EntriesFor(m, ks)) == AddAll(acc[ks[0] := m[ks[0]]], EntriesFor(m, ks[1..]))
  {
    var k0 := ks[0];
    assert EntriesFor(m, ks) == Entries(k0, m[k0]) + EntriesFor(m, ks[1..]);
    AddAllAppend(acc, Entries(k0, m[k0]), EntriesFor(m, ks[1..]));
    AddAllEntries(acc, k0, m[k0]);
    assert ValuesOf(acc, k0) + m[k0] == m[k0];
  }

  predicate Distinct(ks: seq<string>) {
    forall i, j :: 0 <= i < j < |ks| ==> ks[i] != ks[j]
  }

  lemma DistinctTail(ks: seq<string>)
    requires ks != [] && Distinct(ks)
    ensures Distinct(ks[1..]) && ks[0] !in ks[1..]
  {
    forall i, j | 0 <= i < j < |ks[1..]| ensures ks[1..][i] != ks[1..][j] {
      assert ks[1..][i] == ks[i + 1] && ks[1..][j] == ks[j + 1];
    }
  }

  lemma MergeUpdate(acc: Values, r: Values, k: string, v: seq<string>)
    requires k !in r
    ensures acc[k := v] + r == acc + r[k := v]
  {
  }

  lemma {:induction false} AddAllEntriesFor(acc: Values, m: Values, ks: seq<string>)
    requires forall k :: k in ks ==> k in m && m[k] != [] && k !in acc
    requires Distinct(ks)
    ensures AddAll(acc, EntriesFor(m, ks)) == acc + Restrict(m, ks)
    decreases |ks|
  {
    if ks != [] {
      var k0 := ks[0];
      AddAllEntriesForCons(acc, m, ks);
      DistinctTail(ks);
      AddAllEntriesFor(acc[k0 := m[k0]], m, ks[1..]);
      MergeUpdate(acc, Restrict(m, ks[1..]), k0, m[k0]);
    }
  }

  lemma {:induction false} PairsForWhole(m: Values, ks: seq<string>)
    requires forall k :: k in ks ==> k in m
    ensures forall i :: 0 <= i < |PairsFor(m, ks)| ==> WholePiece(PairsFor(m, ks)[i])
    decreases |ks|
  {
    if ks != [] {
      PairsForWhole(m, ks[1..]);
      var a, b := KeyPairs(ks[0], m[ks[0]]), PairsFor(m, ks[1..]);
      forall i | 0 <= i < |a + b| ensures WholePiece((a + b)[i]) {
        if i < |a| {
          PairWhole(ks[0], m[ks[0]][i]);
          assert (a + b)[i] == Pair(ks[0], m[ks[0]][i]);
        } else {
          assert (a + b)[i] == b[i - |a|];
        }
      }
    }
  }

  /** Parsing an encoding gives the map back, provided no key holds an empty
      list (Encode writes nothing for such a key). */
  lemma DecodeEncoding(m: Values)
    ensures DecodePieces(Pieces(Encode(m))) == EntriesFor(m, SortedList(m.Keys))
  {
    var ks := SortedList(m.Keys);
    PairsForWhole(m, ks);
    PiecesOfJoin(PairsFor(m, ks));
    DecodePairsFor(m, ks);
  }

  lemma SortedDistinct(ks: seq<string>)
    requires StrictlySorted(ks)
    ensures Distinct(ks)
  {
    forall i, j | 0 <= i < j < |ks| ensures ks[i] != ks[j] {
      StrictlySortedDistinct(ks, i, j);
    }
  }

  lemma RestrictAll(m: Values, ks: seq<string>)
    requires forall k :: k in ks <==> k in m
    ensures Restrict(m, ks) == m
  {
  }

  lemma MergeEmpty(m: Values)
    ensures map[] + m == m
  {
  }

  lemma AddAllKeys(m: Values, ks: seq<string>)
    requires forall k :: k in m ==> m[k] != []
    requires Distinct(ks) && forall k :: k in ks <==> k in m
    ensures AddAll(map[], EntriesFor(m, ks)) == m
  {
    var empty: Values := map[];
    AddAllEntriesFor(empty, m, ks);
    RestrictAll(m, ks);
    MergeEmpty(m);
  }

  lemma AddAllSortedEntries(m: Values)
    requires forall k :: k in m ==> m[k] != []
    ensures AddAll(map[], EntriesFor(m, SortedList(m.Keys))) == m
  {
    SortedDistinct(SortedList(m.Keys));
    AddAllKeys(m, SortedList(m.Keys));
  }

  lemma ParseEncodeRoundTrip(m: Values)
    requires forall k :: k in m ==> m[k] != []
    ensures ParseQuery(Encode(m)) == m
  {
    DecodeEncoding(m);
    AddAllSortedEntries(m);
  }

  /** No key holds an empty list: true of every map Set and ParseQuery build. */
  predicate NoEmptyLists(m: Values) {
    forall k :: k in m ==> m[k] != []
  }

  lemma SetNoEmptyLists(m: Values, key: string, value: string)
    requires NoEmptyLists(m)
    ensures NoEmptyLists(Set(m, key, value))
  {
  }

  lemma {:induction false} AddAllNoEmptyLists(m: Values, kvs: seq<(string, string)>)
    requires NoEmptyLists(m)
    ensures NoEmptyLists(AddAll(m, kvs))
    decreases |kvs|
  {
    if kvs != [] {
      AddAllNoEmptyLists(m[kvs[0].0 := ValuesOf(m, kvs[0].0) + [kvs[0].1]], kvs[1..]);
    }
  }

  /** URL.Query() never lists a key without a value. */
  lemma ParseQueryNoEmptyLists(q: string)
    ensures NoEmptyLists(ParseQuery(q))
  {
    var empty: Values := map[];
    AddAllNoEmptyLists(empty, DecodePieces(Pieces(q)));
  }

  lemma {:induction false} JoinAppend(ps: seq<string>, p: string)
    requires ps != []
    ensures Join(ps + [p], "&") == Join(ps, "&") + "&" + p
    decreases |ps|
  {
    if |ps| > 1 {
      assert (ps + [p])[1..] == ps[1..] + [p];
      JoinAppend(ps[1..], p);
    }
  }

  /** The pieces of an encoding followed by '&' and one more pair. */
  lemma PiecesOfAppended(m: Values, k: string, v: string)
    ensures DecodePieces(Pieces(Encode(m) + "&" + Pair(k, v))) == DecodePieces(Pieces(Encode(m))) + [(k, v)]
  {
    var ps := PairsFor(m, SortedList(m.Keys));
    var pk := Pair(k, v);
    PairWhole(k, v);
    DecodePair(k, v);
    PiecesOfJoin([pk]);
    assert DecodePieces([pk]) == [(k, v)];
    if ps == [] {
      assert Encode(m) == "";
      CutAtFirst("", '&', pk);
      assert Pieces("" + "&" + pk) == [""] + Pieces(pk);
      DecodePiecesAppend([""], [pk]);
    } else {
      PairsForWhole(m, SortedList(m.Keys));
      JoinAppend(ps, pk);
      PiecesOfJoin(ps + [pk]);
      PiecesOfJoin(ps);
      DecodePiecesAppend(ps, [pk]);
    }
  }

  /** A map's encoding followed by '&' and the encoding of one more key and
      value reads back as the map with that value appended to its key. */
  lemma ParseAppendedPair(m: Values, k: string, v: string)
    requires NoEmptyLists(m)
    ensures ParseQuery(Encode(m) + "&" + Encode(map[k := [v]])) == m[k := ValuesOf(m, k) + [v]]
  {
    EncodeSingle(k, v);
    PiecesOfAppended(m, k, v);
    DecodeEncoding(m);
    var empty: Values := map[];
    var es := EntriesFor(m, SortedList(m.Keys));
    AddAllAppend(empty, es, [(k, v)]);
    AddAllSortedEntries(m);
    assert AddAll(m, [(k, v)]) == AddAll(m[k := ValuesOf(m, k) + [v]], []);
  }
}
