/**
 * Base 16 as encoding/hex writes it: two lower-case digits per byte, high
 * nibble first (section 8 of RFC 4648, lower-case alphabet). Decoding accepts
 * either case, as hex.DecodeString does.
 */
module Hex {
  import opened Wrappers
  import opened Text

  function HexChar(n: nat): (c: char)
    requires n < 16
    ensures IsLowerHexChar(c)
  {
    if n < 10 then ('0' as int + n) as char else ('a' as int + n - 10) as char
  }

  predicate IsLowerHexChar(c: char) {
    ('0' <= c <= '9') || ('a' <= c <= 'f')
  }

  predicate IsLowerHex(s: string) {
    forall i :: 0 <= i < |s| ==> IsLowerHexChar(s[i])
  }

  /** hex.EncodeToString. */
  function HexEncode(b: seq<Byte>): (s: string)
    ensures |s| == 2 * |b|
    ensures IsLowerHex(s)
  {
    if b == [] then ""
    else [HexChar(b[0] as int / 16), HexChar(b[0] as int % 16)] + HexEncode(b[1..])
  }

  /** The value of one hexadecimal digit of either case. */
  function HexValue(c: char): (r: Option<nat>)
    ensures r.Some? ==> r.value < 16
  {
    if '0' <= c <= '9' then Some(c as int - '0' as int)
    else if 'a' <= c <= 'f' then Some(c as int - 'a' as int + 10)
    else if 'A' <= c <= 'F' then Some(c as int - 'A' as int + 10)
    else None
  }

  /** hex.DecodeString: fails on an odd length or a character that is not a hex digit. */
  function HexDecode(s: string): Option<seq<Byte>>
    decreases |s|
  {
    if s == "" then Some([])
    else if |s| == 1 then None
    else match (HexValue(s[0]), HexValue(s[1]), HexDecode(s[2..]))
      case (Some(hi), Some(lo), Some(rest)) => Some([(hi * 16 + lo) as Byte] + rest)
      case _ => None
  }

  lemma HexValueOfHexChar(n: nat)
    requires n < 16
    ensures HexValue(HexChar(n)) == Some(n)
  {
  }

  /** Decoding an encoding gives the bytes back. */
  lemma {:induction false} HexRoundTrip(b: seq<Byte>)
    ensures HexDecode(HexEncode(b)) == Some(b)
  {
    if b != [] {
      var s := HexEncode(b);
      var x := b[0] as int;
      HexValueOfHexChar(x / 16);
      HexValueOfHexChar(x % 16);
      assert s[2..] == HexEncode(b[1..]);
      HexRoundTrip(b[1..]);
      assert [b[0]] + b[1..] == b;
    }
  }

  /** Every even-length lower-case hex string is the encoding of the bytes it decodes to. */
  lemma {:induction false} HexRoundTripText(s: string)
    requires IsLowerHex(s) && |s| % 2 == 0
    ensures HexDecode(s).Some? && HexEncode(HexDecode(s).value) == s
    decreases |s|
  {
    if s != "" {
      HexRoundTripText(s[2..]);
      var hi := HexValue(s[0]).value;
      var lo := HexValue(s[1]).value;
      var x := hi * 16 + lo;
      assert x / 16 == hi && x % 16 == lo;
      assert HexChar(hi) == s[0] && HexChar(lo) == s[1];
      var d := HexDecode(s).value;
      assert d == [x as Byte] + HexDecode(s[2..]).value;
      assert d[1..] == HexDecode(s[2..]).value;
      assert s == [s[0], s[1]] + s[2..];
    }
  }
}
