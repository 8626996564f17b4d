/**
UUID values: sixteen bytes, their version and variant bits, and their text form.  Shifts and masks
of a byte are written as quotients, remainders and sums.
 */
module Uuid {
  import opened Sequences
  import opened Wrappers

  const SIZE: nat := 16

  datatype LayoutVariant = NCS | RFC4122 | Microsoft | Future

  // ---- Version and variant -----------------------------------------------------------------

  function Version(u: seq<byte>): byte
    requires |u| == SIZE
  {
    u[6] / 16
  }

  function Variant(u: seq<byte>): LayoutVariant
    requires |u| == SIZE
  {
    VariantOf(u[8])
  }

  function VariantOf(b: byte): LayoutVariant {
    if b / 128 == 0x00 then NCS
    else if b / 64 == 0x02 then RFC4122
    else if b / 32 == 0x06 then Microsoft
    else Future
  }

  /** The low four bits of `b` under the low four bits of `v`. */
  function VersionByte(b: byte, v: byte): byte {
    b % 16 + v % 16 * 16
  }

  /** The low seven, six or five bits of `b` under the bits of the variant. */
  function VariantByte(b: byte, v: LayoutVariant): byte {
    match v
    case NCS => b % 128
    case RFC4122 => b % 64 + 0x80
    case Microsoft => b % 32 + 0xc0
    case Future => b % 32 + 0xe0
  }

  lemma VariantByteFacts(b: byte, v: LayoutVariant)
    ensures VariantOf(VariantByte(b, v)) == v && VariantByte(b, v) % 32 == b % 32
  {
    LowFive(b);
    match v
    case NCS => NoVariantBits(b % 128);
    case RFC4122 => RfcVariantBits(b % 64);
    case Microsoft => ThreeVariantBits(b % 32);
    case Future => ThreeVariantBits(b % 32);
  }

  lemma LowFive(b: byte)
    ensures b % 128 % 32 == b % 32 && b % 64 % 32 == b % 32
  {
    assert b % 128 == if b < 128 then b else b - 128;
    assert b % 64 == if b < 64 then b else if b < 128 then b - 64 else if b < 192 then b - 128 else b - 192;
  }

  lemma NoVariantBits(r: nat)
    requires r < 128
    ensures r / 128 == 0
  {
  }

  lemma RfcVariantBits(r: nat)
    requires r < 64
    ensures (r + 0x80) / 128 == 1 && (r + 0x80) / 64 == 2 && (r + 0x80) % 32 == r % 32
  {
  }

  lemma ThreeVariantBits(r: nat)
    requires r < 32
    ensures (r + 0xc0) / 128 == 1 && (r + 0xc0) / 64 == 3 && (r + 0xc0) / 32 == 6 && (r + 0xc0) % 32 == r
    ensures (r + 0xe0) / 128 == 1 && (r + 0xe0) / 64 == 3 && (r + 0xe0) / 32 == 7 && (r + 0xe0) % 32 == r
  {
  }

  /** Writes the version; the other fifteen bytes and the low four bits stay. */
  method SetVersion(u: array<byte>, v: byte)
    requires u.Length == SIZE
    modifies u
    ensures u[..] == old(u[..])[6 := VersionByte(old(u[6]), v)]
    ensures Version(u[..]) == v % 16 && u[6] % 16 == old(u[6]) % 16
  {
    u[6] := u[6] % 16 + v % 16 * 16;
  }

  /** Writes the variant; the other fifteen bytes stay. */
  method SetVariant(u: array<byte>, v: LayoutVariant)
    requires u.Length == SIZE
    modifies u
    ensures u[..] == old(u[..])[8 := VariantByte(old(u[8]), v)]
    ensures Variant(u[..]) == v && u[8] % 32 == old(u[8]) % 32
  {
    VariantByteFacts(u[8], v);
    match v
    case NCS => u[8] := u[8] % 128;
    case RFC4122 => u[8] := u[8] % 64 + 0x80;
    case Microsoft => u[8] := u[8] % 32 + 0xc0;
    case Future => u[8] := u[8] % 32 + 0xe0;
  }

  // ---- Hexadecimal -------------------------------------------------------------------------

  const HEX_DIGITS := "0123456789abcdef"

  function HexDigit(n: byte): char
    requires n < 16
  {
    HEX_DIGITS[n]
  }

  function FromHexChar(c: char): (r: Option<byte>)
    ensures r.Some? ==> r.value < 16
  {
    if '0' <= c <= '9' then Some(c as int - '0' as int)
    else if 'a' <= c <= 'f' then Some(c as int - 'a' as int + 10)
    else if 'A' <= c <= 'F' then Some(c as int - 'A' as int + 10)
    else None
  }

  function LowerChar(c: char): char {
    if 'A' <= c <= 'F' then (c as int - 'A' as int + 'a' as int) as char else c
  }

  lemma DigitRoundTrip(n: byte)
    requires n < 16
    ensures FromHexChar(HexDigit(n)) == Some(n)
  {
  }

  lemma CharRoundTrip(c: char)
    requires FromHexChar(c).Some?
    ensures FromHexChar(c).value < 16 && HexDigit(FromHexChar(c).value) == LowerChar(c)
  {
  }

  function Hex(bs: seq<byte>): (s: string)
    ensures |s| == 2 * |bs|
  {
    if bs == [] then []
    else [HexDigit(bs[0] / 16), HexDigit(bs[0] % 16)] + Hex(bs[1..])
  }

  function Pair(a: char, b: char): Option<byte> {
    if FromHexChar(a).Some? && FromHexChar(b).Some?
    then Some(FromHexChar(a).value * 16 + FromHexChar(b).value)
    else None
  }

  function UnHex(s: string): (r: Option<seq<byte>>)
    ensures r.Some? ==> 2 * |r.value| == |s|
  {
    if s == [] then Some([])
    else if |s| == 1 then None
    else
      var b := Pair(s[0], s[1]);
      var rest := UnHex(s[2..]);
      if b.Some? && rest.Some? then Some([b.value] + rest.value) else None
  }

  function Lower(s: string): (r: string)
    ensures |r| == |s|
  {
    if s == [] then [] else [LowerChar(s[0])] + Lower(s[1..])
  }

  lemma PairRoundTrip(b: byte)
    ensures Pair(HexDigit(b / 16), HexDigit(b % 16)) == Some(b)
  {
    DigitRoundTrip(b / 16);
    DigitRoundTrip(b % 16);
  }

  lemma {:induction false} HexRoundTrip(bs: seq<byte>)
    ensures UnHex(Hex(bs)) == Some(bs)
  {
    if bs != [] {
      HexRoundTrip(bs[1..]);
      PairRoundTrip(bs[0]);
      assert Hex(bs)[2..] == Hex(bs[1..]);
      assert [bs[0]] + bs[1..] == bs;
    }
  }

  lemma PairDigits(a: char, b: char)
    requires Pair(a, b).Some?
    ensures HexDigit(Pair(a, b).value / 16) == LowerChar(a)
    ensures HexDigit(Pair(a, b).value % 16) == LowerChar(b)
  {
    CharRoundTrip(a);
    CharRoundTrip(b);
    var x, y := FromHexChar(a).value, FromHexChar(b).value;
    assert (x * 16 + y) / 16 == x && (x * 16 + y) % 16 == y;
  }

  lemma {:induction false} UnHexRoundTrip(s: string)
    requires UnHex(s).Some?
    ensures Hex(UnHex(s).value) == Lower(s)
  {
    if s != [] {
      UnHexRoundTrip(s[2..]);
      PairDigits(s[0], s[1]);
      assert Lower(s) == [LowerChar(s[0]), LowerChar(s[1])] + Lower(s[2..]) by {
        assert s[1..][1..] == s[2..];
      }
    }
  }

  lemma {:induction false} UnHexConcat(a: string, b: string)
    requires |a| % 2 == 0
    ensures UnHex(a + b) == if UnHex(a).Some? && UnHex(b).Some? then Some(UnHex(a).value + UnHex(b).value) else None
  {
    if a == [] {
      assert a + b == b;
      if UnHex(b).Some? {
        assert [] + UnHex(b).value == UnHex(b).value;
      }
    } else {
      UnHexConcat(a[2..], b);
      assert (a + b)[2..] == a[2..] + b;
      if UnHex(a).Some? && UnHex(b).Some? {
        var h, t := [Pair(a[0], a[1]).value], UnHex(a[2..]).value;
        assert h + (t + UnHex(b).value) == (h + t) + UnHex(b).value;
      }
    }
  }

  lemma {:induction false} HexConcat(a: seq<byte>, b: seq<byte>)
    ensures Hex(a + b) == Hex(a) + Hex(b)
  {
    if a == [] {
      assert a + b == b;
    } else {
      HexConcat(a[1..], b);
      assert (a + b)[1..] == a[1..] + b;
      ConcatAssoc([HexDigit(a[0] / 16), HexDigit(a[0] % 16)], Hex(a[1..]), Hex(b));
    }
  }

  /** A digit or a letter from a to f, in either case. */
  predicate IsHexChar(c: char) {
    '0' <= c <= '9' || 'a' <= c <= 'f' || 'A' <= c <= 'F'
  }

  ghost predicate AllHex(s: string) {
    forall i :: 0 <= i < |s| ==> IsHexChar(s[i])
  }

  lemma AllHexTail(s: string)
    requires |s| >= 2
    ensures AllHex(s) <==> FromHexChar(s[0]).Some? && FromHexChar(s[1]).Some? && AllHex(s[2..])
  {
    if AllHex(s[2..]) {
      assert forall i :: 2 <= i < |s| ==> s[2..][i - 2] == s[i];
    }
  }

  /** A text decodes exactly if it is an even number of hexadecimal digits. */
  lemma {:induction false} UnHexAccepts(s: string)
    ensures UnHex(s).Some? <==> |s| % 2 == 0 && AllHex(s)
  {
    if |s| >= 2 {
      UnHexAccepts(s[2..]);
      AllHexTail(s);
    }
  }
}
