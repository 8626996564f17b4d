/**
UTF-8 as the encoding helpers see it: Go's rune decoder and encoder (section 3 of RFC 3629), and
the two conversions of common/encoding/encryption.go, one of which finds runes with a growing
window.
 */
module Utf8 {
  import opened Sequences

  type Bytes = seq<byte>

  const RUNE_ERROR := 0xFFFD

  /** A Unicode scalar value. */
  predicate Scalar(r: int) {
    0 <= r <= 0x10FFFF && !(0xD800 <= r <= 0xDFFF)
  }

  function EncodeRune(r: int): (e: Bytes)
    ensures 1 <= |e| <= 4
  {
    if !Scalar(r) then [0xEF, 0xBF, 0xBD]
    else if r <= 0x7F then [r]
    else if r <= 0x7FF then [0xC0 + r / 64, 0x80 + r % 64]
    else if r <= 0xFFFF then [0xE0 + r / 64 / 64, 0x80 + r / 64 % 64, 0x80 + r % 64]
    else [0xF0 + r / 64 / 64 / 64, 0x80 + r / 64 / 64 % 64, 0x80 + r / 64 % 64, 0x80 + r % 64]
  }

  /** The number of bytes a lead byte announces: 0 for ASCII and 1 for a byte that leads nothing. */
  function Announced(b: byte): nat {
    if b < 0x80 then 0
    else if 0xC2 <= b <= 0xDF then 2
    else if 0xE0 <= b <= 0xEF then 3
    else if 0xF0 <= b <= 0xF4 then 4
    else 1
  }

  predicate Continues(b: byte) {
    0x80 <= b <= 0xBF
  }

  /** Whether `b` may follow the lead byte `lead`. */
  predicate SecondOk(lead: byte, b: byte) {
    && (if lead == 0xE0 then 0xA0 else if lead == 0xF0 then 0x90 else 0x80) <= b
    && b <= (if lead == 0xED then 0x9F else if lead == 0xF4 then 0x8F else 0xBF)
  }

  /** Go's `utf8.DecodeRune`: the rune and the bytes it takes. */
  function DecodeRune(p: Bytes): (d: (int, nat))
    ensures d.1 <= |p| && (d.1 == 0 <==> p == []) && Scalar(d.0)
  {
    if p == [] then (RUNE_ERROR, 0)
    else
      var n := Announced(p[0]);
      if n == 0 then (p[0], 1)
      else if n == 1 || |p| < n || !SecondOk(p[0], p[1]) then (RUNE_ERROR, 1)
      else if n == 2 then ((p[0] as int - 0xC0) * 64 + (p[1] - 0x80), 2)
      else if !Continues(p[2]) then (RUNE_ERROR, 1)
      else if n == 3 then (((p[0] as int - 0xE0) * 64 + (p[1] - 0x80)) * 64 + (p[2] - 0x80), 3)
      else if !Continues(p[3]) then (RUNE_ERROR, 1)
      else ((((p[0] as int - 0xF0) * 64 + (p[1] - 0x80)) * 64 + (p[2] - 0x80)) * 64 + (p[3] - 0x80), 4)
  }

  /** Go's `utf8.FullRune`: decoding more bytes would not change the first rune. */
  predicate FullRune(p: Bytes) {
    && p != []
    && (|p| >= Announced(p[0])
        || (|p| > 1 && !SecondOk(p[0], p[1]))
        || (|p| > 2 && !Continues(p[2])))
  }

  /** Go's `string(runes)`. */
  function Encode(rs: seq<int>): Bytes {
    if rs == [] then [] else EncodeRune(rs[0]) + Encode(rs[1..])
  }

  /** Go's `[]rune(s)`. */
  function Runes(s: Bytes): (rs: seq<int>)
    ensures Scalars(rs)
    ensures rs == [] <==> s == []
    decreases |s|
  {
    if s == [] then [] else [DecodeRune(s).0] + Runes(s[DecodeRune(s).1..])
  }

  predicate Scalars(rs: seq<int>) {
    forall i | 0 <= i < |rs| :: Scalar(rs[i])
  }

  /** `s` encodes a sequence of scalar values. */
  ghost predicate Valid(s: Bytes) {
    exists rs :: Scalars(rs) && Encode(rs) == s
  }

  // One rune

  lemma DecodeEncodeRune(r: int, rest: Bytes)
    requires Scalar(r)
    ensures DecodeRune(EncodeRune(r) + rest) == (r, |EncodeRune(r)|)
  {
    var a, b, c := r / 64, r / 64 / 64, r / 64 / 64 / 64;
    assert r == a * 64 + r % 64 && a == b * 64 + a % 64 && b == c * 64 + b % 64;
  }

  /** Every integer that is no scalar value is encoded as the replacement character. */
  lemma EncodesReplacement(r: int)
    ensures !Scalar(r) ==> EncodeRune(r) == EncodeRune(RUNE_ERROR)
  {
  }

  lemma TwoBytes(a: int, b: int)
    requires 0xC2 <= a <= 0xDF && 0x80 <= b <= 0xBF
    ensures EncodeRune((a - 0xC0) * 64 + (b - 0x80)) == [a, b]
  {
    var r := (a - 0xC0) * 64 + (b - 0x80);
    assert r / 64 == a - 0xC0 && r % 64 == b - 0x80;
  }

  lemma ThreeBytes(a: int, b: int, c: int)
    requires 0xE0 <= a <= 0xEF && 0x80 <= b <= 0xBF && 0x80 <= c <= 0xBF
    requires (a == 0xE0 ==> b >= 0xA0) && (a == 0xED ==> b <= 0x9F)
    ensures EncodeRune(((a - 0xE0) * 64 + (b - 0x80)) * 64 + (c - 0x80)) == [a, b, c]
  {
    var q := (a - 0xE0) * 64 + (b - 0x80);
    var r := q * 64 + (c - 0x80);
    assert r / 64 == q && r % 64 == c - 0x80 && q / 64 == a - 0xE0 && q % 64 == b - 0x80;
  }

  lemma FourBytes(a: int, b: int, c: int, d: int)
    requires 0xF0 <= a <= 0xF4 && 0x80 <= b <= 0xBF && 0x80 <= c <= 0xBF && 0x80 <= d <= 0xBF
    requires (a == 0xF0 ==> b >= 0x90) && (a == 0xF4 ==> b <= 0x8F)
    ensures EncodeRune((((a - 0xF0) * 64 + (b - 0x80)) * 64 + (c - 0x80)) * 64 + (d - 0x80)) == [a, b, c, d]
  {
    var p := (a - 0xF0) * 64 + (b - 0x80);
    var q := p * 64 + (c - 0x80);
    var r := q * 64 + (d - 0x80);
    assert r / 64 == q && r % 64 == d - 0x80 && q / 64 == p && q % 64 == c - 0x80;
    assert p / 64 == a - 0xF0 && p % 64 == b - 0x80;
  }

  lemma DecodedIsEncoding(p: Bytes)
    requires p != [] && DecodeRune(p) != (RUNE_ERROR, 1)
    ensures EncodeRune(DecodeRune(p).0) == p[..DecodeRune(p).1]
  {
    var n := Announced(p[0]);
    if n == 0 {
      assert p[..1] == [p[0]];
    } else if n == 2 {
      TwoBytes(p[0], p[1]);
      assert p[..2] == [p[0], p[1]];
    } else if n == 3 {
      ThreeBytes(p[0], p[1], p[2]);
      assert p[..3] == [p[0], p[1], p[2]];
    } else {
      FourBytes(p[0], p[1], p[2], p[3]);
      assert p[..4] == [p[0], p[1], p[2], p[3]];
    }
  }

  /** `p` begins with the encoding of the scalar value `r`. */
  predicate StartsWith(p: Bytes, r: int) {
    Scalar(r) && EncodeRune(r) <= p
  }

  /** Decoding takes the scalar value that `p` begins with, or one byte for the replacement character. */
  lemma DecodeRuneExact(p: Bytes)
    requires p != []
    ensures forall r :: StartsWith(p, r) ==> DecodeRune(p) == (r, |EncodeRune(r)|)
    ensures (forall r :: !StartsWith(p, r)) ==> DecodeRune(p) == (RUNE_ERROR, 1)
  {
    forall r | StartsWith(p, r)
      ensures DecodeRune(p) == (r, |EncodeRune(r)|)
    {
      var e := EncodeRune(r);
      DecodeEncodeRune(r, p[|e|..]);
      assert p == e + p[|e|..];
    }
    if DecodeRune(p) != (RUNE_ERROR, 1) {
      DecodedIsEncoding(p);
      assert StartsWith(p, DecodeRune(p).0);
    }
  }

  lemma FullIsFinal(p: Bytes, rest: Bytes)
    requires FullRune(p)
    ensures DecodeRune(p + rest) == DecodeRune(p)
  {
  }

  /** The smallest byte that may follow `lead`. */
  function Second(lead: byte): byte {
    if lead == 0xE0 then 0xA0 else if lead == 0xF0 then 0x90 else 0x80
  }

  lemma NotFullCanChange(p: Bytes) returns (rest: Bytes)
    requires p != [] && !FullRune(p)
    ensures DecodeRune(p + rest) != DecodeRune(p)
  {
    rest := if |p| == 1 then [Second(p[0]), 0x80, 0x80] else [0x80, 0x80];
    assert (p + rest)[0] == p[0] && |p + rest| >= 4;
    assert DecodeRune(p) == (RUNE_ERROR, 1);
    assert SecondOk((p + rest)[0], (p + rest)[1]) && Continues((p + rest)[2]);
    assert DecodeRune(p + rest).1 == Announced(p[0]);
  }

  /** A window is full exactly when no further bytes could change the rune it begins with. */
  lemma FullRuneExact(p: Bytes)
    requires p != []
    ensures FullRune(p) <==> forall rest :: DecodeRune(p + rest) == DecodeRune(p)
  {
    if FullRune(p) {
      forall rest
        ensures DecodeRune(p + rest) == DecodeRune(p)
      {
        FullIsFinal(p, rest);
      }
    } else {
      var rest := NotFullCanChange(p);
    }
  }

  /** A window over the encoding of a rune is full only when it holds all of it. */
  lemma FullRunePrefix(r: int, k: nat)
    requires Scalar(r) && k <= |EncodeRune(r)|
    ensures FullRune(EncodeRune(r)[..k]) <==> k == |EncodeRune(r)|
  {
    var a, b, c := r / 64, r / 64 / 64, r / 64 / 64 / 64;
    assert r == a * 64 + r % 64 && a == b * 64 + a % 64 && b == c * 64 + b % 64;
  }

  // Whole strings

  lemma {:induction false} EncodeAppend(rs: seq<int>, r: int)
    ensures Encode(rs + [r]) == Encode(rs) + EncodeRune(r)
  {
    if rs == [] {
      assert rs + [r] == [r] && [r][1..] == [];
    } else {
      EncodeAppend(rs[1..], r);
      assert (rs + [r])[1..] == rs[1..] + [r];
      ConcatAssoc(EncodeRune(rs[0]), Encode(rs[1..]), EncodeRune(r));
    }
  }

  lemma {:induction false} RunesOfEncode(rs: seq<int>)
    requires Scalars(rs)
    ensures Runes(Encode(rs)) == rs
  {
    if rs != [] {
      DecodeEncodeRune(rs[0], Encode(rs[1..]));
      assert Encode(rs)[|EncodeRune(rs[0])|..] == Encode(rs[1..]);
      RunesOfEncode(rs[1..]);
    }
  }

  /** Decoding into runes and encoding again is the identity exactly on valid UTF-8. */
  lemma ReencodeIffValid(s: Bytes)
    ensures Encode(Runes(s)) == s <==> Valid(s)
  {
    if Valid(s) {
      var rs :| Scalars(rs) && Encode(rs) == s;
      RunesOfEncode(rs);
    }
  }

  lemma {:induction false} AsciiIsValid(s: Bytes)
    requires forall i :: 0 <= i < |s| ==> s[i] < 0x80
    ensures Valid(s) && Runes(s) == s
  {
    if s != [] {
      AsciiIsValid(s[1..]);
      ReencodeIffValid(s[1..]);
      assert s == [s[0]] + s[1..];
      assert Encode(Runes(s)) == s by {
        assert Runes(s)[1..] == Runes(s[1..]);
      }
    } else {
      assert Encode([]) == s;
    }
  }

  // The conversions

  /** The length of the encoding, or -1 for what cannot be encoded. */
  lemma RuneLenExact(r: int)
    ensures RuneLen(r) == if Scalar(r) then |EncodeRune(r)| else -1
  {
  }

  /** Go's `utf8.RuneLen`. */
  function RuneLen(r: int): int {
    if r < 0 then -1
    else if r <= 0x7F then 1
    else if r <= 0x7FF then 2
    else if 0xD800 <= r <= 0xDFFF then -1
    else if r <= 0xFFFF then 3
    else if r <= 0x10FFFF then 4
    else -1
  }

  /** Go's `utf8.EncodeRune` into `buf[pos:]`. */
  method PutRune(buf: array<byte>, pos: nat, r: int) returns (n: nat)
    requires pos + |EncodeRune(r)| <= buf.Length
    modifies buf
    ensures n == |EncodeRune(r)|
    ensures buf[..pos + n] == old(buf[..pos]) + EncodeRune(r)
  {
    var e := EncodeRune(r);
    n := |e|;
    for i := 0 to n
      invariant buf[..pos + i] == old(buf[..pos]) + e[..i]
    {
      buf[pos + i] := e[i];
    }
  }

  method EncodedLength(runes: seq<int>) returns (bytesLen: int)
    requires Scalars(runes)
    ensures bytesLen == |Encode(runes)|
  {
    bytesLen := 0;
    for i := 0 to |runes|
      invariant bytesLen == |Encode(runes[..i])|
    {
      EncodeNext(runes, i);
      bytesLen := bytesLen + RuneLen(runes[i]);
    }
    assert runes[..|runes|] == runes;
  }

  method DecodeString2Utf8Bytes(data: Bytes) returns (res: Bytes)
    ensures res == Encode(Runes(data))
  {
    if |data| == 0 {
      return [];
    }
    var runes := Runes(data);
    var bytesLen := EncodedLength(runes);
    var resBytes := new byte[bytesLen];
    PutRunes(resBytes, runes);
    res := resBytes[..];
  }

  method PutRunes(buf: array<byte>, runes: seq<int>)
    requires buf.Length == |Encode(runes)|
    modifies buf
    ensures buf[..] == Encode(runes)
  {
    var pos := 0;
    for i := 0 to |runes|
      invariant pos == |Encode(runes[..i])| <= buf.Length
      invariant buf[..pos] == Encode(runes[..i])
    {
      EncodeNext(runes, i);
      var n := PutRune(buf, pos, runes[i]);
      pos := pos + n;
    }
    assert runes[..|runes|] == runes;
  }

  lemma EncodeNext(rs: seq<int>, i: nat)
    requires i < |rs|
    ensures Encode(rs[..i + 1]) == Encode(rs[..i]) + EncodeRune(rs[i])
    ensures |Encode(rs[..i + 1])| <= |Encode(rs)|
  {
    EncodeAppend(rs[..i], rs[i]);
    assert rs[..i + 1] == rs[..i] + [rs[i]];
    EncodePrefix(rs, i + 1);
  }

  lemma {:induction false} EncodePrefix(rs: seq<int>, k: nat)
    requires k <= |rs|
    ensures |Encode(rs[..k])| <= |Encode(rs)|
  {
    if k > 0 {
      EncodePrefix(rs[1..], k - 1);
      assert rs[..k][1..] == rs[1..][..k - 1];
    }
  }

  /** The runes found by a window that grows from `start..end` and closes whenever it is full. */
  function Windowed(bytes: Bytes, start: nat, end: nat): (rs: seq<int>)
    requires start <= end
    requires end <= |bytes| + 1 && start <= |bytes|
    ensures Scalars(rs)
    decreases |bytes| + 1 - end
  {
    if end > |bytes| then []
    else if FullRune(bytes[start..end]) then [DecodeRune(bytes[start..end]).0] + Windowed(bytes, end, end + 1)
    else Windowed(bytes, start, end + 1)
  }

  method EncodeUtf8Bytes2String(bytes: Bytes) returns (res: Bytes)
    ensures res == Encode(Windowed(bytes, 0, 0))
  {
    if |bytes| == 0 {
      assert Windowed(bytes, 0, 1) == [];
      return [];
    }
    var startPos, endPos := 0, 0;
    var resRunes: seq<int> := [];
    while endPos <= |bytes|
      invariant startPos <= endPos <= |bytes| + 1 && startPos <= |bytes|
      invariant resRunes + Windowed(bytes, startPos, endPos) == Windowed(bytes, 0, 0)
      decreases |bytes| + 1 - endPos
    {
      if FullRune(bytes[startPos..endPos]) {
        var decodedRune := DecodeRune(bytes[startPos..endPos]).0;
        ConcatAssoc(resRunes, [decodedRune], Windowed(bytes, endPos, endPos + 1));
        resRunes := resRunes + [decodedRune];
        startPos := endPos;
      }
      endPos := endPos + 1;
    }
    assert resRunes + [] == resRunes;
    res := Encode(resRunes);
  }

  // The window, whatever decides that it is full

  function FirstRune(p: Bytes): int {
    DecodeRune(p).0
  }

  function WindowedBy(full: Bytes -> bool, first: Bytes -> int, bytes: Bytes, start: nat, end: nat): seq<int>
    requires start <= end <= |bytes| + 1 && start <= |bytes|
    decreases |bytes| + 1 - end
  {
    if end > |bytes| then []
    else if full(bytes[start..end]) then [first(bytes[start..end])] + WindowedBy(full, first, bytes, end, end + 1)
    else WindowedBy(full, first, bytes, start, end + 1)
  }

  lemma {:induction false} WindowedIsBy(bytes: Bytes, start: nat, end: nat)
    requires start <= end <= |bytes| + 1 && start <= |bytes|
    ensures Windowed(bytes, start, end) == WindowedBy(FullRune, FirstRune, bytes, start, end)
    decreases |bytes| + 1 - end
  {
    if end <= |bytes| {
      if FullRune(bytes[start..end]) {
        WindowedIsBy(bytes, end, end + 1);
      } else {
        WindowedIsBy(bytes, start, end + 1);
      }
    }
  }

  /** A window over `e` is full only when it holds all of it. */
  ghost predicate Minimal(full: Bytes -> bool, e: Bytes) {
    forall k :: 0 <= k <= |e| ==> (full(e[..k]) <==> k == |e|)
  }

  /** Over a minimal `e` the window closes exactly at its end. */
  lemma {:induction false} WindowCloses(full: Bytes -> bool, first: Bytes -> int, bytes: Bytes, start: nat, e: Bytes,
                                        k: nat)
    requires Minimal(full, e) && k <= |e|
    requires start + |e| <= |bytes| && bytes[start..start + |e|] == e
    ensures WindowedBy(full, first, bytes, start, start + k) ==
            [first(e)] + WindowedBy(full, first, bytes, start + |e|, start + |e| + 1)
    decreases |e| - k
  {
    assert bytes[start..start + k] == e[..k];
    if k < |e| {
      WindowCloses(full, first, bytes, start, e, k + 1);
    } else {
      assert e[..k] == e;
    }
  }

  lemma SliceSplit(bytes: Bytes, start: nat, a: Bytes, b: Bytes)
    requires start <= |bytes| && bytes[start..] == a + b
    ensures start + |a| <= |bytes| && bytes[start..start + |a|] == a && bytes[start + |a|..] == b
  {
    assert bytes[start..start + |a|] == bytes[start..][..|a|];
    assert bytes[start + |a|..] == bytes[start..][|a|..];
  }

  lemma WindowSteps(full: Bytes -> bool, first: Bytes -> int, bytes: Bytes, start: nat, e: Bytes, rest: Bytes)
    requires Minimal(full, e) && !full([]) && start <= |bytes| && bytes[start..] == e + rest
    ensures start + |e| <= |bytes| && bytes[start + |e|..] == rest
    ensures WindowedBy(full, first, bytes, start, start) ==
            [first(e)] + WindowedBy(full, first, bytes, start + |e|, start + |e|)
  {
    SliceSplit(bytes, start, e, rest);
    WindowCloses(full, first, bytes, start, e, 0);
    assert bytes[start + |e|..start + |e|] == [];
  }

  lemma RuneIsMinimal(r: int)
    requires Scalar(r)
    ensures Minimal(FullRune, EncodeRune(r)) && FirstRune(EncodeRune(r)) == r
  {
    forall k | 0 <= k <= |EncodeRune(r)|
      ensures FullRune(EncodeRune(r)[..k]) <==> k == |EncodeRune(r)|
    {
      FullRunePrefix(r, k);
    }
    DecodeEncodeRune(r, []);
    assert EncodeRune(r) + [] == EncodeRune(r);
  }

  lemma WindowStep(bytes: Bytes, start: nat, r: int, rest: Bytes) returns (next: nat)
    requires Scalar(r) && start <= |bytes| && bytes[start..] == EncodeRune(r) + rest
    ensures start < next <= |bytes| && bytes[next..] == rest
    ensures WindowedBy(FullRune, FirstRune, bytes, start, start) ==
      [r] + WindowedBy(FullRune, FirstRune, bytes, next, next)
  {
    RuneIsMinimal(r);
    WindowSteps(FullRune, FirstRune, bytes, start, EncodeRune(r), rest);
    next := start + |EncodeRune(r)|;
  }

  lemma EmptyWindow(full: Bytes -> bool, first: Bytes -> int, bytes: Bytes)
    requires !full([])
    ensures WindowedBy(full, first, bytes, |bytes|, |bytes|) == []
  {
    assert bytes[|bytes|..|bytes|] == [];
  }

  lemma {:induction false} WindowedIsRunes(bytes: Bytes, start: nat, rs: seq<int>)
    requires start <= |bytes| && Scalars(rs) && bytes[start..] == Encode(rs)
    ensures WindowedBy(FullRune, FirstRune, bytes, start, start) == rs
    decreases |rs|
  {
    if rs == [] {
      EmptyWindow(FullRune, FirstRune, bytes);
    } else {
      var next := WindowStep(bytes, start, rs[0], Encode(rs[1..]));
      WindowedIsRunes(bytes, next, rs[1..]);
    }
  }

  /** The window conversion is the identity exactly on valid UTF-8. */
  lemma WindowIffValid(s: Bytes)
    ensures Encode(Windowed(s, 0, 0)) == s <==> Valid(s)
  {
    if Valid(s) {
      var rs :| Scalars(rs) && Encode(rs) == s;
      assert s[0..] == s;
      WindowedIsRunes(s, 0, rs);
      WindowedIsBy(s, 0, 0);
    }
  }
}
