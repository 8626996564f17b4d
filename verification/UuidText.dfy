/** Section 3 of RFC 4122: the text forms of a UUID, and the decoders that write into a receiver. */
module UuidText {
  import opened Sequences
  import opened Wrappers
  import opened Uuid

  const URN_PREFIX := "urn:uuid:"

  // ---- Specification -----------------------------------------------------------------------

  /** Thirty-two digits with the four dashes put in. */
  function Dashed(h: string): (t: string)
    requires |h| == 32
    ensures |t| == 36
  {
    h[..8] + "-" + h[8..12] + "-" + h[12..16] + "-" + h[16..20] + "-" + h[20..]
  }

  /** The canonical text. */
  function Text(u: seq<byte>): (t: string)
    requires |u| == SIZE
    ensures |t| == 36
  {
    Dashed(Hex(u))
  }

  predicate HasDashes(t: string) {
    |t| == 36 && t[8] == '-' && t[13] == '-' && t[18] == '-' && t[23] == '-'
  }

  /** The digits of a canonical text. */
  function Compact(t: string): (h: string)
    requires |t| == 36
    ensures |h| == 32
  {
    t[..8] + t[9..13] + t[14..18] + t[19..23] + t[24..]
  }

  /** The digits of a text in one of the accepted shapes. */
  function Digits(t: string): Option<string> {
    if |t| == 38 then (if t[0] == '{' && t[37] == '}' then PlainDigits(t[1..37]) else None)
    else if |t| == 41 || |t| == 45 then (if t[..9] == URN_PREFIX then PlainDigits(t[9..]) else None)
    else PlainDigits(t)
  }

  function PlainDigits(t: string): (h: Option<string>)
    ensures h.Some? ==> |h.value| == 32
  {
    if |t| == 32 then Some(t) else if HasDashes(t) then Some(Compact(t)) else None
  }

  function Decode(t: string): (r: Option<seq<byte>>)
    ensures r.Some? ==> |r.value| == SIZE
  {
    var h := Digits(t);
    if h.Some? then UnHex(h.value) else None
  }

  // ---- Round trips -------------------------------------------------------------------------

  lemma CompactDashed(h: string)
    requires |h| == 32
    ensures HasDashes(Dashed(h)) && Compact(Dashed(h)) == h
  {
    var t := Dashed(h);
    assert t[..8] == h[..8] && t[9..13] == h[8..12] && t[14..18] == h[12..16];
    assert t[19..23] == h[16..20] && t[24..] == h[20..];
  }

  lemma FormsHaveDigits(h: string)
    requires |h| == 32
    ensures Digits(h) == Digits(Dashed(h)) == Digits("{" + Dashed(h) + "}") == Some(h)
    ensures Digits(URN_PREFIX + Dashed(h)) == Digits(URN_PREFIX + h) == Some(h)
  {
    CompactDashed(h);
    var t := Dashed(h);
    assert ("{" + t + "}")[1..37] == t;
    assert (URN_PREFIX + t)[..9] == URN_PREFIX && (URN_PREFIX + t)[9..] == t;
    assert (URN_PREFIX + h)[..9] == URN_PREFIX && (URN_PREFIX + h)[9..] == h;
  }

  /** Decoding the canonical text gives the value back. */
  lemma TextRoundTrip(u: seq<byte>)
    requires |u| == SIZE
    ensures Decode(Text(u)) == Some(u)
  {
    FormsHaveDigits(Hex(u));
    HexRoundTrip(u);
  }

  /** The five accepted forms of the same digits, in any case, decode alike. */
  lemma FormsDecodeAlike(h: string)
    requires |h| == 32
    ensures Decode(h) == UnHex(h)
    ensures Decode(Dashed(h)) == UnHex(h)
    ensures Decode("{" + Dashed(h) + "}") == UnHex(h)
    ensures Decode(URN_PREFIX + Dashed(h)) == UnHex(h)
    ensures Decode(URN_PREFIX + h) == UnHex(h)
  {
    FormsHaveDigits(h);
  }

  /** An accepted text is its digits in an accepted shape, and re-encodes to their lower-case canonical form. */
  lemma AcceptedReencodes(t: string)
    requires Decode(t).Some?
    ensures Digits(t).Some?
    ensures Text(Decode(t).value) == Dashed(Lower(Digits(t).value))
  {
    UnHexRoundTrip(Digits(t).value);
  }

  /** `t` is one of the five forms of the digits `h`. */
  ghost predicate IsFormOf(t: string, h: string)
    requires |h| == 32
  {
    || t == h
    || t == Dashed(h)
    || t == "{" + Dashed(h) + "}"
    || t == URN_PREFIX + h
    || t == URN_PREFIX + Dashed(h)
  }

  lemma DashedCompact(t: string)
    requires HasDashes(t)
    ensures Dashed(Compact(t)) == t
  {
    var h := Compact(t);
    assert h[..8] == t[..8] && h[8..12] == t[9..13] && h[12..16] == t[14..18] && h[16..20] == t[19..23]
      && h[20..] == t[24..];
  }

  lemma PlainForms(t: string)
    requires PlainDigits(t).Some?
    ensures t == PlainDigits(t).value || t == Dashed(PlainDigits(t).value)
  {
    if |t| != 32 {
      DashedCompact(t);
    }
  }

  /** A text whose digits are read off is one of the five forms of them. */
  lemma DigitsAreForms(t: string)
    requires Digits(t).Some?
    ensures |Digits(t).value| == 32 && IsFormOf(t, Digits(t).value)
  {
    if |t| == 38 {
      PlainForms(t[1..37]);
      assert t == "{" + t[1..37] + "}";
    } else if |t| == 41 || |t| == 45 {
      PlainForms(t[9..]);
      assert t == URN_PREFIX + t[9..];
    } else {
      PlainForms(t);
    }
  }

  /** Exactly the five forms of thirty-two hexadecimal digits are accepted. */
  lemma Accepts(t: string)
    ensures Decode(t).Some? <==> exists h: string :: |h| == 32 && AllHex(h) && IsFormOf(t, h)
  {
    if Decode(t).Some? {
      DigitsAreForms(t);
      UnHexAccepts(Digits(t).value);
    }
    if exists h: string :: |h| == 32 && AllHex(h) && IsFormOf(t, h) {
      var h: string :| |h| == 32 && AllHex(h) && IsFormOf(t, h);
      FormsDecodeAlike(h);
      UnHexAccepts(h);
    }
  }

  /** The braced form without dashes, which the comment on `decodeBraced` promises, is refused. */
  lemma BracedHashLikeRefused(h: string)
    requires |h| == 32
    ensures Decode("{" + h + "}") == None
  {
  }

  // ---- Decoding in place -------------------------------------------------------------------

  /** The bytes of the digit pairs before the first bad one. */
  function GoodPairs(s: string): (r: seq<byte>)
    ensures 2 * |r| <= |s|
  {
    if |s| < 2 || Pair(s[0], s[1]).None? then [] else [Pair(s[0], s[1]).value] + GoodPairs(s[2..])
  }

  lemma {:induction false} GoodPairsAll(s: string)
    requires |s| % 2 == 0
    ensures UnHex(s).Some? <==> 2 * |GoodPairs(s)| == |s|
    ensures UnHex(s).Some? ==> GoodPairs(s) == UnHex(s).value
  {
    if s != [] {
      GoodPairsAll(s[2..]);
    }
  }

  lemma {:induction false} GoodPairsConcat(a: string, b: string)
    requires |a| % 2 == 0
    ensures UnHex(a).Some? ==> GoodPairs(a + b) == UnHex(a).value + GoodPairs(b)
    ensures UnHex(a).None? ==> GoodPairs(a + b) == GoodPairs(a)
  {
    if a == [] {
      assert a + b == b;
    } else {
      GoodPairsConcat(a[2..], b);
      assert (a + b)[2..] == a[2..] + b;
      if UnHex(a).Some? {
        ConcatAssoc([Pair(a[0], a[1]).value], UnHex(a[2..]).value, GoodPairs(b));
      }
    }
  }

  lemma {:induction false} GoodPairsNext(s: string, i: nat)
    requires 2 * i + 1 < |s| && i <= |GoodPairs(s)|
    ensures i < |GoodPairs(s)| <==> Pair(s[2 * i], s[2 * i + 1]).Some?
    ensures i < |GoodPairs(s)| ==> GoodPairs(s)[i] == Pair(s[2 * i], s[2 * i + 1]).value
  {
    if i > 0 {
      GoodPairsNext(s[2..], i - 1);
    }
  }

  /** `dst` with `bytes` written from `at` on. */
  function Overlaid(dst: seq<byte>, at: nat, bytes: seq<byte>): (r: seq<byte>)
    requires at + |bytes| <= |dst|
    ensures |r| == |dst|
  {
    dst[..at] + bytes + dst[at + |bytes|..]
  }

  /** `hex.Decode` into part of the receiver; it stops at the first bad digit. */
  method HexDecode(dst: array<byte>, at: nat, src: string) returns (ok: bool)
    requires |src| % 2 == 0 && at + |src| / 2 <= dst.Length
    modifies dst
    ensures ok == UnHex(src).Some?
    ensures dst[..] == Overlaid(old(dst[..]), at, GoodPairs(src))
  {
    var n := |src| / 2;
    GoodPairsAll(src);
    for i := 0 to n
      invariant i <= |GoodPairs(src)|
      invariant dst[..] == Overlaid(old(dst[..]), at, GoodPairs(src)[..i])
    {
      GoodPairsNext(src, i);
      var b := Pair(src[2 * i], src[2 * i + 1]);
      if b.None? {
        assert GoodPairs(src)[..i] == GoodPairs(src);
        return false;
      }
      OverlaidNext(old(dst[..]), at, GoodPairs(src), i);
      dst[at + i] := b.value;
    }
    assert GoodPairs(src)[..n] == GoodPairs(src);
    ok := true;
  }

  lemma OverlaidNext(dst: seq<byte>, at: nat, bytes: seq<byte>, i: nat)
    requires i < |bytes| && at + |bytes| <= |dst|
    ensures Overlaid(dst, at, bytes[..i + 1]) == Overlaid(dst, at, bytes[..i])[at + i := bytes[i]]
  {
  }

  lemma OverlaidTwice(dst: seq<byte>, a: seq<byte>, b: seq<byte>)
    requires |a| + |b| <= |dst|
    ensures Overlaid(Overlaid(dst, 0, a), |a|, b) == Overlaid(dst, 0, a + b)
  {
  }

  const BYTE_GROUPS: seq<nat> := [8, 4, 4, 4, 12]
  const GROUP_START: seq<nat> := [0, 8, 13, 18, 23, 36]   // in the text, dash included
  const DIGIT_START: seq<nat> := [0, 8, 12, 16, 20, 32]   // in the digits

  function SkipDash(t: string, i: nat): string
    requires |t| == 36 && i < 5
  {
    var src := t[GROUP_START[i]..];
    if i > 0 then src[1..] else src
  }

  /** Group `i` of the text is group `i` of the digits. */
  lemma GroupText(t: string, i: nat)
    requires |t| == 36 && i < 5
    ensures |SkipDash(t, i)| >= BYTE_GROUPS[i] && DIGIT_START[i] + BYTE_GROUPS[i] == DIGIT_START[i + 1] <= 32
    ensures DIGIT_START[i] % 2 == 0 && DIGIT_START[i + 1] % 2 == 0 && BYTE_GROUPS[i] % 2 == 0
    ensures SkipDash(t, i)[..BYTE_GROUPS[i]] == Compact(t)[DIGIT_START[i]..DIGIT_START[i + 1]]
    ensures SkipDash(t, i)[BYTE_GROUPS[i]..] == t[GROUP_START[i + 1]..]
  {
    var c := Compact(t);
    if i == 0 {
      assert c[..8] == t[..8];
    } else if i == 1 {
      assert c[8..12] == t[9..13];
    } else if i == 2 {
      assert c[12..16] == t[14..18];
    } else if i == 3 {
      assert c[16..20] == t[19..23];
    } else {
      assert c[20..32] == t[24..36];
    }
  }

  /** A group decides with its prefix and its rest whether the digits decode. */
  lemma GroupDecodes(c: string, a: nat, b: nat)
    requires a <= b <= |c| && a % 2 == 0 && b % 2 == 0 && UnHex(c[..a]).Some?
    ensures UnHex(c[a..b]).Some? <==> UnHex(c[..b]).Some?
    ensures UnHex(c[a..b]).Some? ==> UnHex(c[..b]).value == UnHex(c[..a]).value + UnHex(c[a..b]).value
    ensures UnHex(c[a..b]).None? ==> UnHex(c).None?
  {
    assert c[..b] == c[..a] + c[a..b] && c == c[..b] + c[b..];
    UnHexConcat(c[..a], c[a..b]);
    UnHexConcat(c[..b], c[b..]);
  }

  /** One group decoded behind the groups `c[..2 * dst]` already in the receiver. */
  method DecodeGroup(u: array<byte>, dst: nat, group: string, ghost c: string, ghost a: nat, ghost b: nat,
                     ghost start: seq<byte>)
    returns (ok: bool)
    requires a == 2 * dst && a <= b <= |c| && |c| == 2 * u.Length && |start| == u.Length
    requires group == c[a..b] && a % 2 == 0 && b % 2 == 0 && |group| % 2 == 0
    requires UnHex(c[..a]).Some? && u[..] == Overlaid(start, 0, UnHex(c[..a]).value)
    modifies u
    ensures ok == UnHex(c[..b]).Some?
    ensures ok ==> u[..] == Overlaid(start, 0, UnHex(c[..b]).value)
    ensures !ok ==> UnHex(c).None? && u[..] == Overlaid(start, 0, GoodPairs(c))
  {
    GroupDecodes(c, a, b);
    GroupWrites(c, a, b);
    ok := HexDecode(u, dst, group);
    OverlaidTwice(start, UnHex(c[..a]).value, GoodPairs(group));
  }

  /** What the pairs of a group add to the pairs before it. */
  lemma PartsWrite(front: string, group: string, rest: string)
    requires |front| % 2 == 0 && |group| % 2 == 0 && UnHex(front).Some?
    ensures UnHex(group).Some? ==> GoodPairs(group) == UnHex(group).value
    ensures UnHex(group).None? ==> UnHex(front).value + GoodPairs(group) == GoodPairs(front + (group + rest))
  {
    GoodPairsAll(group);
    GoodPairsConcat(front, group + rest);
    GoodPairsConcat(group, rest);
  }

  lemma GroupWrites(c: string, a: nat, b: nat)
    requires a <= b <= |c| && a % 2 == 0 && |c[a..b]| % 2 == 0 && UnHex(c[..a]).Some?
    ensures UnHex(c[a..b]).Some? ==> GoodPairs(c[a..b]) == UnHex(c[a..b]).value
    ensures UnHex(c[a..b]).None? ==> UnHex(c[..a]).value + GoodPairs(c[a..b]) == GoodPairs(c)
  {
    assert c == c[..a] + (c[a..b] + c[b..]);
    PartsWrite(c[..a], c[a..b], c[b..]);
  }

  /** The receiver is written group by group, so a failure leaves the pairs before the bad digit in it. */
  method DecodeCanonical(u: array<byte>, t: string) returns (ok: bool)
    requires u.Length == SIZE && |t| == 36
    modifies u
    ensures ok == (HasDashes(t) && UnHex(Compact(t)).Some?)
    ensures u[..] == Overlaid(old(u[..]), 0, if HasDashes(t) then GoodPairs(Compact(t)) else [])
  {
    if t[8] != '-' || t[13] != '-' || t[18] != '-' || t[23] != '-' {
      return false;
    }
    ghost var c, start := Compact(t), u[..];
    var src, dst := t, 0;
    for i := 0 to |BYTE_GROUPS|
      invariant src == t[GROUP_START[i]..] && 2 * dst == DIGIT_START[i]
      invariant UnHex(c[..DIGIT_START[i]]).Some? && u[..] == Overlaid(start, 0, UnHex(c[..DIGIT_START[i]]).value)
    {
      var n := BYTE_GROUPS[i];
      GroupText(t, i);
      if i > 0 {
        src := src[1..];
      }
      assert src == SkipDash(t, i);
      ok := DecodeGroup(u, dst, src[..n], c, DIGIT_START[i], DIGIT_START[i + 1], start);
      if !ok {
        return;
      }
      src, dst := src[n..], dst + n / 2;
    }
    assert c[..32] == c;
    GoodPairsAll(c);
    ok := true;
  }

  /** The bytes that decoding `t` writes, whether or not it succeeds. */
  function Written(t: string): (r: seq<byte>)
    ensures |r| <= SIZE
  {
    match Digits(t)
    case None => []
    case Some(h) => GoodPairs(h)
  }

  function PlainWritten(t: string): (r: seq<byte>)
    ensures |r| <= SIZE
  {
    match PlainDigits(t)
    case None => []
    case Some(h) => GoodPairs(h)
  }

  lemma WrittenIsDecoded(t: string)
    requires Decode(t).Some?
    ensures Written(t) == Decode(t).value
      && forall dst: seq<byte> | |dst| == SIZE :: Overlaid(dst, 0, Written(t)) == Decode(t).value
  {
    GoodPairsAll(Digits(t).value);
  }

  method DecodePlain(u: array<byte>, t: string) returns (ok: bool)
    requires u.Length == SIZE
    modifies u
    ensures ok == (PlainDigits(t).Some? && UnHex(PlainDigits(t).value).Some?)
    ensures u[..] == Overlaid(old(u[..]), 0, PlainWritten(t))
  {
    if |t| == 32 {
      ok := HexDecode(u, 0, t);
    } else if |t| == 36 {
      ok := DecodeCanonical(u, t);
    } else {
      ok := false;
    }
  }

  method UnmarshalText(u: array<byte>, text: string) returns (ok: bool)
    requires u.Length == SIZE
    modifies u
    ensures ok == Decode(text).Some?
    ensures ok ==> u[..] == Decode(text).value
    ensures u[..] == Overlaid(old(u[..]), 0, Written(text))
  {
    var l := |text|;
    if l == 32 || l == 36 {
      ok := DecodePlain(u, text);
    } else if l == 38 {
      if text[0] != '{' || text[l - 1] != '}' {
        return false;
      }
      ok := DecodePlain(u, text[1..l - 1]);
    } else if l == 41 || l == 45 {
      if text[..9] != URN_PREFIX {
        return false;
      }
      ok := DecodePlain(u, text[9..]);
    } else {
      ok := false;
    }
    if ok {
      WrittenIsDecoded(text);
    }
  }

  /** The text is assembled from the five groups of bytes. */
  method String(u: seq<byte>) returns (s: string)
    requires |u| == SIZE
    ensures s == Text(u)
  {
    s := Hex(u[0..4]) + "-" + Hex(u[4..6]) + "-" + Hex(u[6..8]) + "-" + Hex(u[8..10]) + "-" + Hex(u[10..]);
    forall a, b
      ensures Hex(a + b) == Hex(a) + Hex(b)
    {
      HexConcat(a, b);
    }
    ConcatGroups(Hex, u, u[0..4], u[4..6], u[6..8], u[8..10], u[10..]);
    DashedGroups(Hex(u), Hex(u[0..4]), Hex(u[4..6]), Hex(u[6..8]), Hex(u[8..10]), Hex(u[10..]));
  }

  /** A spelling that goes group by group spells five groups one after the other. */
  lemma ConcatGroups(hex: seq<byte> -> string, u: seq<byte>, a: seq<byte>, b: seq<byte>, c: seq<byte>, d: seq<byte>,
                     e: seq<byte>)
    requires u == a + b + c + d + e && forall x, y :: hex(x + y) == hex(x) + hex(y)
    ensures hex(u) == hex(a) + hex(b) + hex(c) + hex(d) + hex(e)
  {
    assert hex(a + b + c + d) == hex(a) + hex(b) + hex(c) + hex(d);
  }

  lemma DashedGroups(h: string, a: string, b: string, c: string, d: string, e: string)
    requires |h| == 32 && |a| == 8 && |b| == |c| == |d| == 4 && h == a + b + c + d + e
    ensures Dashed(h) == a + "-" + b + "-" + c + "-" + d + "-" + e
  {
    assert h[..8] == a && h[8..12] == b && h[12..16] == c && h[16..20] == d && h[20..] == e;
  }
}
