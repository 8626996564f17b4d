/**
The version 1 generator (section 4.2 of RFC 4122).  Clock readings, randomness and the hardware
address are parameters.  64-bit and 16-bit quantities are integers with explicit wrap-around.
 */
module UuidV1 {
  import opened Sequences
  import opened Wrappers
  import opened Uuid

  const EPOCH_START: int := 122192928000000000
  const TWO_64: int := 0x1_0000_0000_0000_0000
  const TWO_60: int := 0x1000_0000_0000_0000
  const TWO_16: int := 0x1_0000
  const SEQUENCE_BITS: int := 0x4000   // 2^14

  // ---- The clock ---------------------------------------------------------------------------

  predicate IsInt64(x: int) {
    -0x8000_0000_0000_0000 <= x < 0x8000_0000_0000_0000
  }

  /** Go's division truncates toward zero. */
  function GoDiv(a: int, b: int): int
    requires b > 0
  {
    if a >= 0 then a / b else -(-a / b)
  }

  function ToUint64(x: int): int {
    x % TWO_64
  }

  /** `getEpoch` for a `UnixNano` reading. */
  function Epoch(nanos: int): int {
    ToUint64(EPOCH_START + ToUint64(GoDiv(nanos, 100)))
  }

  /**
  The sum never wraps, is positive and fits in 60 bits for every 64-bit reading, and counts its
  whole intervals of 100 nanoseconds, rounded toward zero.
   */
  lemma EpochFits(nanos: int)
    requires IsInt64(nanos)
    ensures Epoch(nanos) == EPOCH_START + GoDiv(nanos, 100)
    ensures 0 < Epoch(nanos) < TWO_60
    ensures var ticks := Epoch(nanos) - EPOCH_START;
            && (nanos >= 0 ==> 100 * ticks <= nanos < 100 * ticks + 100)
            && (nanos <= 0 ==> 100 * ticks - 100 < nanos <= 100 * ticks)
  {
    var q := GoDiv(nanos, 100);
    assert -92233720368547759 < q < 92233720368547759;
    if q < 0 {
      assert ToUint64(q) == q + TWO_64;
    }
  }

  datatype Stamp = Stamp(time: nat, sequence: nat)

  /** `getClockSequence`: the sequence grows whenever the clock did not advance. */
  function NextStamp(last: Stamp, time: nat): Stamp {
    Stamp(time, if time <= last.time then (last.sequence + 1) % TWO_16 else last.sequence)
  }

  // ---- Layout ------------------------------------------------------------------------------

  function Byte(x: int): byte {
    x % 256
  }

  /** `x >> 8 * k` for a non-negative `x`. */
  function Shift(x: nat, k: nat): nat {
    if k == 0 then x else Shift(x / 256, k - 1)
  }

  /** The sixteen bytes before version and variant are set. */
  function Layout(s: Stamp, hw: seq<byte>): (u: seq<byte>)
    requires |hw| == 6
    ensures |u| == SIZE
  {
    var t := s.time;
    [Byte(Shift(t, 3)), Byte(Shift(t, 2)), Byte(Shift(t, 1)), Byte(t),
     Byte(Shift(t, 5)), Byte(Shift(t, 4)),
     Byte(Shift(t, 7)), Byte(Shift(t, 6)),
     Byte(Shift(s.sequence, 1)), Byte(s.sequence)] + hw
  }

  function V1(s: Stamp, hw: seq<byte>): (u: seq<byte>)
    requires |hw| == 6
    ensures |u| == SIZE
  {
    var u := Layout(s, hw);
    u[6 := VersionByte(u[6], 1)][8 := VariantByte(u[8], RFC4122)]
  }

  lemma V1Tagged(s: Stamp, hw: seq<byte>)
    requires |hw| == 6
    ensures Version(V1(s, hw)) == 1 && Variant(V1(s, hw)) == RFC4122
  {
    var b, c := Layout(s, hw)[6], Layout(s, hw)[8];
    assert VersionByte(b, 1) / 16 == 1 && VariantByte(c, RFC4122) / 64 == 2 && VariantByte(c, RFC4122) / 128 == 1;
  }

  ghost predicate IsStamp(s: Stamp) {
    0 <= s.time < TWO_60 && 0 <= s.sequence < TWO_16
  }

  // ---- The fields of section 4.1.2 of RFC 4122 ----------------------------------------------

  function BigEndian(bs: seq<byte>): nat {
    if bs == [] then 0 else BigEndian(bs[..|bs| - 1]) * 256 + bs[|bs| - 1]
  }

  /** time_hi without the version, time_mid, time_low. */
  function TimeOf(u: seq<byte>): nat
    requires |u| == SIZE
  {
    BigEndian([u[6] % 16, u[7]] + u[4..6] + u[..4])
  }

  /** clock_seq_hi without the variant, clock_seq_low. */
  function SequenceOf(u: seq<byte>): nat
    requires |u| == SIZE
  {
    BigEndian([u[8] % 64, u[9]])
  }

  function NodeOf(u: seq<byte>): seq<byte>
    requires |u| == SIZE
  {
    u[10..]
  }

  lemma {:induction false} ShiftStep(x: nat, k: nat)
    ensures Shift(x, k) == Shift(x, k + 1) * 256 + Byte(Shift(x, k))
  {
    if k > 0 {
      ShiftStep(x / 256, k - 1);
    } else {
      assert Shift(x, 1) == Shift(x / 256, 0);
    }
  }

  /** The low `n` bytes of `x`, most significant first. */
  function LowBytes(x: nat, n: nat): (bs: seq<byte>)
    ensures |bs| == n
  {
    if n == 0 then [] else [Byte(Shift(x, n - 1))] + LowBytes(x, n - 1)
  }

  lemma {:induction false} BigEndianFirst(b: byte, bs: seq<byte>, c: byte)
    ensures BigEndian([b] + bs + [c]) == BigEndian([b] + bs) * 256 + c
  {
    assert ([b] + bs + [c])[..|bs| + 1] == [b] + bs;
  }

  /** A number is the big-endian value of its bytes below a top part. */
  lemma {:induction false} ValueOfBytes(x: nat, top: byte, n: nat)
    requires Shift(x, n) == top
    ensures BigEndian([top] + LowBytes(x, n)) == x
    decreases n
  {
    if n == 0 {
      assert [top] + [] == [top] && [top][..0] == [];
    } else {
      assert Shift(x / 256, n - 1) == top;
      ValueOfBytes(x / 256, top, n - 1);
      LowBytesSplit(x, n);
      BigEndianFirst(top, LowBytes(x / 256, n - 1), Byte(x));
      assert [top] + LowBytes(x, n) == [top] + LowBytes(x / 256, n - 1) + [Byte(x)];
    }
  }

  lemma {:induction false} LowBytesSplit(x: nat, n: nat)
    requires n > 0
    ensures LowBytes(x, n) == LowBytes(x / 256, n - 1) + [Byte(x)]
  {
    if n > 1 {
      LowBytesSplit(x, n - 1);
    }
  }

  lemma TopNibble(t: nat)
    requires t < TWO_60
    ensures Shift(t, 7) < 16
  {
    ShiftStep(t, 0);
    ShiftStep(t, 1);
    ShiftStep(t, 2);
    ShiftStep(t, 3);
    ShiftStep(t, 4);
    ShiftStep(t, 5);
    ShiftStep(t, 6);
  }

  lemma TimeField(s: Stamp, hw: seq<byte>)
    requires |hw| == 6 && IsStamp(s)
    ensures TimeOf(V1(s, hw)) == s.time
  {
    var u, t := V1(s, hw), s.time;
    TopNibble(t);
    assert u[6] % 16 == Shift(t, 7);
    ValueOfBytes(t, u[6] % 16, 7);
    LowSeven(t);
    assert [u[6] % 16, u[7]] + u[4..6] + u[..4] == [u[6] % 16] + LowBytes(t, 7);
  }

  lemma LowSeven(t: nat)
    ensures LowBytes(t, 7) == [Byte(Shift(t, 6)), Byte(Shift(t, 5)), Byte(Shift(t, 4)), Byte(Shift(t, 3)),
                               Byte(Shift(t, 2)), Byte(Shift(t, 1)), Byte(t)]
  {
    assert LowBytes(t, 1) == [Byte(t)];
    assert LowBytes(t, 3) == [Byte(Shift(t, 2)), Byte(Shift(t, 1))] + LowBytes(t, 1);
    assert LowBytes(t, 5) == [Byte(Shift(t, 4)), Byte(Shift(t, 3))] + LowBytes(t, 3);
  }

  lemma LowFourteen(x: nat)
    ensures x % SEQUENCE_BITS == x / 256 % 64 * 256 + x % 256
  {
  }

  lemma SequenceField(s: Stamp, hw: seq<byte>)
    requires |hw| == 6 && IsStamp(s)
    ensures SequenceOf(V1(s, hw)) == s.sequence % SEQUENCE_BITS
  {
    var u, high := V1(s, hw), s.sequence / 256;
    assert Shift(s.sequence, 1) == high;
    VariantKeepsSix(high);
    assert u[8] % 64 == high % 64 && u[9] == s.sequence % 256;
    TwoBytes(high % 64, s.sequence % 256);
    LowFourteen(s.sequence);
  }

  lemma VariantKeepsSix(x: nat)
    requires x < 256
    ensures VariantByte(Byte(x), RFC4122) % 64 == x % 64
  {
  }

  lemma TwoBytes(a: byte, b: byte)
    ensures BigEndian([a, b]) == a * 256 + b
  {
    assert [a][..0] == [] && BigEndian([a]) == a;
    assert [a, b][..1] == [a];
  }

  /** The stamp and the address can be read off the UUID, up to the bits the variant takes. */
  lemma V1Fields(s: Stamp, hw: seq<byte>)
    requires |hw| == 6 && IsStamp(s)
    ensures TimeOf(V1(s, hw)) == s.time
    ensures SequenceOf(V1(s, hw)) == s.sequence % SEQUENCE_BITS
    ensures NodeOf(V1(s, hw)) == hw
  {
    TimeField(s, hw);
    SequenceField(s, hw);
  }

  /** The fields, with the version and the variant, are all of a UUID. */
  lemma FieldsDetermine(a: Stamp, b: Stamp, hw: seq<byte>)
    requires |hw| == 6 && a.time == b.time && SequenceOf(V1(a, hw)) == SequenceOf(V1(b, hw))
    ensures V1(a, hw) == V1(b, hw)
  {
    var u, v := V1(a, hw), V1(b, hw);
    TwoBytes(u[8] % 64, u[9]);
    TwoBytes(v[8] % 64, v[9]);
    assert u[8] == u[8] % 64 + 0x80 && v[8] == v[8] % 64 + 0x80;
  }

  /** Two UUIDs are equal exactly if their times and the low fourteen bits of their sequences are. */
  lemma V1Injective(a: Stamp, b: Stamp, hw: seq<byte>)
    requires |hw| == 6 && IsStamp(a) && IsStamp(b)
    ensures V1(a, hw) == V1(b, hw) <==> a.time == b.time && a.sequence % SEQUENCE_BITS == b.sequence % SEQUENCE_BITS
  {
    V1Fields(a, hw);
    V1Fields(b, hw);
    if a.time == b.time && a.sequence % SEQUENCE_BITS == b.sequence % SEQUENCE_BITS {
      FieldsDetermine(a, b, hw);
    }
  }

  // ---- Uniqueness over a run ---------------------------------------------------------------

  /** The generator's stamp after a sequence of clock readings. */
  function After(start: Stamp, times: seq<nat>): Stamp
    decreases |times|
  {
    if times == [] then start else NextStamp(After(start, times[..|times| - 1]), times[|times| - 1])
  }

  /** How often the clock failed to advance. */
  function Stalls(start: Stamp, times: seq<nat>): nat
    decreases |times|
  {
    if times == [] then 0
    else
      var before := times[..|times| - 1];
      Stalls(start, before) + if times[|times| - 1] <= After(start, before).time then 1 else 0
  }

  lemma {:induction false} SequenceCountsStalls(start: Stamp, times: seq<nat>)
    requires start.sequence < TWO_16
    ensures After(start, times).sequence == (start.sequence + Stalls(start, times)) % TWO_16
    decreases |times|
  {
    if times != [] {
      SequenceCountsStalls(start, times[..|times| - 1]);
    }
  }

  /** Between two equal readings the clock must have stalled. */
  lemma {:induction false} EqualTimesStall(start: Stamp, times: seq<nat>, i: nat, j: nat)
    requires i < j <= |times|
    ensures Stalls(start, times[..i]) <= Stalls(start, times[..j])
    ensures Stalls(start, times[..i]) == Stalls(start, times[..j]) ==>
      After(start, times[..i]).time < After(start, times[..j]).time
    decreases j
  {
    assert times[..j][..j - 1] == times[..j - 1];
    if i < j - 1 {
      EqualTimesStall(start, times, i, j - 1);
    }
  }

  lemma LowBits(x: nat)
    ensures x % TWO_16 % SEQUENCE_BITS == x % SEQUENCE_BITS
  {
  }

  lemma RemaindersDiffer(x: nat, y: nat)
    requires x < y < x + SEQUENCE_BITS
    ensures x % SEQUENCE_BITS != y % SEQUENCE_BITS
  {
    assert y - x == SEQUENCE_BITS * (y / SEQUENCE_BITS - x / SEQUENCE_BITS) + y % SEQUENCE_BITS - x % SEQUENCE_BITS;
  }

  lemma SequencesDiffer(c: nat, d: nat, e: nat)
    requires d < e < d + SEQUENCE_BITS
    ensures (c + d) % TWO_16 % SEQUENCE_BITS != (c + e) % TWO_16 % SEQUENCE_BITS
  {
    LowBits(c + d);
    LowBits(c + e);
    RemaindersDiffer(c + d, c + e);
  }

  lemma {:induction false} StampsInRange(start: Stamp, times: seq<nat>)
    requires start.sequence < TWO_16 && times != []
    requires forall k :: 0 <= k < |times| ==> times[k] < TWO_60
    ensures IsStamp(After(start, times))
  {
    SequenceCountsStalls(start, times);
  }

  lemma StallsGrow(start: Stamp, times: seq<nat>, j: nat)
    requires j <= |times|
    ensures Stalls(start, times[..j]) <= Stalls(start, times)
  {
    assert times[..|times|] == times;
    if j < |times| {
      EqualTimesStall(start, times, j, |times|);
    }
  }

  lemma StampsDiffer(start: Stamp, times: seq<nat>, i: nat, j: nat)
    requires start.sequence < TWO_16 && Stalls(start, times) < SEQUENCE_BITS && 1 <= i < j <= |times|
    ensures var a, b := After(start, times[..i]), After(start, times[..j]);
            a.time != b.time || a.sequence % SEQUENCE_BITS != b.sequence % SEQUENCE_BITS
  {
    SequenceCountsStalls(start, times[..i]);
    SequenceCountsStalls(start, times[..j]);
    EqualTimesStall(start, times, i, j);
    StallsGrow(start, times, j);
    if After(start, times[..i]).time == After(start, times[..j]).time {
      SequencesDiffer(start.sequence, Stalls(start, times[..i]), Stalls(start, times[..j]));
    }
  }

  /** UUIDs of one generator are distinct while the clock fails to advance fewer than 2^14 times. */
  lemma Unique(start: Stamp, times: seq<nat>, hw: seq<byte>, i: nat, j: nat, u: seq<byte>, v: seq<byte>)
    requires |hw| == 6 && start.sequence < TWO_16
    requires forall k :: 0 <= k < |times| ==> times[k] < TWO_60
    requires Stalls(start, times) < SEQUENCE_BITS
    requires 1 <= i < j <= |times|
    requires u == V1(After(start, times[..i]), hw) && v == V1(After(start, times[..j]), hw)
    ensures u != v
  {
    StampsInRange(start, times[..i]);
    StampsInRange(start, times[..j]);
    StampsDiffer(start, times, i, j);
    V1Injective(After(start, times[..i]), After(start, times[..j]), hw);
  }

  lemma NextSequence(x: nat)
    ensures (x % TWO_16 + 1) % TWO_16 == (x + 1) % TWO_16
  {
  }

  /** `n` readings of a clock that stands at `t`. */
  function Stuck(t: nat, n: nat): (times: seq<nat>)
    ensures |times| == n
  {
    if n == 0 then [] else Stuck(t, n - 1) + [t]
  }

  lemma {:induction false} StuckClock(start: Stamp, t: nat, n: nat)
    requires start.time < t && start.sequence < TWO_16 && n > 0
    ensures After(start, Stuck(t, n)) == Stamp(t, (start.sequence + n - 1) % TWO_16)
    ensures Stalls(start, Stuck(t, n)) == n - 1
  {
    assert Stuck(t, n)[..n - 1] == Stuck(t, n - 1);
    if n > 1 {
      StuckClock(start, t, n - 1);
      NextSequence(start.sequence + n - 2);
    }
  }

  lemma RepeatedSequence(c: nat)
    ensures c % TWO_16 % SEQUENCE_BITS == (c + SEQUENCE_BITS) % TWO_16 % SEQUENCE_BITS
  {
    LowBits(c);
    LowBits(c + SEQUENCE_BITS);
  }

  /** The bound is sharp: on a stuck clock the UUID after 2^14 stalls repeats the first one. */
  lemma BoundIsSharp(start: Stamp, t: nat, hw: seq<byte>)
    requires |hw| == 6 && start.time < t < TWO_60 && start.sequence < TWO_16
    ensures Stalls(start, Stuck(t, SEQUENCE_BITS + 1)) == SEQUENCE_BITS
    ensures V1(After(start, Stuck(t, 1)), hw) == V1(After(start, Stuck(t, SEQUENCE_BITS + 1)), hw)
  {
    StuckClock(start, t, 1);
    StuckClock(start, t, SEQUENCE_BITS + 1);
    RepeatedSequence(start.sequence);
    V1Injective(After(start, Stuck(t, 1)), After(start, Stuck(t, SEQUENCE_BITS + 1)), hw);
  }

  // ---- The generator -----------------------------------------------------------------------

  /** Go's `copy(dst, src)`. */
  function Copied(dst: seq<byte>, src: seq<byte>): (r: seq<byte>)
    ensures |r| == |dst|
  {
    if |src| >= |dst| then src[..|dst|] else src + dst[|src|..]
  }

  /** `b | 0x01`. */
  function WithLowBit(b: byte): byte {
    if b % 2 == 0 then b + 1 else b
  }

  // What one call does to a generator, on values

  datatype Gen = Gen(sequenceOnce: bool, hardwareOnce: bool, last: Stamp, hardwareAddr: seq<byte>)

  /**
  What the world answers to one call: the clock reading, two random bytes for the sequence, the
  interface address, and up to six random bytes in its place.
   */
  datatype Call = Call(nanos: int, seed: Option<nat>, hw: Option<seq<byte>>, random: seq<byte>)

  predicate IsCall(call: Call) {
    IsInt64(call.nanos) && (call.seed.Some? ==> call.seed.value < TWO_16) && |call.random| <= 6
  }

  predicate IsGen(g: Gen) {
    0 <= g.last.time < TWO_60 && 0 <= g.last.sequence < TWO_16 && |g.hardwareAddr| == 6
  }

  const NEW_GEN := Gen(false, false, Stamp(0, 0), [0, 0, 0, 0, 0, 0])

  /** The once-only seed has been tried before or succeeds now. */
  predicate Clocked(g: Gen, call: Call) {
    g.sequenceOnce || call.seed.Some?
  }

  predicate Addressed(g: Gen, call: Call) {
    g.hardwareOnce || call.hw.Some? || |call.random| == 6
  }

  function Address(g: Gen, call: Call): (addr: seq<byte>)
    requires IsGen(g) && IsCall(call)
    ensures |addr| == 6
  {
    if g.hardwareOnce then g.hardwareAddr
    else if call.hw.Some? then Copied(g.hardwareAddr, call.hw.value)
    else if |call.random| == 6 then call.random[0 := WithLowBit(call.random[0])]
    else Copied(g.hardwareAddr, call.random)
  }

  function StampOf(g: Gen, call: Call): (s: Stamp)
    requires IsGen(g) && IsCall(call)
    ensures IsStamp(s)
  {
    EpochFits(call.nanos);
    NextStamp(if g.sequenceOnce || call.seed.None? then g.last
              else Stamp(g.last.time, call.seed.value), Epoch(call.nanos))
  }

  function GenAfter(g: Gen, call: Call): (r: Gen)
    requires IsGen(g) && IsCall(call)
    ensures IsGen(r)
  {
    if Clocked(g, call) then Gen(true, true, StampOf(g, call), Address(g, call)) else g.(sequenceOnce := true)
  }

  function Issued(g: Gen, call: Call): Option<seq<byte>>
    requires IsGen(g) && IsCall(call)
  {
    if Clocked(g, call) && Addressed(g, call) then Some(V1(StampOf(g, call), Address(g, call))) else None
  }

  /** An issued UUID carries the time of the reading, the clock sequence and the address. */
  lemma IssuedFields(g: Gen, call: Call)
    requires IsGen(g) && IsCall(call) && Issued(g, call).Some?
    ensures var u := Issued(g, call).value;
            && TimeOf(u) == EPOCH_START + GoDiv(call.nanos, 100)
            && SequenceOf(u) == GenAfter(g, call).last.sequence % SEQUENCE_BITS
            && NodeOf(u) == GenAfter(g, call).hardwareAddr
            && Version(u) == 1 && Variant(u) == RFC4122
  {
    V1Fields(StampOf(g, call), Address(g, call));
    V1Tagged(StampOf(g, call), Address(g, call));
    EpochFits(call.nanos);
  }

  /** A call fails exactly when it is the first and its seed fails, or when it looks for an address and finds none. */
  lemma IssuedIff(g: Gen, call: Call)
    requires IsGen(g) && IsCall(call)
    ensures Issued(g, call).Some? <==>
      (g.sequenceOnce || call.seed.Some?) && (g.hardwareOnce || call.hw.Some? || |call.random| == 6)
  {
  }

  /**
  The address is that of the interface, or six random bytes with the multicast bit set (section 4.5
  of RFC 4122).  A failed read leaves the random bytes it got over the old ones, and later calls
  use those.
   */
  lemma AddressIs(g: Gen, call: Call)
    requires IsGen(g) && IsCall(call)
    ensures var addr := GenAfter(g, call).hardwareAddr;
            if g.hardwareOnce || !(g.sequenceOnce || call.seed.Some?) then addr == g.hardwareAddr
            else if call.hw.Some? then
              forall i :: 0 <= i < 6 ==> addr[i] == if i < |call.hw.value| then call.hw.value[i] else g.hardwareAddr[i]
            else if |call.random| == 6 then
              addr[1..] == call.random[1..] && addr[0] % 2 == 1 && addr[0] / 2 == call.random[0] / 2
            else addr == call.random + g.hardwareAddr[|call.random|..]
  {
  }

  class Generator {
    var sequenceOnce: bool
    var hardwareOnce: bool
    var lastTime: nat
    var clockSequence: nat
    var hardwareAddr: seq<byte>

    ghost function State(): Gen
      reads this
    {
      Gen(sequenceOnce, hardwareOnce, Stamp(lastTime, clockSequence), hardwareAddr)
    }

    ghost predicate Valid()
      reads this
    {
      IsGen(State())
    }

    constructor ()
      ensures Valid() && State() == NEW_GEN
    {
      sequenceOnce, hardwareOnce := false, false;
      lastTime, clockSequence := 0, 0;
      hardwareAddr := [0, 0, 0, 0, 0, 0];
    }

    /** The once-only attempt to seed the sequence may fail. */
    method GetClockSequence(call: Call) returns (ok: bool)
      requires Valid() && IsCall(call)
      modifies this`sequenceOnce, this`lastTime, this`clockSequence
      ensures Valid() && sequenceOnce
      ensures ok == Clocked(old(State()), call)
      ensures State().last == if ok then StampOf(old(State()), call) else old(State()).last
    {
      EpochFits(call.nanos);
      if !sequenceOnce {
        sequenceOnce := true;
        if call.seed.None? {
          return false;
        }
        clockSequence := call.seed.value;
      }
      var timeNow := Epoch(call.nanos);
      if timeNow <= lastTime {
        clockSequence := (clockSequence + 1) % TWO_16;
      }
      lastTime := timeNow;
      ok := true;
    }

    /** The fallback sets the low bit of the first byte; a failed read leaves the bytes it got. */
    method GetHardwareAddr(call: Call) returns (ok: bool)
      requires Valid() && IsCall(call)
      modifies this`hardwareOnce, this`hardwareAddr
      ensures Valid() && hardwareOnce
      ensures ok == Addressed(old(State()), call)
      ensures hardwareAddr == Address(old(State()), call)
    {
      ok := true;
      if !hardwareOnce {
        hardwareOnce := true;
        if call.hw.Some? {
          hardwareAddr := Copied(hardwareAddr, call.hw.value);
        } else {
          hardwareAddr := Copied(hardwareAddr, call.random);
          if |call.random| < 6 {
            ok := false;
          } else {
            hardwareAddr := hardwareAddr[0 := WithLowBit(hardwareAddr[0])];
          }
        }
      }
    }

    method NewV1(call: Call) returns (r: Option<seq<byte>>)
      requires Valid() && IsCall(call)
      modifies this
      ensures Valid()
      ensures State() == GenAfter(old(State()), call) && r == Issued(old(State()), call)
      ensures r.Some? ==> TimeOf(r.value) == EPOCH_START + GoDiv(call.nanos, 100) && NodeOf(r.value) == hardwareAddr
    {
      var ok := GetClockSequence(call);
      if !ok {
        return None;
      }
      ok := GetHardwareAddr(call);
      if !ok {
        return None;
      }
      var u := Assemble(lastTime, clockSequence, hardwareAddr);
      r := Some(u);
      IssuedFields(old(State()), call);
    }
  }

  /** The bytes are written into a fresh array, then version and variant are set. */
  method Assemble(t: nat, c: nat, hw: seq<byte>) returns (r: seq<byte>)
    requires |hw| == 6
    ensures r == V1(Stamp(t, c), hw)
  {
    var bytes := Layout(Stamp(t, c), hw);
    var u := new byte[SIZE](i requires 0 <= i < SIZE => bytes[i]);
    assert u[..] == bytes;
    SetVersion(u, 1);
    SetVariant(u, RFC4122);
    r := u[..];
  }

  // ---- All UUIDs of one generator ----------------------------------------------------------

  ghost predicate AreCalls(calls: seq<Call>) {
    forall i :: 0 <= i < |calls| ==> IsCall(calls[i])
  }

  /** A new generator after `calls`. */
  ghost function GenOf(calls: seq<Call>): (g: Gen)
    requires AreCalls(calls)
    ensures IsGen(g)
  {
    if calls == [] then NEW_GEN else GenAfter(GenOf(calls[..|calls| - 1]), calls[|calls| - 1])
  }

  /** What the last of `calls` returns. */
  ghost function LastIssued(calls: seq<Call>): Option<seq<byte>>
    requires AreCalls(calls) && calls != []
  {
    Issued(GenOf(calls[..|calls| - 1]), calls[|calls| - 1])
  }

  /** The readings of the calls that got as far as the clock. */
  ghost function Readings(calls: seq<Call>): seq<nat>
    requires AreCalls(calls)
  {
    if calls == [] then []
    else
      var front, last := calls[..|calls| - 1], calls[|calls| - 1];
      EpochFits(last.nanos);
      if Clocked(GenOf(front), last) then Readings(front) + [Epoch(last.nanos)] else Readings(front)
  }

  /** The stamp before the first reading: only the first call can seed the sequence. */
  function Seeded(calls: seq<Call>): Stamp {
    Stamp(0, if calls != [] && calls[0].seed.Some? then calls[0].seed.value else 0)
  }

  /** How often the clock failed to advance during `calls`. */
  ghost function ClockStalls(calls: seq<Call>): nat
    requires AreCalls(calls)
  {
    Stalls(Seeded(calls), Readings(calls))
  }

  ghost predicate Tracks(calls: seq<Call>)
    requires AreCalls(calls)
  {
    GenOf(calls).sequenceOnce && GenOf(calls).last == After(Seeded(calls), Readings(calls))
  }

  lemma {:induction false} GenTracks(calls: seq<Call>)
    requires AreCalls(calls) && calls != []
    ensures GenOf(calls).sequenceOnce && GenOf(calls).last == After(Seeded(calls), Readings(calls))
    decreases |calls|
  {
    if |calls| == 1 {
      FirstTracks(calls);
    } else {
      GenTracks(calls[..|calls| - 1]);
      NextTracks(calls);
    }
  }

  lemma FirstTracks(calls: seq<Call>)
    requires AreCalls(calls) && |calls| == 1
    ensures Tracks(calls)
  {
    FirstCall(calls);
    EpochFits(calls[0].nanos);
    if calls[0].seed.Some? {
      AfterFirst(Seeded(calls), Epoch(calls[0].nanos));
    }
  }

  lemma FirstCall(calls: seq<Call>)
    requires AreCalls(calls) && |calls| == 1
    ensures GenOf(calls) == GenAfter(NEW_GEN, calls[0])
    ensures Readings(calls) == if calls[0].seed.Some? then [Epoch(calls[0].nanos)] else []
  {
    assert calls[..0] == [];
  }

  lemma AfterFirst(start: Stamp, t: nat)
    ensures After(start, [t]) == NextStamp(start, t)
  {
    assert [t][..0] == [];
  }

  lemma NextTracks(calls: seq<Call>)
    requires AreCalls(calls) && |calls| > 1 && Tracks(calls[..|calls| - 1])
    ensures Tracks(calls)
  {
    var front, last := calls[..|calls| - 1], calls[|calls| - 1];
    EpochFits(last.nanos);
    assert Readings(calls)[..|Readings(front)|] == Readings(front);
  }

  lemma {:induction false} ReadingsFit(calls: seq<Call>, k: nat)
    requires AreCalls(calls) && k < |Readings(calls)|
    ensures Readings(calls)[k] < TWO_60
    decreases |calls|
  {
    var front, last := calls[..|calls| - 1], calls[|calls| - 1];
    EpochFits(last.nanos);
    if k < |Readings(front)| {
      ReadingsFit(front, k);
    }
  }

  lemma {:induction false} ReadingsPrefix(calls: seq<Call>, i: nat)
    requires AreCalls(calls) && i <= |calls|
    ensures |Readings(calls[..i])| <= |Readings(calls)|
    ensures Readings(calls[..i]) == Readings(calls)[..|Readings(calls[..i])|]
    decreases |calls|
  {
    if i < |calls| {
      var front := calls[..|calls| - 1];
      ReadingsPrefix(front, i);
      assert front[..i] == calls[..i];
    } else {
      assert calls[..i] == calls;
    }
  }

  lemma {:induction false} AddressStays(calls: seq<Call>, i: nat)
    requires AreCalls(calls) && i <= |calls| && GenOf(calls[..i]).hardwareOnce
    ensures GenOf(calls).hardwareOnce && GenOf(calls).hardwareAddr == GenOf(calls[..i]).hardwareAddr
    decreases |calls|
  {
    if i < |calls| {
      var front := calls[..|calls| - 1];
      assert front[..i] == calls[..i];
      AddressStays(front, i);
    } else {
      assert calls[..i] == calls;
    }
  }

  /** A returned UUID is that of the stamp after the readings so far, with the address of the generator. */
  lemma IssuedIs(calls: seq<Call>)
    requires AreCalls(calls) && calls != [] && LastIssued(calls).Some?
    ensures LastIssued(calls).value == V1(After(Seeded(calls), Readings(calls)), GenOf(calls).hardwareAddr)
    ensures GenOf(calls).hardwareOnce && |Readings(calls)| == |Readings(calls[..|calls| - 1])| + 1
  {
    GenTracks(calls);
  }

  lemma IssuedAt(calls: seq<Call>, i: nat)
    requires AreCalls(calls) && i < |calls| && LastIssued(calls[..i + 1]).Some?
    ensures var n := |Readings(calls[..i + 1])|;
            && 1 <= n <= |Readings(calls)| && n > |Readings(calls[..i])|
            && LastIssued(calls[..i + 1]).value ==
              V1(After(Seeded(calls), Readings(calls)[..n]), GenOf(calls).hardwareAddr)
  {
    var part := calls[..i + 1];
    assert part[..i] == calls[..i];
    IssuedIs(part);
    AddressStays(calls, i + 1);
    ReadingsPrefix(calls, i + 1);
  }

  lemma ReadingsGrow(calls: seq<Call>, i: nat, j: nat)
    requires AreCalls(calls) && i <= j <= |calls|
    ensures |Readings(calls[..i])| <= |Readings(calls[..j])|
  {
    assert calls[..j][..i] == calls[..i];
    ReadingsPrefix(calls[..j], i);
  }

  /**
  All UUIDs returned by one generator, from its first call on and through failed calls, are
  distinct while the clock fails to advance fewer than 2^14 times.
   */
  lemma AllIssuedDistinct(calls: seq<Call>, i: nat, j: nat)
    requires AreCalls(calls) && ClockStalls(calls) < SEQUENCE_BITS && i < j < |calls|
    requires LastIssued(calls[..i + 1]).Some? && LastIssued(calls[..j + 1]).Some?
    ensures LastIssued(calls[..i + 1]) != LastIssued(calls[..j + 1])
  {
    IssuedAt(calls, i);
    IssuedAt(calls, j);
    ReadingsGrow(calls, i + 1, j);
    forall k | 0 <= k < |Readings(calls)|
      ensures Readings(calls)[k] < TWO_60
    {
      ReadingsFit(calls, k);
    }
    Unique(Seeded(calls), Readings(calls), GenOf(calls).hardwareAddr,
           |Readings(calls[..i + 1])|, |Readings(calls[..j + 1])|,
           LastIssued(calls[..i + 1]).value, LastIssued(calls[..j + 1]).value);
  }

  ghost predicate Returned(calls: seq<Call>, us: seq<Option<seq<byte>>>)
    requires AreCalls(calls)
  {
    |us| <= |calls| && forall i :: 0 <= i < |us| ==> us[i] == LastIssued(calls[..i + 1])
  }

  lemma NextReturned(calls: seq<Call>, us: seq<Option<seq<byte>>>, r: Option<seq<byte>>)
    requires AreCalls(calls) && Returned(calls, us) && |us| < |calls| && r == LastIssued(calls[..|us| + 1])
    ensures Returned(calls, us + [r])
  {
  }

  lemma NextCall(calls: seq<Call>, n: nat)
    requires AreCalls(calls) && n < |calls|
    ensures GenOf(calls[..n + 1]) == GenAfter(GenOf(calls[..n]), calls[n])
    ensures LastIssued(calls[..n + 1]) == Issued(GenOf(calls[..n]), calls[n])
  {
    assert calls[..n + 1][..n] == calls[..n];
  }

  /** Calls on a new generator, whatever the world answers to each. */
  method NewV1Run(calls: seq<Call>) returns (us: seq<Option<seq<byte>>>)
    requires AreCalls(calls)
    ensures |us| == |calls| && forall i :: 0 <= i < |us| ==> us[i] == LastIssued(calls[..i + 1])
    ensures ClockStalls(calls) < SEQUENCE_BITS ==>
      forall i, j :: 0 <= i < j < |us| && us[i].Some? && us[j].Some? ==> us[i] != us[j]
  {
    us := [];
    var g := new Generator();
    for n := 0 to |calls|
      invariant fresh(g) && g.Valid() && g.State() == GenOf(calls[..n])
      invariant |us| == n && Returned(calls, us)
    {
      NextCall(calls, n);
      var r := g.NewV1(calls[n]);
      NextReturned(calls, us, r);
      us := us + [r];
    }
    IssuedDistinct(calls, us);
  }

  lemma IssuedDistinct(calls: seq<Call>, us: seq<Option<seq<byte>>>)
    requires AreCalls(calls) && |us| == |calls| && forall i :: 0 <= i < |us| ==> us[i] == LastIssued(calls[..i + 1])
    ensures ClockStalls(calls) < SEQUENCE_BITS ==>
      forall i, j :: 0 <= i < j < |us| && us[i].Some? && us[j].Some? ==> us[i] != us[j]
  {
    if ClockStalls(calls) < SEQUENCE_BITS {
      forall i, j | 0 <= i < j < |us| && us[i].Some? && us[j].Some?
        ensures us[i] != us[j]
      {
        AllIssuedDistinct(calls, i, j);
      }
    }
  }
}
