/**
`snapshot` and `fanIn`: one producer goroutine per shard fills a channel, one goroutine per channel
copies it to the output, and the output is closed when all copiers are done.  Any goroutine may
take the next step.  A shard's channel holds as many pairs as the shard, the buffered output as
many as all shards together.
 */
module FanIn {
  import opened Wrappers

  /** A shard's producer, its channel and its copier. */
  datatype Lane<T> = Lane(
    cap: nat,            // capacity of the channel
    todo: multiset<T>,   // pairs the producer has not sent
    made: bool,          // the channel exists
    chan: seq<T>,
    closed: bool,
    hand: Option<T>,     // received by the copier, not yet sent on
    done: bool)

  datatype Pump<T> = Pump(lanes: seq<Lane<T>>, cap: nat, out: seq<T>, closed: bool, got: seq<T>)

  datatype Step<T> =
    | Allocate(i: nat)
    | Produce(i: nat, x: T)
    | Close(i: nat)
    | Take(i: nat)
    | Send(i: nat)
    | Finish(i: nat)
    | CloseOut
    | Receive

  /** The pairs a lane holds. */
  function Size<T>(l: Lane<T>): nat {
    |l.todo| + |l.chan| + if l.hand.Some? then 1 else 0
  }

  function Sum<T>(lanes: seq<Lane<T>>, f: Lane<T> -> nat): nat {
    if lanes == [] then 0 else f(lanes[0]) + Sum(lanes[1..], f)
  }

  function StartLanes<T>(shards: seq<multiset<T>>): seq<Lane<T>> {
    seq(|shards|, i requires 0 <= i < |shards| => Lane(|shards[i]|, shards[i], false, [], false, None, false))
  }

  function Start<T>(shards: seq<multiset<T>>): Pump<T> {
    Pump(StartLanes(shards), Sum(StartLanes(shards), Size), [], false, [])
  }

  /** `snapshot` returns only when every channel exists, so copiers start after that. */
  predicate Ready<T>(p: Pump<T>) {
    forall i :: 0 <= i < |p.lanes| ==> p.lanes[i].made
  }

  predicate AllDone<T>(p: Pump<T>) {
    forall i :: 0 <= i < |p.lanes| ==> p.lanes[i].done
  }

  predicate Enabled<T(==)>(p: Pump<T>, s: Step<T>) {
    match s
    case CloseOut => Ready(p) && AllDone(p) && !p.closed
    case Receive => p.out != []
    case Allocate(i) => i < |p.lanes| && !p.lanes[i].made
    case Produce(i, x) =>
      i < |p.lanes| && p.lanes[i].made && x in p.lanes[i].todo && |p.lanes[i].chan| < p.lanes[i].cap
    case Close(i) => i < |p.lanes| && p.lanes[i].made && p.lanes[i].todo == multiset{} && !p.lanes[i].closed
    case Take(i) => i < |p.lanes| && Ready(p) && p.lanes[i].chan != [] && p.lanes[i].hand.None?
    case Send(i) => i < |p.lanes| && p.lanes[i].hand.Some? && |p.out| < p.cap
    case Finish(i) =>
      i < |p.lanes| && Ready(p) && p.lanes[i].closed && p.lanes[i].chan == [] && p.lanes[i].hand.None?
        && !p.lanes[i].done
  }

  function LaneAfter<T>(l: Lane<T>, s: Step<T>): Lane<T>
    requires s.Take? ==> l.chan != []
  {
    match s
    case Allocate(_) => l.(made := true)
    case Produce(_, x) => l.(todo := l.todo - multiset{x}, chan := l.chan + [x])
    case Close(_) => l.(closed := true)
    case Take(_) => l.(hand := Some(l.chan[0]), chan := l.chan[1..])
    case Send(_) => l.(hand := None)
    case Finish(_) => l.(done := true)
    case _ => l
  }

  function Exec<T>(p: Pump<T>, s: Step<T>): Pump<T>
    requires Enabled(p, s)
  {
    if s.CloseOut? then p.(closed := true)
    else if s.Receive? then p.(out := p.out[1..], got := p.got + [p.out[0]])
    else
      var l := p.lanes[s.i];
      p.(lanes := p.lanes[s.i := LaneAfter(l, s)], out := if s.Send? then p.out + [l.hand.value] else p.out)
  }

  ghost function After<T>(p: Pump<T>, steps: seq<Step<T>>): Option<Pump<T>>
    decreases |steps|
  {
    if steps == [] then Some(p)
    else
      var q := After(p, steps[..|steps| - 1]);
      var s := steps[|steps| - 1];
      if q.Some? && Enabled(q.value, s) then Some(Exec(q.value, s)) else None
  }

  // ---- Conservation ------------------------------------------------------------------------

  /** How often `x` occurs in a sequence. */
  function Times<T(==)>(s: seq<T>, x: T): nat {
    multiset(s)[x]
  }

  /** How often `x` is still held by a lane. */
  function Load<T(==)>(l: Lane<T>, x: T): nat {
    l.todo[x] + Times(l.chan, x) + if l.hand == Some(x) then 1 else 0
  }

  function Total<T(==)>(lanes: seq<Lane<T>>, x: T): nat {
    if lanes == [] then 0 else Load(lanes[0], x) + Total(lanes[1..], x)
  }

  /** Occurrences of `x` in flight or delivered; no step creates or loses one. */
  function Everywhere<T(==)>(p: Pump<T>, x: T): nat {
    Total(p.lanes, x) + Times(p.out, x) + Times(p.got, x)
  }

  lemma {:induction false} TotalUpdate<T>(lanes: seq<Lane<T>>, i: nat, l: Lane<T>, x: T)
    requires i < |lanes|
    ensures Total(lanes[i := l], x) == Total(lanes, x) - Load(lanes[i], x) + Load(l, x)
  {
    if i > 0 {
      TotalUpdate(lanes[1..], i - 1, l, x);
      assert lanes[i := l][1..] == lanes[1..][i - 1 := l];
    } else {
      assert lanes[0 := l][1..] == lanes[1..];
    }
  }

  ghost predicate LaneInv<T>(l: Lane<T>) {
    && |l.todo| + |l.chan| <= l.cap
    && (l.closed ==> l.todo == multiset{})
    && (l.done ==> l.made && l.closed && l.chan == [] && l.hand.None?)
  }

  ghost predicate Inv<T>(p: Pump<T>) {
    && (forall i :: 0 <= i < |p.lanes| ==> LaneInv(p.lanes[i]))
    && (p.closed ==> AllDone(p))
  }

  lemma AddOne<T>(s: seq<T>, x: T)
    ensures forall y :: Times(s + [x], y) == Times(s, y) + if y == x then 1 else 0
  {
  }

  lemma DropOne<T>(s: seq<T>)
    requires s != []
    ensures forall y :: Times(s, y) == Times(s[1..], y) + if y == s[0] then 1 else 0
  {
    assert s == [s[0]] + s[1..];
  }

  lemma LaneStep<T>(p: Pump<T>, s: Step<T>, x: T)
    requires Enabled(p, s) && s != CloseOut && s != Receive && LaneInv(p.lanes[s.i])
    ensures var l, m := p.lanes[s.i], LaneAfter(p.lanes[s.i], s);
            && LaneInv(m) && (l.done ==> m.done)
            && Load(m, x) == Load(l, x) - if s.Send? && l.hand.value == x then 1 else 0
  {
    var l := p.lanes[s.i];
    if s.Take? {
      DropOne(l.chan);
    } else if s.Produce? {
      AddOne(l.chan, s.x);
    }
  }

  lemma LaneStepInv<T>(p: Pump<T>, s: Step<T>)
    requires Enabled(p, s) && s != CloseOut && s != Receive && Inv(p)
    ensures Inv(Exec(p, s))
  {
    forall i | 0 <= i < |p.lanes|
      ensures LaneInv(Exec(p, s).lanes[i]) && (p.lanes[i].done ==> Exec(p, s).lanes[i].done)
    {
      assert LaneInv(p.lanes[i]);
    }
  }

  lemma LaneStepCount<T>(p: Pump<T>, s: Step<T>, x: T)
    requires Enabled(p, s) && s != CloseOut && s != Receive && LaneInv(p.lanes[s.i])
    ensures Everywhere(Exec(p, s), x) == Everywhere(p, x)
  {
    LaneStep(p, s, x);
    TotalUpdate(p.lanes, s.i, LaneAfter(p.lanes[s.i], s), x);
    if s.Send? {
      AddOne(p.out, p.lanes[s.i].hand.value);
    }
  }

  lemma ConservedStep<T>(p: Pump<T>, s: Step<T>, x: T)
    requires Enabled(p, s) && Inv(p)
    ensures Inv(Exec(p, s)) && Everywhere(Exec(p, s), x) == Everywhere(p, x)
  {
    if s == Receive {
      DropOne(p.out);
      AddOne(p.got, p.out[0]);
    } else if s != CloseOut {
      LaneStepInv(p, s);
      LaneStepCount(p, s, x);
    }
  }

  lemma {:induction false} ConservedRun<T>(p: Pump<T>, steps: seq<Step<T>>, x: T)
    requires Inv(p) && After(p, steps).Some?
    ensures Inv(After(p, steps).value) && Everywhere(After(p, steps).value, x) == Everywhere(p, x)
    decreases |steps|
  {
    if steps != [] {
      ConservedRun(p, steps[..|steps| - 1], x);
      ConservedStep(After(p, steps[..|steps| - 1]).value, steps[|steps| - 1], x);
    }
  }

  /** How often `x` occurs in all shards together. */
  function Supply<T(==)>(shards: seq<multiset<T>>, x: T): nat {
    if shards == [] then 0 else shards[0][x] + Supply(shards[1..], x)
  }

  lemma {:induction false} StartTotal<T>(shards: seq<multiset<T>>, x: T)
    ensures Total(StartLanes(shards), x) == Supply(shards, x)
  {
    if shards != [] {
      StartTotal(shards[1..], x);
      assert StartLanes(shards)[1..] == StartLanes(shards[1..]);
    }
  }

  lemma {:induction false} DrainedTotal<T>(lanes: seq<Lane<T>>, x: T)
    requires forall i :: 0 <= i < |lanes| ==> lanes[i].done && LaneInv(lanes[i])
    ensures Total(lanes, x) == 0
  {
    if lanes != [] {
      assert lanes[0].done && LaneInv(lanes[0]);
      DrainedTotal(lanes[1..], x);
    }
  }

  /** In every interleaving, once the output is closed and drained each pair has arrived as often as it was stored. */
  lemma DeliversAll<T>(shards: seq<multiset<T>>, steps: seq<Step<T>>, x: T)
    requires After(Start(shards), steps).Some?
    requires After(Start(shards), steps).value.closed && After(Start(shards), steps).value.out == []
    ensures Times(After(Start(shards), steps).value.got, x) == Supply(shards, x)
  {
    var p := After(Start(shards), steps).value;
    ConservedRun(Start(shards), steps, x);
    StartTotal(shards, x);
    DrainedTotal(p.lanes, x);
  }

  // ---- Progress ----------------------------------------------------------------------------

  lemma {:induction false} SumUpdate<T>(lanes: seq<Lane<T>>, i: nat, l: Lane<T>, f: Lane<T> -> nat)
    requires i < |lanes|
    ensures Sum(lanes[i := l], f) == Sum(lanes, f) - f(lanes[i]) + f(l)
    ensures f(lanes[i]) <= Sum(lanes, f)
  {
    if i > 0 {
      SumUpdate(lanes[1..], i - 1, l, f);
      assert lanes[i := l][1..] == lanes[1..][i - 1 := l];
    } else {
      assert lanes[0 := l][1..] == lanes[1..];
    }
  }

  /** The steps a lane has still to take, and the receiver for what the lane holds. */
  function Work<T>(l: Lane<T>): nat {
    4 * |l.todo| + 3 * |l.chan| + (if l.hand.Some? then 2 else 0)
    + (if l.made then 0 else 1) + (if l.closed then 0 else 1) + (if l.done then 0 else 1)
  }

  function Remaining<T>(p: Pump<T>): nat {
    Sum(p.lanes, Work) + |p.out| + if p.closed then 0 else 1
  }

  /** What the lanes hold fits into what is left of the output. */
  ghost predicate Roomy<T>(p: Pump<T>) {
    Sum(p.lanes, Size) + |p.out| <= p.cap
  }

  lemma LaneMeasures<T>(p: Pump<T>, s: Step<T>)
    requires Enabled(p, s) && s != CloseOut && s != Receive
    ensures var l, m := p.lanes[s.i], LaneAfter(p.lanes[s.i], s);
            && Work(m) + (if s.Send? then 1 else 0) == Work(l) - 1
            && Size(m) + (if s.Send? then 1 else 0) == Size(l)
  {
  }

  /** Every step does one of the remaining steps. */
  lemma StepWorks<T>(p: Pump<T>, s: Step<T>)
    requires Enabled(p, s) && Roomy(p)
    ensures Remaining(Exec(p, s)) == Remaining(p) - 1 && Roomy(Exec(p, s))
  {
    if s != CloseOut && s != Receive {
      LaneMeasures(p, s);
      SumUpdate(p.lanes, s.i, LaneAfter(p.lanes[s.i], s), Work);
      SumUpdate(p.lanes, s.i, LaneAfter(p.lanes[s.i], s), Size);
    }
  }

  /** A lane that is not done has a step, given that every channel exists. */
  lemma LaneMoves<T>(p: Pump<T>, i: nat) returns (s: Step<T>)
    requires Inv(p) && Roomy(p) && Ready(p) && i < |p.lanes| && !p.lanes[i].done
    ensures Enabled(p, s)
  {
    var l := p.lanes[i];
    SumUpdate(p.lanes, i, l, Size);
    if l.todo != multiset{} {
      var x :| x in l.todo;
      assert |l.todo - multiset{x}| == |l.todo| - 1;
      s := Produce(i, x);
    } else if !l.closed {
      s := Close(i);
    } else if l.hand.Some? {
      s := Send(i);
    } else if l.chan != [] {
      s := Take(i);
    } else {
      s := Finish(i);
    }
  }

  /** Until the output is closed and drained, some goroutine or the receiver can take a step. */
  lemma SomeStep<T>(p: Pump<T>) returns (s: Step<T>)
    requires Inv(p) && Roomy(p) && !(p.closed && p.out == [])
    ensures Enabled(p, s)
  {
    if p.out != [] {
      s := Receive;
    } else if !Ready(p) {
      var i :| 0 <= i < |p.lanes| && !p.lanes[i].made;
      s := Allocate(i);
    } else if !AllDone(p) {
      var i :| 0 <= i < |p.lanes| && !p.lanes[i].done;
      s := LaneMoves(p, i);
    } else {
      s := CloseOut;
    }
  }

  lemma {:induction false} NoWork<T>(lanes: seq<Lane<T>>)
    requires forall i :: 0 <= i < |lanes| ==> lanes[i].done && LaneInv(lanes[i])
    ensures Sum(lanes, Work) == 0
  {
    if lanes != [] {
      assert lanes[0].done && LaneInv(lanes[0]);
      NoWork(lanes[1..]);
    }
  }

  /** The remaining work is zero exactly in the final state. */
  lemma FinalIffNoWork<T>(p: Pump<T>)
    requires Inv(p) && Roomy(p)
    ensures p.closed && p.out == [] <==> Remaining(p) == 0
    ensures !(p.closed && p.out == []) ==> exists s :: Enabled(p, s)
  {
    if p.closed && p.out == [] {
      NoWork(p.lanes);
    } else {
      var s := SomeStep(p);
      assert Enabled(p, s);
      StepWorks(p, s);
    }
  }

  lemma {:induction false} RunWorks<T>(shards: seq<multiset<T>>, steps: seq<Step<T>>)
    requires After(Start(shards), steps).Some?
    ensures var p := After(Start(shards), steps).value;
            Inv(p) && Roomy(p) && |steps| + Remaining(p) == Remaining(Start(shards))
    decreases |steps|
  {
    if steps != [] {
      var n := |steps| - 1;
      RunWorks(shards, steps[..n]);
      var p := After(Start(shards), steps[..n]).value;
      StepWorks(p, steps[n]);
      if steps[n] != CloseOut && steps[n] != Receive {
        LaneStepInv(p, steps[n]);
      }
    }
  }

  function Pairs<T>(shards: seq<multiset<T>>): nat {
    if shards == [] then 0 else |shards[0]| + Pairs(shards[1..])
  }

  /**
  Each shard's channel is made, closed and found empty, each pair is produced, taken, sent and
  received, and the output is closed.
   */
  function StepsFor<T>(shards: seq<multiset<T>>): nat {
    3 * |shards| + 4 * Pairs(shards) + 1
  }

  lemma {:induction false} LanesWork<T>(shards: seq<multiset<T>>)
    ensures Sum(StartLanes(shards), Work) == 3 * |shards| + 4 * Pairs(shards)
  {
    if shards != [] {
      LanesWork(shards[1..]);
      assert StartLanes(shards)[1..] == StartLanes(shards[1..]);
    }
  }

  lemma StartWork<T>(shards: seq<multiset<T>>)
    ensures Remaining(Start(shards)) == StepsFor(shards)
  {
    LanesWork(shards);
  }

  /**
  No run goes on for ever and none gets stuck: a run can be continued exactly until the output is
  closed and drained, which happens after a number of steps fixed by the shards.
   */
  lemma RunsFinish<T>(shards: seq<multiset<T>>, steps: seq<Step<T>>)
    requires After(Start(shards), steps).Some?
    ensures |steps| <= StepsFor(shards)
    ensures var p := After(Start(shards), steps).value;
            && (p.closed && p.out == [] <==> |steps| == StepsFor(shards))
            && (!(p.closed && p.out == []) ==> exists s :: Enabled(p, s))
  {
    StartWork(shards);
    RunWorks(shards, steps);
    FinalIffNoWork(After(Start(shards), steps).value);
  }

  /** Nothing is ever sent on a closed channel, be it a shard's or the output. */
  lemma NoSendOnClosed<T>(shards: seq<multiset<T>>, steps: seq<Step<T>>, s: Step<T>)
    requires After(Start(shards), steps).Some? && Enabled(After(Start(shards), steps).value, s)
    ensures var p := After(Start(shards), steps).value;
            (s.Send? ==> !p.closed) && (s.Produce? ==> !p.lanes[s.i].closed)
  {
    RunWorks(shards, steps);
    var p := After(Start(shards), steps).value;
    if s.Send? || s.Produce? {
      assert LaneInv(p.lanes[s.i]);
    }
  }

  /** Nothing has been sent to a channel that does not exist, and nothing copied while one is missing. */
  ghost predicate Waits<T>(p: Pump<T>) {
    && (forall i :: 0 <= i < |p.lanes| && !p.lanes[i].made ==> p.lanes[i].chan == [] && !p.lanes[i].closed)
    && (!Ready(p) ==>
          && p.out == [] && p.got == [] && !p.closed
          && forall i :: 0 <= i < |p.lanes| ==> p.lanes[i].hand.None? && !p.lanes[i].done)
  }

  lemma WaitsStep<T>(p: Pump<T>, s: Step<T>)
    requires Waits(p) && Enabled(p, s)
    ensures Waits(Exec(p, s))
  {
    var q := Exec(p, s);
    if !s.CloseOut? && !s.Receive? {
      assert forall j :: 0 <= j < |p.lanes| && j != s.i ==> q.lanes[j] == p.lanes[j];
      if !Ready(q) {
        assert !Ready(p);
      }
    }
  }

  /** In every interleaving, the copiers wait until `snapshot` has made every channel. */
  lemma {:induction false} CopiersWait<T>(shards: seq<multiset<T>>, steps: seq<Step<T>>)
    requires After(Start(shards), steps).Some?
    ensures Waits(After(Start(shards), steps).value)
    decreases |steps|
  {
    if steps != [] {
      CopiersWait(shards, steps[..|steps| - 1]);
      WaitsStep(After(Start(shards), steps[..|steps| - 1]).value, steps[|steps| - 1]);
    }
  }
}
