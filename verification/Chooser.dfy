/**
The weighted choice of one healthy instance: running totals of the truncated weights and a binary
search for the drawn number.  The random draw and the sort are parameters.
 */
module Chooser {
  import opened NamingModel

  /** Go's conversion `int(w)` of a float64 truncates toward zero. */
  function Units(w: real): int {
    if w >= 0.0 then w.Floor else -(-w).Floor
  }

  function Total(data: seq<Instance>): int {
    if data == [] then 0 else Total(data[..|data| - 1]) + Units(data[|data| - 1].weight)
  }

  ghost predicate Weighted(data: seq<Instance>) {
    forall i :: 0 <= i < |data| ==> data[i].weight > 0.0
  }

  datatype Chooser = Chooser(data: seq<Instance>, totals: seq<int>, max: int)

  ghost predicate IsChooser(chs: Chooser) {
    && |chs.totals| == |chs.data|
    && (forall i :: 0 <= i < |chs.data| ==> chs.totals[i] == Total(chs.data[..i + 1]))
    && chs.max == Total(chs.data)
  }

  method NewChooser(instances: seq<Instance>, sort: seq<Instance> -> seq<Instance>) returns (chs: Chooser)
    ensures chs.data == sort(instances) && IsChooser(chs)
  {
    var data := sort(instances);
    var totals: seq<int> := [];
    var runningTotal := 0;
    for i := 0 to |data|
      invariant |totals| == i && runningTotal == Total(data[..i])
      invariant forall k :: 0 <= k < i ==> totals[k] == Total(data[..k + 1])
    {
      assert data[..i + 1][..i] == data[..i];
      runningTotal := runningTotal + Units(data[i].weight);
      totals := totals + [runningTotal];
    }
    assert data[..|data|] == data;
    chs := Chooser(data, totals, runningTotal);
  }

  ghost predicate NonDecreasing(a: seq<int>) {
    forall i, j :: 0 <= i <= j < |a| ==> a[i] <= a[j]
  }

  /** Go's `sort.SearchInts`: on a non-decreasing slice, the first position that holds at least `x`. */
  method SearchInts(a: seq<int>, x: int) returns (i: nat)
    ensures i <= |a|
    ensures NonDecreasing(a) ==> (forall k :: 0 <= k < i ==> a[k] < x) && (forall k :: i <= k < |a| ==> a[k] >= x)
  {
    i := 0;
    var j := |a|;
    while i < j
      invariant i <= j <= |a|
      invariant NonDecreasing(a) ==> (forall k :: 0 <= k < i ==> a[k] < x) && (forall k :: j <= k < |a| ==> a[k] >= x)
    {
      var h := (i + j) / 2;
      if a[h] < x {
        i := h + 1;
      } else {
        j := h;
      }
    }
  }

  /** The instance whose stretch of the running totals holds `r`. */
  function Holding(data: seq<Instance>, r: int): Instance
    requires Weighted(data) && 1 <= r <= Total(data)
  {
    var n := |data| - 1;
    if r <= Total(data[..n]) then Holding(data[..n], r) else data[n]
  }

  lemma {:induction false} TotalsGrow(data: seq<Instance>, i: nat, j: nat)
    requires Weighted(data) && i <= j <= |data|
    ensures 0 <= Total(data[..i]) <= Total(data[..j])
  {
    if i < j {
      TotalsGrow(data, i, j - 1);
      assert data[..j][..j - 1] == data[..j - 1];
    } else if j > 0 {
      TotalsGrow(data, j - 1, j - 1);
      assert data[..j][..j - 1] == data[..j - 1];
    }
  }

  lemma {:induction false} HoldingAt(data: seq<Instance>, r: int, i: nat)
    requires Weighted(data) && 1 <= r <= Total(data) && i < |data|
    requires Total(data[..i]) < r <= Total(data[..i + 1])
    ensures Holding(data, r) == data[i]
  {
    var n := |data| - 1;
    var front := data[..n];
    assert data[..|data|] == data;
    if i < n {
      assert front[..i] == data[..i] && front[..i + 1] == data[..i + 1];
      TotalsGrow(data, i + 1, n);
      HoldingAt(front, r, i);
    }
  }

  /** The search stays in bounds and lands on the holder of the drawn number. */
  method Pick(chs: Chooser, intn: nat) returns (picked: Instance)
    requires IsChooser(chs) && Weighted(chs.data) && intn < chs.max
    ensures picked == Holding(chs.data, intn + 1)
  {
    var r := intn + 1;
    var i := SearchInts(chs.totals, r);
    TotalsAscend(chs);
    assert chs.data[..|chs.data|] == chs.data;
    assert i < |chs.totals|;
    assert chs.totals[i] == Total(chs.data[..i + 1]);
    if i > 0 {
      assert chs.totals[i - 1] < r && chs.totals[i - 1] == Total(chs.data[..i]);
    }
    HoldingAt(chs.data, r, i);
    picked := chs.data[i];
  }

  lemma TotalsAscend(chs: Chooser)
    requires IsChooser(chs) && Weighted(chs.data)
    ensures NonDecreasing(chs.totals)
    ensures chs.max > 0 ==> |chs.totals| > 0 && chs.totals[|chs.totals| - 1] == chs.max
  {
    forall i, j | 0 <= i <= j < |chs.totals|
      ensures chs.totals[i] <= chs.totals[j]
    {
      TotalsGrow(chs.data, i + 1, j + 1);
    }
    assert chs.data[..|chs.data|] == chs.data;
  }

  // Proportional choice

  /** The draws that select `x`. */
  ghost function DrawsFor(data: seq<Instance>, x: Instance): set<int>
    requires Weighted(data)
  {
    set r | 1 <= r <= Total(data) && Holding(data, r) == x
  }

  ghost function Stretch(a: int, b: int): (s: set<int>)
    ensures forall r :: r in s <==> a < r <= b
    ensures a <= b ==> |s| == b - a
    decreases b - a
  {
    if a >= b then {} else Stretch(a, b - 1) + {b}
  }

  lemma DrawsSplit(data: seq<Instance>, x: Instance)
    requires Weighted(data) && data != []
    ensures var n := |data| - 1;
            DrawsFor(data, x) == DrawsFor(data[..n], x) +
              (if data[n] == x then Stretch(Total(data[..n]), Total(data)) else {})
  {
    var n := |data| - 1;
    TotalsGrow(data, n, |data|);
    assert data[..|data|] == data;
    forall r | 1 <= r <= Total(data[..n])
      ensures Holding(data, r) == Holding(data[..n], r)
    {
    }
    forall r | Total(data[..n]) < r <= Total(data)
      ensures Holding(data, r) == data[n]
    {
    }
  }

  lemma DrawsCount(data: seq<Instance>, x: Instance)
    requires Weighted(data) && data != []
    ensures |DrawsFor(data, x)|
         == |DrawsFor(data[..|data| - 1], x)| + if data[|data| - 1] == x then Units(x.weight) else 0
  {
    var n := |data| - 1;
    DrawsSplit(data, x);
    TotalsGrow(data, n, |data|);
    assert data[..|data|] == data;
    var a, b := DrawsFor(data[..n], x), Stretch(Total(data[..n]), Total(data));
    assert a !! b;
    assert |a + b| == |a| + |b|;
  }

  /** Of the draws 1..max, exactly its truncated weight select each instance, once per occurrence. */
  lemma {:induction false} Proportional(data: seq<Instance>, x: Instance)
    requires Weighted(data)
    ensures |DrawsFor(data, x)| == Units(x.weight) * multiset(data)[x]
  {
    if data == [] {
      assert DrawsFor(data, x) == {};
    } else {
      var n := |data| - 1;
      Proportional(data[..n], x);
      DrawsCount(data, x);
      assert multiset(data)[x] == multiset(data[..n])[x] + if data[n] == x then 1 else 0 by {
        assert data == data[..n] + [data[n]];
      }
      OneMore(Units(x.weight), multiset(data[..n])[x]);
    }
  }

  lemma OneMore(u: int, m: nat)
    ensures u * (m + 1) == u * m + u
  {
  }

  // Selection among the hosts of a service

  predicate Eligible(host: Instance) {
    host.healthy && host.enable && host.weight > 0.0
  }

  function EligibleOf(hosts: seq<Instance>): (r: seq<Instance>)
    ensures forall i :: 0 <= i < |r| ==> Eligible(r[i]) && r[i] in hosts
    ensures forall x :: x in hosts && Eligible(x) ==> x in r
  {
    if hosts == [] then []
    else
      var n := |hosts| - 1;
      assert hosts == hosts[..n] + [hosts[n]];
      if Eligible(hosts[n]) then EligibleOf(hosts[..n]) + [hosts[n]] else EligibleOf(hosts[..n])
  }

  lemma {:induction false} EligibleCount(hosts: seq<Instance>, x: Instance)
    ensures multiset(EligibleOf(hosts))[x] == if Eligible(x) then multiset(hosts)[x] else 0
  {
    if hosts != [] {
      var n := |hosts| - 1;
      EligibleCount(hosts[..n], x);
      assert hosts == hosts[..n] + [hosts[n]];
    }
  }

  lemma PermutedEligible(hosts: seq<Instance>, sort: seq<Instance> -> seq<Instance>)
    requires Permutes(sort)
    ensures Weighted(sort(EligibleOf(hosts)))
    ensures forall x :: x in sort(EligibleOf(hosts)) <==> x in EligibleOf(hosts)
  {
    var e := EligibleOf(hosts);
    var data := sort(e);
    assert forall x :: x in data <==> x in multiset(data);
    assert forall x :: x in e <==> x in multiset(e);
    forall i | 0 <= i < |data|
      ensures data[i].weight > 0.0
    {
      assert data[i] in e;
    }
  }

  /** The total is positive exactly when some weight reaches one. */
  lemma {:induction false} PositiveTotal(data: seq<Instance>)
    requires Weighted(data)
    ensures Total(data) >= 0
    ensures Total(data) > 0 <==> exists x :: x in data && x.weight >= 1.0
  {
    if data != [] {
      var n := |data| - 1;
      PositiveTotal(data[..n]);
      assert data == data[..n] + [data[n]];
      assert data[n] in data;
      assert Units(data[n].weight) > 0 <==> data[n].weight >= 1.0;
      if exists x :: x in data && x.weight >= 1.0 {
        var x :| x in data && x.weight >= 1.0;
        assert x in data[..n] || x == data[n];
      }
      if exists x :: x in data[..n] && x.weight >= 1.0 {
        var x :| x in data[..n] && x.weight >= 1.0;
        assert x in data;
      }
    }
  }

  lemma {:induction false} HoldingMember(data: seq<Instance>, r: int)
    requires Weighted(data) && 1 <= r <= Total(data)
    ensures Holding(data, r) in data
  {
    var n := |data| - 1;
    assert data == data[..n] + [data[n]];
    if r <= Total(data[..n]) {
      HoldingMember(data[..n], r);
    }
  }

  /** `Panics` is the panic of `rand.Intn` on a bound that is not positive. */
  datatype Outcome = EmptyList | NoneHealthy | Panics | Chosen(instance: Instance)

  method FilterEligible(hosts: seq<Instance>) returns (result: seq<Instance>)
    ensures result == EligibleOf(hosts)
  {
    result := [];
    for i := 0 to |hosts|
      invariant result == EligibleOf(hosts[..i])
    {
      assert hosts[..i + 1][..i] == hosts[..i];
      if hosts[i].healthy && hosts[i].enable && hosts[i].weight > 0.0 {
        result := result + [hosts[i]];
      }
    }
    assert hosts[..|hosts|] == hosts;
  }

  ghost predicate AnyEligible(hosts: seq<Instance>) {
    exists x :: x in hosts && Eligible(x)
  }

  /** Some eligible host weighs at least one. */
  ghost predicate Choosable(hosts: seq<Instance>) {
    exists x :: x in hosts && Eligible(x) && x.weight >= 1.0
  }

  lemma EligibleFacts(hosts: seq<Instance>, sort: seq<Instance> -> seq<Instance>)
    requires Permutes(sort)
    ensures EligibleOf(hosts) != [] <==> AnyEligible(hosts)
    ensures Weighted(sort(EligibleOf(hosts)))
    ensures Total(sort(EligibleOf(hosts))) > 0 <==> Choosable(hosts)
  {
    var e := EligibleOf(hosts);
    if e != [] {
      assert e[0] in hosts && Eligible(e[0]);
    }
    PermutedEligible(hosts, sort);
    PositiveTotal(sort(e));
    if Choosable(hosts) {
      var x :| x in hosts && Eligible(x) && x.weight >= 1.0;
      assert x in sort(e);
    }
    if Total(sort(e)) > 0 {
      var x :| x in sort(e) && x.weight >= 1.0;
      assert x in e;
    }
  }

  lemma HoldingEligible(hosts: seq<Instance>, sort: seq<Instance> -> seq<Instance>, r: int)
    requires Permutes(sort) && Weighted(sort(EligibleOf(hosts))) && 1 <= r <= Total(sort(EligibleOf(hosts)))
    ensures var x := Holding(sort(EligibleOf(hosts)), r); x in hosts && Eligible(x)
  {
    PermutedEligible(hosts, sort);
    HoldingMember(sort(EligibleOf(hosts)), r);
  }

  method SelectOneHealthyInstances(service: Service, sort: seq<Instance> -> seq<Instance>, intn: int -> nat)
    returns (o: Outcome)
    requires Permutes(sort) && forall n :: n > 0 ==> intn(n) < n
    ensures o.EmptyList? <==> Hosts(service) == []
    ensures o.NoneHealthy? <==> Hosts(service) != [] && !AnyEligible(Hosts(service))
    ensures o.Panics? <==> AnyEligible(Hosts(service)) && !Choosable(Hosts(service))
    ensures o.Chosen? ==> o.instance in Hosts(service) && Eligible(o.instance)
    ensures o.Chosen? ==>
      var data := sort(EligibleOf(Hosts(service)));
      Weighted(data) && Total(data) > 0 && o.instance == Holding(data, intn(Total(data)) + 1)
  {
    var hosts := Hosts(service);
    EligibleFacts(hosts, sort);
    if service.hosts.None? || |hosts| == 0 {
      return EmptyList;
    }
    var result := FilterEligible(hosts);
    if |result| == 0 {
      return NoneHealthy;
    }
    var chs := NewChooser(result, sort);
    if chs.max <= 0 {
      return Panics;
    }
    var picked := Pick(chs, intn(chs.max));
    HoldingEligible(hosts, sort, intn(chs.max) + 1);
    o := Chosen(picked);
  }

  /**
  Proportional choice: each eligible host is selected by exactly its truncated weight of the draws
  for each time it is listed, and no other host by any.
   */
  lemma ProportionalChoice(hosts: seq<Instance>, sort: seq<Instance> -> seq<Instance>, x: Instance)
    requires Permutes(sort)
    ensures Weighted(sort(EligibleOf(hosts)))
    ensures |DrawsFor(sort(EligibleOf(hosts)), x)|
         == if x.healthy && x.enable && x.weight > 0.0 then x.weight.Floor * multiset(hosts)[x] else 0
  {
    EligibleDraws(hosts, sort, x);
    assert Eligible(x) ==> Units(x.weight) == x.weight.Floor;
  }

  lemma EligibleDraws(hosts: seq<Instance>, sort: seq<Instance> -> seq<Instance>, x: Instance)
    requires Permutes(sort)
    ensures Weighted(sort(EligibleOf(hosts)))
    ensures |DrawsFor(sort(EligibleOf(hosts)), x)| == if Eligible(x) then Units(x.weight) * multiset(hosts)[x] else 0
  {
    PermutedEligible(hosts, sort);
    Proportional(sort(EligibleOf(hosts)), x);
    EligibleCount(hosts, x);
    assert multiset(sort(EligibleOf(hosts))) == multiset(EligibleOf(hosts));
  }
}
