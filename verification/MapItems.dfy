/** `Items`: what a reader of the fan-in output collects is the flat map. */
module MapItems {
  import opened Wrappers
  import opened ConcurrentMap
  import FanIn

  /** The pairs each producer sends. */
  function ShardPairs<V(==)>(parts: seq<map<Key, V>>): seq<multiset<(Key, V)>> {
    seq(|parts|, i requires 0 <= i < |parts| => multiset(parts[i].Items))
  }

  /** The loop of `Items`, which writes each received pair into a map. */
  method CollectItems<V(==)>(got: seq<(Key, V)>) returns (tmp: map<Key, V>)
    ensures tmp == Collect(got)
  {
    tmp := map[];
    for i := 0 to |got|
      invariant tmp == Collect(got[..i])
    {
      assert got[..i + 1][..i] == got[..i];
      tmp := tmp[got[i].0 := got[i].1];
    }
    assert got[..|got|] == got;
  }

  function Collect<V(==)>(got: seq<(Key, V)>): map<Key, V> {
    if got == [] then map[]
    else Collect(got[..|got| - 1])[got[|got| - 1].0 := got[|got| - 1].1]
  }

  lemma {:induction false} CollectAgrees<V>(got: seq<(Key, V)>, contents: map<Key, V>)
    requires forall i :: 0 <= i < |got| ==> Lookup(contents, got[i].0) == Some(got[i].1)
    ensures forall k :: k in Collect(got) ==> k in contents && Collect(got)[k] == contents[k]
    ensures forall i :: 0 <= i < |got| ==> got[i].0 in Collect(got)
  {
    if got != [] {
      CollectAgrees(got[..|got| - 1], contents);
      assert Lookup(contents, got[|got| - 1].0) == Some(got[|got| - 1].1);
    }
  }

  /** The shards hold each pair of the flat map once, and nothing else. */
  lemma {:induction false} SupplyFrom<V>(contents: map<Key, V>, parts: seq<map<Key, V>>, i: nat, k: Key, v: V)
    requires i <= |parts| && forall j :: 0 <= j < |parts| ==> Part(contents, j, parts[j])
    ensures FanIn.Supply(ShardPairs(parts)[i..], (k, v))
         == if i <= Index(k) < |parts| && Lookup(contents, k) == Some(v) then 1 else 0
    decreases |parts| - i
  {
    var pairs := ShardPairs(parts);
    if i < |parts| {
      SupplyFrom(contents, parts, i + 1, k, v);
      assert pairs[i..][0] == pairs[i] && pairs[i..][1..] == pairs[i + 1..];
      assert Part(contents, i, parts[i]);
      assert Lookup(parts[i], k) == if Index(k) == i then Lookup(contents, k) else None;
      assert (k, v) in parts[i].Items <==> Lookup(parts[i], k) == Some(v);
      assert pairs[i][(k, v)] == if (k, v) in parts[i].Items then 1 else 0;
    }
  }

  /** With no writer, every interleaving of the goroutines lets `Items` return the flat map. */
  lemma ItemsIsContents<V>(contents: map<Key, V>, parts: seq<map<Key, V>>, steps: seq<FanIn.Step<(Key, V)>>)
    requires |parts| == SHARD_COUNT && forall i :: 0 <= i < SHARD_COUNT ==> Part(contents, i, parts[i])
    requires FanIn.After(FanIn.Start(ShardPairs(parts)), steps).Some?
    requires var p := FanIn.After(FanIn.Start(ShardPairs(parts)), steps).value; p.closed && p.out == []
    ensures var p := FanIn.After(FanIn.Start(ShardPairs(parts)), steps).value;
            && Collect(p.got) == contents
            && forall x :: multiset(p.got)[x] == if Lookup(contents, x.0) == Some(x.1) then 1 else 0
  {
    var got := FanIn.After(FanIn.Start(ShardPairs(parts)), steps).value.got;
    forall x: (Key, V) ensures FanIn.Times(got, x) == if Lookup(contents, x.0) == Some(x.1) then 1 else 0 {
      FanIn.DeliversAll(ShardPairs(parts), steps, x);
      SupplyFrom(contents, parts, 0, x.0, x.1);
      assert ShardPairs(parts)[0..] == ShardPairs(parts);
    }
    DeliveredIsContents(contents, got);
  }

  lemma DeliveredIsContents<V>(contents: map<Key, V>, got: seq<(Key, V)>)
    requires forall x :: FanIn.Times(got, x) == if Lookup(contents, x.0) == Some(x.1) then 1 else 0
    ensures Collect(got) == contents
  {
    forall i | 0 <= i < |got| ensures Lookup(contents, got[i].0) == Some(got[i].1) {
      assert got[i] in multiset(got) && FanIn.Times(got, got[i]) > 0;
    }
    CollectAgrees(got, contents);
    forall k | k in contents ensures k in Collect(got) {
      var x := (k, contents[k]);
      assert FanIn.Times(got, x) == 1 && x in multiset(got);
      var i :| 0 <= i < |got| && got[i] == x;
    }
  }
}
