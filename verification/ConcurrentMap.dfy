/**
The sharded map: thirty-two shards, each key in the shard its FNV hash selects.  Every operation
is proved to do to `contents`, a flat map, what its name says.  Locks serialise the operations
on a shard, so each operation is one step.
 */
module ConcurrentMap {
  import opened Wrappers

  type Key = seq<bv8>

  const SHARD_COUNT: nat := 32
  const FNV_OFFSET: bv32 := 2166136261
  const FNV_PRIME: bv32 := 16777619

  function Mix(hash: bv32, b: bv8): bv32 {
    (hash * FNV_PRIME) ^ (b as bv32)
  }

  function Fnv32(key: Key): bv32 {
    if key == [] then FNV_OFFSET else Mix(Fnv32(key[..|key| - 1]), key[|key| - 1])
  }

  /** The published values of the 32-bit FNV-1 hash for the empty text, "a" and "foobar". */
  lemma Fnv1Vectors()
    ensures Fnv32([]) == 0x811c9dc5
    ensures Fnv32([0x61]) == 0x050c5d7e
    ensures Fnv32([0x66, 0x6f, 0x6f, 0x62, 0x61, 0x72]) == 0x31f0b262
  {
    FnvNext([], 0x61, [0x61]);
    FnvNext([], 0x66, [0x66]);
    FnvNext([0x66], 0x6f, [0x66, 0x6f]);
    FnvNext([0x66, 0x6f], 0x6f, [0x66, 0x6f, 0x6f]);
    FnvNext([0x66, 0x6f, 0x6f], 0x62, [0x66, 0x6f, 0x6f, 0x62]);
    FnvNext([0x66, 0x6f, 0x6f, 0x62], 0x61, [0x66, 0x6f, 0x6f, 0x62, 0x61]);
    FnvNext([0x66, 0x6f, 0x6f, 0x62, 0x61], 0x72, [0x66, 0x6f, 0x6f, 0x62, 0x61, 0x72]);
  }

  lemma FnvNext(key: Key, b: bv8, longer: Key)
    requires longer == key + [b]
    ensures Fnv32(longer) == Mix(Fnv32(key), b)
  {
    assert longer[..|key|] == key;
  }

  method HashKey(key: Key) returns (hash: bv32)
    ensures hash == Fnv32(key)
  {
    hash := FNV_OFFSET;
    for n := 0 to |key|
      invariant hash == Fnv32(key[..n])
    {
      assert key[..n + 1][..n] == key[..n];
      hash := Mix(hash, key[n]);
    }
    assert key[..|key|] == key;
  }

  function Index(key: Key): (i: nat)
    ensures i < SHARD_COUNT
  {
    Fnv32(key) as int % SHARD_COUNT
  }

  method ShardIndex(key: Key) returns (i: nat)
    ensures i == Index(key)
  {
    var hash := HashKey(key);
    i := hash as int % SHARD_COUNT;
  }

  class Shard<V> {
    var items: map<Key, V>

    constructor ()
      ensures items == map[]
    {
      items := map[];
    }
  }

  class Map<V(==)> {
    const shards: seq<Shard<V>>
    ghost var contents: map<Key, V>

    ghost predicate Valid()
      reads this, shards
    {
      && |shards| == SHARD_COUNT
      && (forall i, j :: 0 <= i < j < SHARD_COUNT ==> shards[i] != shards[j])
      && (forall i :: 0 <= i < SHARD_COUNT ==> Part(contents, i, shards[i].items))
    }

    constructor ()
      ensures Valid() && contents == map[] && fresh(shards)
    {
      var m: seq<Shard<V>> := [];
      for i := 0 to SHARD_COUNT
        invariant |m| == i && forall j :: 0 <= j < i ==> fresh(m[j]) && m[j].items == map[]
        invariant forall j, k :: 0 <= j < k < i ==> m[j] != m[k]
      {
        var s := new Shard<V>();
        m := m + [s];
      }
      shards := m;
      contents := map[];
    }

    method Set(key: Key, value: V)
      requires Valid()
      modifies this, shards
      ensures Valid() && contents == old(contents)[key := value]
    {
      var i := ShardIndex(key);
      shards[i].items := shards[i].items[key := value];
      contents := contents[key := value];
    }

    method MSet(data: map<Key, V>)
      requires Valid()
      modifies this, shards
      ensures Valid() && contents == old(contents) + data
    {
      var todo := data.Keys;
      while todo != {}
        invariant Valid() && todo <= data.Keys
        invariant contents == old(contents) + (data - todo)
        decreases todo
      {
        var key :| key in todo;
        Set(key, data[key]);
        todo := todo - {key};
      }
      assert data - {} == data;
    }

    method Upsert(key: Key, value: V, cb: (Option<V>, V) -> V) returns (res: V)
      requires Valid()
      modifies this, shards
      ensures res == cb(Lookup(old(contents), key), value)
      ensures Valid() && contents == old(contents)[key := res]
    {
      var i := ShardIndex(key);
      res := cb(Lookup(shards[i].items, key), value);
      shards[i].items := shards[i].items[key := res];
      contents := contents[key := res];
    }

    method SetIfAbsent(key: Key, value: V) returns (added: bool)
      requires Valid()
      modifies this, shards
      ensures Valid() && added == (key !in old(contents))
      ensures contents == if added then old(contents)[key := value] else old(contents)
    {
      var i := ShardIndex(key);
      added := key !in shards[i].items;
      if added {
        shards[i].items := shards[i].items[key := value];
        contents := contents[key := value];
      }
    }

    method Get(key: Key) returns (r: Option<V>)
      requires Valid()
      ensures r == Lookup(contents, key)
    {
      var i := ShardIndex(key);
      r := Lookup(shards[i].items, key);
    }

    method Has(key: Key) returns (ok: bool)
      requires Valid()
      ensures ok == (key in contents)
    {
      var i := ShardIndex(key);
      ok := key in shards[i].items;
      assert Lookup(shards[i].items, key) == Lookup(contents, key);
    }

    method Pop(key: Key) returns (r: Option<V>)
      requires Valid()
      modifies this, shards
      ensures r == Lookup(old(contents), key)
      ensures Valid() && contents == old(contents) - {key}
    {
      var i := ShardIndex(key);
      r := Lookup(shards[i].items, key);
      shards[i].items := shards[i].items - {key};
      contents := contents - {key};
    }

    method Remove(key: Key)
      requires Valid()
      modifies this, shards
      ensures Valid() && contents == old(contents) - {key}
    {
      var _ := Pop(key);
    }

    method Count() returns (count: nat)
      requires Valid()
      ensures count == |contents|
    {
      count := 0;
      NoneBelow(contents);
      for i := 0 to SHARD_COUNT
        invariant count == |KeysBelow(contents, i)|
      {
        NextBelow(contents, i, shards[i].items);
        count := count + |shards[i].items|;
      }
      AllBelow(contents);
    }

    method IsEmpty() returns (empty: bool)
      requires Valid()
      ensures empty <==> contents == map[]
    {
      var n := Count();
      empty := n == 0;
    }
  }

  function Lookup<V>(m: map<Key, V>, key: Key): Option<V> {
    if key in m then Some(m[key]) else None
  }

  /** `items` is exactly the part of the flat map whose keys hash to shard `i`. */
  ghost predicate Part<V>(contents: map<Key, V>, i: nat, items: map<Key, V>) {
    forall k :: Lookup(items, k) == if Index(k) == i then Lookup(contents, k) else None
  }

  ghost function KeysBelow<V>(contents: map<Key, V>, i: nat): set<Key> {
    set k | k in contents && Index(k) < i
  }

  lemma NoneBelow<V>(contents: map<Key, V>)
    ensures KeysBelow(contents, 0) == {}
  {
  }

  lemma AllBelow<V>(contents: map<Key, V>)
    ensures KeysBelow(contents, SHARD_COUNT) == contents.Keys && |contents| == |contents.Keys|
  {
  }

  lemma NextBelow<V>(contents: map<Key, V>, i: nat, items: map<Key, V>)
    requires Part(contents, i, items)
    ensures KeysBelow(contents, i + 1) == KeysBelow(contents, i) + items.Keys
    ensures |KeysBelow(contents, i + 1)| == |KeysBelow(contents, i)| + |items|
  {
    forall k ensures k in items.Keys <==> k in contents && Index(k) == i {
      assert Lookup(items, k) == if Index(k) == i then Lookup(contents, k) else None;
    }
    assert |items| == |items.Keys|;
  }
}
