/** The composite keys of the naming client (util/common.go) and the split that takes them apart again. */
module ServiceKeys {

  const SERVICE_INFO_SPLITER := "@@"

  datatype Target = Target(service: string, group: string, clusters: string)

  function GetGroupName(serviceName: string, groupName: string): string {
    groupName + SERVICE_INFO_SPLITER + serviceName
  }

  function GetServiceCacheKey(serviceName: string, clusters: string): string {
    if clusters == "" then serviceName else serviceName + SERVICE_INFO_SPLITER + clusters
  }

  /** The key under which a subscription to `t` is cached. */
  function SubscribeKey(t: Target): string {
    GetServiceCacheKey(GetGroupName(t.service, t.group), t.clusters)
  }

  /** The separator stands at position `i` of `s`. */
  predicate CutAt(s: string, i: int) {
    0 <= i && i + 1 < |s| && s[i] == '@' && s[i + 1] == '@'
  }

  /** The separator stands nowhere in `s`. */
  predicate Clean(s: string) {
    forall i | 0 <= i < |s| :: !CutAt(s, i)
  }

  /** Position of the leftmost separator at or after `i`, or -1. */
  function IndexFrom(s: string, i: nat): (m: int)
    requires i <= |s|
    ensures m == -1 ==> forall k :: i <= k ==> !CutAt(s, k)
    ensures m != -1 ==> i <= m && CutAt(s, m) && forall k :: i <= k < m ==> !CutAt(s, k)
    decreases |s| - i
  {
    if i == |s| then -1 else if CutAt(s, i) then i else IndexFrom(s, i + 1)
  }

  /** Go's `strings.Split(s, "@@")`: separators are taken from the left and do not overlap. */
  function Split(s: string): (parts: seq<string>)
    ensures |parts| >= 1
    ensures |parts| == 1 <==> Clean(s)
    decreases |s|
  {
    var m := IndexFrom(s, 0);
    if m == -1 then [s] else [s[..m]] + Split(s[m + 2..])
  }

  /** The first part comes back exactly when neither it nor its border with the separator holds one. */
  lemma SplitFirst(a: string, b: string)
    ensures Clean(a + "@") ==> Split(a + SERVICE_INFO_SPLITER + b) == [a] + Split(b)
    ensures Split(a + SERVICE_INFO_SPLITER + b)[0] == a ==> Clean(a + "@")
  {
    var s := a + SERVICE_INFO_SPLITER + b;
    assert CutAt(s, |a|);
    assert forall i :: 0 <= i < |a| ==> CutAt(s, i) == CutAt(a + "@", i);
    var m := IndexFrom(s, 0);
    assert 0 <= m <= |a|;
    if m == |a| {
      assert s[..m] == a && s[m + 2..] == b;
    } else {
      assert CutAt(a + "@", m);
    }
  }

  lemma SplitOnly(a: string)
    ensures Split(a)[0] == a <==> Clean(a)
  {
  }

  /** What the redo loops read off a cached key; a key without a separator would be an index out of range. */
  function Read(key: string): (t: Target)
    requires !Clean(key)
  {
    var info := Split(key);
    Target(info[1], info[0], if |info| > 2 then info[2] else "")
  }

  lemma KeySplits(t: Target)
    ensures !Clean(SubscribeKey(t))
  {
    var k := SubscribeKey(t);
    assert CutAt(k, |t.group|);
  }

  /** The guard a caller can check: which triples survive the trip through the key. */
  predicate Separable(t: Target) {
    && Clean(t.group + "@")
    && (if t.clusters == "" then Clean(t.service) else Clean(t.service + "@") && Clean(t.clusters))
  }

  predicate AtFree(s: string) {
    '@' !in s
  }

  lemma AtFreeIsSeparable(t: Target)
    requires AtFree(t.service) && AtFree(t.group) && AtFree(t.clusters)
    ensures Separable(t)
  {
  }

  /** A cached key gives back its three parts if and only if they are separable. */
  lemma ReadBack(t: Target)
    ensures !Clean(SubscribeKey(t))
    ensures Read(SubscribeKey(t)) == t <==> Separable(t)
  {
    KeySplits(t);
    if t.clusters == "" {
      SplitFirst(t.group, t.service);
      SplitOnly(t.service);
    } else {
      var rest := t.service + SERVICE_INFO_SPLITER + t.clusters;
      assert SubscribeKey(t) == t.group + SERVICE_INFO_SPLITER + rest;
      SplitFirst(t.group, rest);
      SplitFirst(t.service, t.clusters);
      SplitOnly(t.clusters);
    }
  }

  lemma FirstPartClean(s: string)
    ensures Clean(Split(s)[0]) && (Clean(s) || Clean(Split(s)[0] + "@"))
  {
    if !Clean(s) {
      var m := IndexFrom(s, 0);
      var first := s[..m];
      assert Split(s)[0] == first;
      assert forall i :: CutAt(first + "@", i) ==> CutAt(s, i);
      assert forall i :: CutAt(first, i) ==> CutAt(s, i);
    }
  }

  /** Whatever is read off a key is separable. */
  lemma ReadIsSeparable(key: string)
    requires !Clean(key)
    ensures Separable(Read(key))
  {
    FirstPartClean(key);
    var rest := key[IndexFrom(key, 0) + 2..];
    FirstPartClean(rest);
    if !Clean(rest) {
      FirstPartClean(rest[IndexFrom(rest, 0) + 2..]);
    }
  }

  /** Separable triples never share a key. */
  lemma KeyInjective(t: Target, u: Target)
    requires Separable(t) && Separable(u)
    requires SubscribeKey(t) == SubscribeKey(u)
    ensures t == u
  {
    ReadBack(t);
    ReadBack(u);
  }

  /** Without the guard keys collide. */
  lemma CollidingKeys()
    ensures SubscribeKey(Target("b@@c", "a", "")) == SubscribeKey(Target("b", "a", "c"))
  {
  }

  /** A single border `@` moves into the service name. */
  lemma WanderingSign()
    ensures var key := SubscribeKey(Target("b", "a@", "")); !Clean(key) && Read(key) == Target("@b", "a", "")
  {
    var key := SubscribeKey(Target("b", "a@", ""));
    SplitFirst("a", "@b");
    assert key == "a" + SERVICE_INFO_SPLITER + "@b";
  }
}
