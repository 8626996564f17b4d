/**
Cluster selectors: the canonical text that names a set of clusters, equality of selectors through
that text, and the hosts a selector lets through.
 */
module ClusterSelector {
  import opened Wrappers
  import opened NamingModel

  datatype ClusterSelector = ClusterSelector(clusterNames: string, clusters: seq<string>)

  function Names(cluster: seq<string>): set<string> {
    set name | name in cluster && name != ""
  }

  // The order of `sort.Strings`

  predicate Before(a: string, b: string) {
    b != "" && (a == "" || a[0] < b[0] || (a[0] == b[0] && Before(a[1..], b[1..])))
  }

  lemma {:induction false} BeforeOrders(a: string, b: string)
    ensures a == b || Before(a, b) || Before(b, a)
    ensures !(Before(a, b) && Before(b, a))
  {
    if a != "" && b != "" && a[0] == b[0] {
      BeforeOrders(a[1..], b[1..]);
      assert a == [a[0]] + a[1..] && b == [b[0]] + b[1..];
    }
  }

  lemma {:induction false} BeforeTransitive(a: string, b: string, c: string)
    requires Before(a, b) && Before(b, c)
    ensures Before(a, c)
  {
    if a != "" && a[0] == b[0] && b[0] == c[0] {
      BeforeTransitive(a[1..], b[1..], c[1..]);
    }
  }

  ghost predicate Ascending(s: seq<string>) {
    forall i, j :: 0 <= i < j < |s| ==> Before(s[i], s[j])
  }

  function Insert(name: string, s: seq<string>): seq<string> {
    if s == [] then [name]
    else if Before(s[0], name) then [s[0]] + Insert(name, s[1..])
    else [name] + s
  }

  lemma {:induction false} InsertElements(name: string, s: seq<string>, x: string)
    ensures x in Insert(name, s) <==> x == name || x in s
  {
    if s != [] && Before(s[0], name) {
      InsertElements(name, s[1..], x);
      assert s == [s[0]] + s[1..];
    }
  }

  lemma {:induction false} InsertAscending(name: string, s: seq<string>)
    requires Ascending(s) && name !in s
    ensures Ascending(Insert(name, s))
  {
    if s == [] {
    } else if Before(s[0], name) {
      var rest := Insert(name, s[1..]);
      InsertAscending(name, s[1..]);
      forall j | 0 <= j < |rest|
        ensures Before(s[0], rest[j])
      {
        InsertElements(name, s[1..], rest[j]);
      }
    } else {
      BeforeOrders(s[0], name);
      forall j | 0 < j < |s|
        ensures Before(name, s[j])
      {
        BeforeTransitive(name, s[0], s[j]);
      }
    }
  }

  /** The ascending listing of a set of names. */
  ghost function Sorted(names: set<string>): (s: seq<string>)
    ensures Ascending(s)
    ensures forall x :: x in s <==> x in names
  {
    if names == {} then []
    else
      var name :| name in names;
      var s := Sorted(names - {name});
      InsertAscending(name, s);
      assert forall x :: x in Insert(name, s) <==> x == name || x in s by {
        forall x ensures x in Insert(name, s) <==> x == name || x in s { InsertElements(name, s, x); }
      }
      Insert(name, s)
  }

  /** There is only one ascending listing. */
  lemma {:induction false} AscendingUnique(a: seq<string>, b: seq<string>)
    requires Ascending(a) && Ascending(b)
    requires forall x :: x in a <==> x in b
    ensures a == b
  {
    assert b != [] ==> b[0] in b;
    if a != [] {
      assert a[0] in b && b[0] in a;
      var i :| 0 <= i < |b| && b[i] == a[0];
      var j :| 0 <= j < |a| && a[j] == b[0];
      BeforeOrders(a[0], b[0]);
      assert a[0] == b[0];
      forall x
        ensures x in a[1..] <==> x in b[1..]
      {
        RestElements(a, x);
        RestElements(b, x);
      }
      AscendingUnique(a[1..], b[1..]);
      assert a == [a[0]] + a[1..] && b == [b[0]] + b[1..];
    }
  }

  lemma RestElements(s: seq<string>, x: string)
    requires Ascending(s) && s != []
    ensures x in s[1..] <==> x in s && x != s[0]
  {
    BeforeOrders(s[0], s[0]);
    if x in s && x != s[0] {
      var i :| 0 <= i < |s| && s[i] == x;
      assert s[1..][i - 1] == x;
    }
  }

  // Joining with commas

  function Join(s: seq<string>): string {
    if s == [] then "" else if |s| == 1 then s[0] else s[0] + "," + Join(s[1..])
  }

  ghost predicate Plain(names: set<string>) {
    forall name :: name in names ==> name != "" && ',' !in name
  }

  lemma PlainParts(names: set<string>, s: seq<string>)
    requires Plain(names) && forall x :: x in s <==> x in names
    ensures forall i :: 0 <= i < |s| ==> s[i] != "" && ',' !in s[i]
  {
    assert forall i :: 0 <= i < |s| ==> s[i] in names;
  }

  lemma JoinHead(s: seq<string>)
    requires s != []
    ensures |Join(s)| >= |s[0]| && Join(s)[..|s[0]|] == s[0]
    ensures |s| == 1 ==> Join(s) == s[0]
    ensures |s| > 1 ==> |Join(s)| > |s[0]| && Join(s)[|s[0]|] == ',' && Join(s)[|s[0]| + 1..] == Join(s[1..])
  {
  }

  lemma JoinHeadLength(a: seq<string>, b: seq<string>)
    requires a != [] && b != [] && Join(a) == Join(b) && ',' !in b[0]
    ensures |b[0]| <= |a[0]|
  {
    JoinHead(a);
    JoinHead(b);
    assert forall i :: 0 <= i < |b[0]| ==> Join(b)[..|b[0]|][i] == b[0][i];
  }

  lemma {:induction false} JoinInjective(a: seq<string>, b: seq<string>)
    requires forall i :: 0 <= i < |a| ==> a[i] != "" && ',' !in a[i]
    requires forall i :: 0 <= i < |b| ==> b[i] != "" && ',' !in b[i]
    requires Join(a) == Join(b)
    ensures a == b
  {
    if a == [] || b == [] {
      if a != [] { JoinHead(a); }
      if b != [] { JoinHead(b); }
    } else {
      JoinHeadLength(a, b);
      JoinHeadLength(b, a);
      JoinHead(a);
      JoinHead(b);
      assert a[0] == b[0];
      if |a| > 1 && |b| > 1 {
        JoinInjective(a[1..], b[1..]);
        assert a == [a[0]] + a[1..] && b == [b[0]] + b[1..];
      }
    }
  }

  // The operations

  method SortStrings(s: seq<string>) returns (r: seq<string>)
    requires forall i, j :: 0 <= i < j < |s| ==> s[i] != s[j]
    ensures Ascending(r)
    ensures forall x :: x in r <==> x in s
  {
    r := [];
    for i := 0 to |s|
      invariant Ascending(r)
      invariant forall x :: x in r <==> x in s[..i]
    {
      InsertAscending(s[i], r);
      forall x ensures x in Insert(s[i], r) <==> x == s[i] || x in r { InsertElements(s[i], r, x); }
      assert s[..i + 1] == s[..i] + [s[i]];
      r := Insert(s[i], r);
    }
    assert s[..|s|] == s;
  }

  method JoinCluster(cluster: seq<string>) returns (r: string)
    ensures r == Join(Sorted(Names(cluster)))
  {
    var uniqueSet: set<string> := {};
    for i := 0 to |cluster|
      invariant uniqueSet == Names(cluster[..i])
    {
      assert cluster[..i + 1] == cluster[..i] + [cluster[i]];
      if cluster[i] != "" {
        uniqueSet := uniqueSet + {cluster[i]};
      }
    }
    assert cluster[..|cluster|] == cluster;
    var uniqueSlice: seq<string> := [];
    var todo := uniqueSet;
    while todo != {}
      invariant todo <= uniqueSet
      invariant forall x :: x in uniqueSlice <==> x in uniqueSet - todo
      invariant forall i, j :: 0 <= i < j < |uniqueSlice| ==> uniqueSlice[i] != uniqueSlice[j]
    {
      var item :| item in todo;
      todo := todo - {item};
      assert item !in uniqueSlice;
      uniqueSlice := uniqueSlice + [item];
    }
    var sorted := SortStrings(uniqueSlice);
    AscendingUnique(sorted, Sorted(Names(cluster)));
    r := Join(sorted);
  }

  method NewClusterSelector(clusters: seq<string>) returns (cs: ClusterSelector)
    ensures cs == Selector(clusters)
  {
    if |clusters| == 0 {
      return ClusterSelector("", []);
    }
    var names := JoinCluster(clusters);
    cs := ClusterSelector(names, clusters);
  }

  ghost function Selector(clusters: seq<string>): ClusterSelector {
    ClusterSelector(Join(Sorted(Names(clusters))), clusters)
  }

  /** `None` stands for a nil selector. */
  predicate Equals(cs: ClusterSelector, o: Option<ClusterSelector>) {
    match o
    case None => false
    case Some(other) => cs.clusterNames == other.clusterNames
  }

  method Contains(slice: seq<string>, item: string) returns (found: bool)
    ensures found <==> item in slice
  {
    for i := 0 to |slice|
      invariant item !in slice[..i]
    {
      if slice[i] == item {
        return true;
      }
    }
    found := false;
  }

  /** The hosts of clusters in `clusters`, in order. */
  function InClusters(hosts: seq<Instance>, clusters: seq<string>): seq<Instance> {
    if hosts == [] then []
    else
      var rest := InClusters(hosts[..|hosts| - 1], clusters);
      var last := hosts[|hosts| - 1];
      if last.clusterName in clusters then rest + [last] else rest
  }

  function Select(cs: ClusterSelector, hosts: seq<Instance>): seq<Instance> {
    if cs.clusterNames == "" then hosts else InClusters(hosts, cs.clusters)
  }

  method SelectInstance(cs: ClusterSelector, service: Service) returns (instances: seq<Instance>)
    ensures instances == Select(cs, Hosts(service))
  {
    var hosts := Hosts(service);
    if cs.clusterNames == "" {
      return hosts;
    }
    instances := [];
    for i := 0 to |hosts|
      invariant instances == InClusters(hosts[..i], cs.clusters)
    {
      var found := Contains(cs.clusters, hosts[i].clusterName);
      assert hosts[..i + 1][..i] == hosts[..i];
      if found {
        instances := instances + [hosts[i]];
      }
    }
    assert hosts[..|hosts|] == hosts;
  }

  // What selectors promise

  /** The canonical text names the empty set only when there is no name. */
  lemma EmptyText(clusters: seq<string>)
    ensures Selector(clusters).clusterNames == "" <==> Names(clusters) == {}
  {
    var s := Sorted(Names(clusters));
    if s != [] {
      JoinHead(s);
      assert s[0] in Names(clusters);
    }
    if Names(clusters) != {} {
      var x :| x in Names(clusters);
      assert x in s;
    }
  }

  /** For comma-free names, selectors are equal exactly when their sets of names agree. */
  lemma EqualsIffSameNames(a: seq<string>, b: seq<string>)
    requires Plain(Names(a)) && Plain(Names(b))
    ensures Equals(Selector(a), Some(Selector(b))) <==> Names(a) == Names(b)
    ensures !Equals(Selector(a), None)
  {
    var s, t := Sorted(Names(a)), Sorted(Names(b));
    PlainParts(Names(a), s);
    PlainParts(Names(b), t);
    if Join(s) == Join(t) {
      JoinInjective(s, t);
      assert forall x :: x in Names(a) <==> x in s;
      assert forall x :: x in Names(b) <==> x in t;
    }
  }

  lemma CommaCollision()
    ensures Equals(Selector(["a,b"]), Some(Selector(["a", "b"]))) && Names(["a,b"]) != Names(["a", "b"])
  {
    assert Before("a", "b");
    assert Ascending(["a", "b"]) && Ascending(["a,b"]);
    AscendingUnique(Sorted(Names(["a", "b"])), ["a", "b"]);
    AscendingUnique(Sorted(Names(["a,b"])), ["a,b"]);
    assert ["a", "b"][1..] == ["b"];
    assert "a,b" in Names(["a,b"]) && "a,b" !in Names(["a", "b"]);
  }

  /** Hosts with a cluster name. */
  function Named(hosts: seq<Instance>): seq<Instance> {
    if hosts == [] then []
    else
      var rest := Named(hosts[..|hosts| - 1]);
      var last := hosts[|hosts| - 1];
      if last.clusterName != "" then rest + [last] else rest
  }

  lemma {:induction false} NamedInClusters(hosts: seq<Instance>, a: seq<string>, b: seq<string>)
    requires Names(a) == Names(b)
    ensures Named(InClusters(hosts, a)) == Named(InClusters(hosts, b))
  {
    if hosts != [] {
      var n := |hosts| - 1;
      var last := hosts[n];
      NamedInClusters(hosts[..n], a, b);
      var p, q := InClusters(hosts[..n], a), InClusters(hosts[..n], b);
      assert (p + [last])[..|p|] == p && (q + [last])[..|q|] == q;
      assert last.clusterName != "" ==> (last.clusterName in a <==> last.clusterName in Names(a));
      assert last.clusterName != "" ==> (last.clusterName in b <==> last.clusterName in Names(b));
    }
  }

  /** Equal selectors pick the same hosts among those with a cluster name. */
  lemma EqualSelectorsAgree(a: seq<string>, b: seq<string>, hosts: seq<Instance>)
    requires Plain(Names(a)) && Plain(Names(b))
    requires Equals(Selector(a), Some(Selector(b)))
    ensures Named(Select(Selector(a), hosts)) == Named(Select(Selector(b), hosts))
  {
    EqualsIffSameNames(a, b);
    NamedInClusters(hosts, a, b);
  }

  lemma {:induction false} SameMembersSameHosts(hosts: seq<Instance>, a: seq<string>, b: seq<string>)
    requires forall x :: x in a <==> x in b
    ensures InClusters(hosts, a) == InClusters(hosts, b)
  {
    if hosts != [] {
      SameMembersSameHosts(hosts[..|hosts| - 1], a, b);
    }
  }

  /** On all hosts, equal selectors agree exactly when both or neither list the empty name, or neither has a name. */
  lemma EqualSelectorsAgreeOnAll(a: seq<string>, b: seq<string>, nameless: Instance)
    requires Plain(Names(a)) && Plain(Names(b)) && nameless.clusterName == ""
    requires Equals(Selector(a), Some(Selector(b)))
    ensures (forall hosts :: Select(Selector(a), hosts) == Select(Selector(b), hosts)) <==>
              (Names(a) == {} || ("" in a <==> "" in b))
  {
    EqualsIffSameNames(a, b);
    EmptyText(a);
    EmptyText(b);
    if Names(a) != {} {
      if "" in a <==> "" in b {
        forall x
          ensures x in a <==> x in b
        {
          assert x != "" ==> (x in a <==> x in Names(a)) && (x in b <==> x in Names(b));
        }
        forall hosts
          ensures Select(Selector(a), hosts) == Select(Selector(b), hosts)
        {
          SameMembersSameHosts(hosts, a, b);
        }
      } else {
        assert InClusters([nameless], a) != InClusters([nameless], b);
        assert Select(Selector(a), [nameless]) != Select(Selector(b), [nameless]);
      }
    }
  }
}
