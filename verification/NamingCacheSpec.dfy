/**
What the naming cache does on values: which updates it takes, which it announces, and what each
subscriber has been told.  Calls run one after another.  The sort behind the change test is a
parameter known only to permute, because its comparison is not an order.
 */
module NamingCacheSpec {
  import opened Wrappers
  import opened NamingModel
  import opened ServiceKeys
  import opened ClusterSelector

  /** `callback` is the address a subscriber passed its function by. */
  datatype CallbackWrapper = CallbackWrapper(callback: nat, selector: ClusterSelector)

  datatype Delivery = Delivery(key: string, wrapper: CallbackWrapper, hosts: seq<Instance>)

  datatype Holder = Holder(
    cached: map<string, Service>,
    callbacks: map<string, seq<CallbackWrapper>>,
    delivered: seq<Delivery>)

  /** The parts of the environment a holder is created with. */
  datatype Env = Env(updateCacheWhenEmpty: bool, sort: seq<Instance> -> seq<Instance>)

  function CacheKey(s: Service): string {
    GetServiceCacheKey(GetGroupName(s.name, s.groupName), s.clusters)
  }

  // Callback lists

  predicate Matches(f: CallbackWrapper, w: CallbackWrapper) {
    f.callback == w.callback && Equals(f.selector, Some(w.selector))
  }

  function Without(funcs: seq<CallbackWrapper>, w: CallbackWrapper): (kept: seq<CallbackWrapper>)
    ensures forall f :: f in kept <==> f in funcs && !Matches(f, w)
  {
    if funcs == [] then []
    else
      var n := |funcs| - 1;
      assert funcs == funcs[..n] + [funcs[n]];
      var kept := Without(funcs[..n], w);
      if Matches(funcs[n], w) then kept else kept + [funcs[n]]
  }

  function FuncsAt(h: Holder, key: string): seq<CallbackWrapper> {
    if key in h.callbacks then h.callbacks[key] else []
  }

  function AddCallback(h: Holder, key: string, w: CallbackWrapper): Holder {
    h.(callbacks := h.callbacks[key := FuncsAt(h, key) + [w]])
  }

  function RemoveCallback(h: Holder, key: string, w: CallbackWrapper): Holder {
    if key in h.callbacks then h.(callbacks := h.callbacks[key := Without(h.callbacks[key], w)]) else h
  }

  function Notify(funcs: seq<CallbackWrapper>, key: string, s: Service): seq<Delivery> {
    if funcs == [] then []
    else
      var w := funcs[|funcs| - 1];
      Notify(funcs[..|funcs| - 1], key, s) + [Delivery(key, w, Select(w.selector, Hosts(s)))]
  }

  function ServiceChanged(h: Holder, key: string, s: Service): Holder {
    h.(delivered := h.delivered + Notify(FuncsAt(h, key), key, s))
  }

  // Updates

  /** A nil slice is never deeply equal to the copy it is compared with. */
  predicate Changed(env: Env, old_: Service, new_: Service) {
    || |Hosts(old_)| != |Hosts(new_)|
    || (old_.lastRefTime <= new_.lastRefTime && (old_.hosts.None? || env.sort(Hosts(old_)) != env.sort(Hosts(new_))))
  }

  predicate Ignored(env: Env, s: Service) {
    !env.updateCacheWhenEmpty && |Hosts(s)| == 0
  }

  predicate Stale(cached: map<string, Service>, s: Service) {
    CacheKey(s) in cached && cached[CacheKey(s)].lastRefTime >= s.lastRefTime
  }

  function Process(env: Env, h: Holder, update: Option<Service>): Holder {
    match update
    case None => h
    case Some(s) =>
      if Ignored(env, s) || Stale(h.cached, s) then h
      else
        var stored := h.(cached := h.cached[CacheKey(s) := s]);
        if CacheKey(s) !in h.cached || Changed(env, h.cached[CacheKey(s)], s)
          then ServiceChanged(stored, CacheKey(s), s)
        else stored
  }

  datatype Op =
    | RegisterCallback(serviceName: string, clusters: string, wrapper: CallbackWrapper)
    | DeregisterCallback(serviceName: string, clusters: string, wrapper: CallbackWrapper)
    | ProcessService(update: Option<Service>)
    | StopUpdateIfContain(serviceName: string, clusters: string)

  function Apply(env: Env, h: Holder, op: Op): Holder {
    match op
    case RegisterCallback(serviceName, clusters, w) => AddCallback(h, GetServiceCacheKey(serviceName, clusters), w)
    case DeregisterCallback(serviceName, clusters, w) => RemoveCallback(h, GetServiceCacheKey(serviceName, clusters), w)
    case ProcessService(update) => Process(env, h, update)
    case StopUpdateIfContain(serviceName, clusters) =>
      h.(cached := h.cached - {GetServiceCacheKey(serviceName, clusters)})
  }

  function Run(env: Env, h: Holder, ops: seq<Op>): Holder {
    if ops == [] then h else Apply(env, Run(env, h, ops[..|ops| - 1]), ops[|ops| - 1])
  }

  // What a subscriber was last told

  function LastDelivered(log: seq<Delivery>, key: string, w: CallbackWrapper): Option<seq<Instance>> {
    if log == [] then None
    else
      var d := log[|log| - 1];
      if d.key == key && d.wrapper == w then Some(d.hosts) else LastDelivered(log[..|log| - 1], key, w)
  }

  lemma {:induction false} LastDeliveredConcat(log: seq<Delivery>, more: seq<Delivery>, key: string, w: CallbackWrapper)
    ensures LastDelivered(log + more, key, w) ==
      if LastDelivered(more, key, w).Some? then LastDelivered(more, key, w) else LastDelivered(log, key, w)
  {
    if more == [] {
      assert log + more == log;
    } else {
      var n := |more| - 1;
      LastDeliveredConcat(log, more[..n], key, w);
      assert (log + more)[..|log| + n] == log + more[..n];
    }
  }

  lemma {:induction false} LastNotified(funcs: seq<CallbackWrapper>, at: string, s: Service, key: string,
                                        w: CallbackWrapper)
    ensures LastDelivered(Notify(funcs, at, s), key, w) ==
      if key == at && w in funcs then Some(Select(w.selector, Hosts(s))) else None
  {
    if funcs != [] {
      var n := |funcs| - 1;
      LastNotified(funcs[..n], at, s, key, w);
      assert funcs == funcs[..n] + [funcs[n]];
      var front := Notify(funcs[..n], at, s);
      var d := Delivery(at, funcs[n], Select(funcs[n].selector, Hosts(s)));
      assert (front + [d])[..|front|] == front;
    }
  }

  predicate Admits(cs: ClusterSelector, x: Instance) {
    cs.clusterNames == "" || x.clusterName in cs.clusters
  }

  /** A selector keeps every admitted host as often as it occurs, and no other. */
  lemma {:induction false} SelectCounts(cs: ClusterSelector, hosts: seq<Instance>, x: Instance)
    ensures multiset(Select(cs, hosts))[x] == if Admits(cs, x) then multiset(hosts)[x] else 0
  {
    if cs.clusterNames != "" && hosts != [] {
      var n := |hosts| - 1;
      SelectCounts(cs, hosts[..n], x);
      assert hosts == hosts[..n] + [hosts[n]];
    }
  }

  lemma SelectOfPermuted(cs: ClusterSelector, a: seq<Instance>, b: seq<Instance>)
    requires multiset(a) == multiset(b)
    ensures multiset(Select(cs, a)) == multiset(Select(cs, b))
  {
    forall x: Instance
      ensures multiset(Select(cs, a))[x] == multiset(Select(cs, b))[x]
    {
      SelectCounts(cs, a, x);
      SelectCounts(cs, b, x);
    }
  }

  /** An update that is not announced only reorders the hosts. */
  lemma UnchangedIsReordering(env: Env, old_: Service, new_: Service)
    requires Permutes(env.sort) && !Changed(env, old_, new_) && old_.lastRefTime <= new_.lastRefTime
    ensures multiset(Hosts(old_)) == multiset(Hosts(new_))
  {
    assert multiset(env.sort(Hosts(old_))) == multiset(Hosts(old_));
    assert multiset(env.sort(Hosts(new_))) == multiset(Hosts(new_));
  }

  /** The subscriber is registered and, while the key is cached, knows the cached hosts up to order. */
  ghost predicate UpToDate(h: Holder, key: string, w: CallbackWrapper) {
    && w in FuncsAt(h, key)
    && (key in h.cached ==>
          var last := LastDelivered(h.delivered, key, w);
          last.Some? && multiset(last.value) == multiset(Select(w.selector, Hosts(h.cached[key]))))
  }

  /** `op` takes `w` off the list at `key`. */
  predicate Removes(op: Op, key: string, w: CallbackWrapper) {
    op.DeregisterCallback? && GetServiceCacheKey(op.serviceName, op.clusters) == key && Matches(w, op.wrapper)
  }

  function TargetOfService(s: Service): Target {
    Target(s.name, s.groupName, s.clusters)
  }

  /**
  An update takes effect exactly when it names hosts, or empty lists count, and is newer than what
  is cached for its service.  It is then cached for its service and nothing else is uncached; the
  first one is told to every callback of the service.
   */
  lemma UpdateReachesItsService(env: Env, h: Holder, s: Service, w: CallbackWrapper)
    ensures var key := SubscribeKey(TargetOfService(s));
            var after := Process(env, h, Some(s));
            if (env.updateCacheWhenEmpty || Hosts(s) != [])
              && (key in h.cached ==> h.cached[key].lastRefTime < s.lastRefTime)
            then
              && after.cached == h.cached[key := s]
              && (key !in h.cached && w in FuncsAt(h, key) ==>
                    LastDelivered(after.delivered, key, w) == Some(Select(w.selector, Hosts(s))))
            else after == h
  {
    var key := CacheKey(s);
    LastDeliveredConcat(h.delivered, Notify(FuncsAt(h, key), key, s), key, w);
    LastNotified(FuncsAt(h, key), key, s, key, w);
  }

  /** Every service is cached for the service it names. */
  ghost predicate Filed(cached: map<string, Service>) {
    forall key :: key in cached ==> SubscribeKey(TargetOfService(cached[key])) == key
  }

  lemma {:induction false} FiledRun(env: Env, h: Holder, ops: seq<Op>)
    requires Filed(h.cached)
    ensures Filed(Run(env, h, ops).cached)
  {
    if ops != [] {
      FiledRun(env, h, ops[..|ops| - 1]);
    }
  }

  ghost predicate Canonical(sort: seq<Instance> -> seq<Instance>) {
    forall a, b :: multiset(a) == multiset(b) ==> sort(a) == sort(b)
  }

  /**
  With a sort that depends only on which instances there are, a newer update of a cached service
  is told to its callbacks exactly when the hosts differ, or the cached slice was nil.
   */
  lemma AnnouncedIffChanged(env: Env, h: Holder, s: Service)
    requires Permutes(env.sort) && Canonical(env.sort) && !Ignored(env, s)
    requires CacheKey(s) in h.cached && h.cached[CacheKey(s)].lastRefTime < s.lastRefTime
    ensures var before := h.cached[CacheKey(s)];
            Announces(env, h, ProcessService(Some(s)), CacheKey(s)) <==>
              before.hosts.None? || multiset(Hosts(before)) != multiset(Hosts(s))
  {
    var a, b := Hosts(h.cached[CacheKey(s)]), Hosts(s);
    assert multiset(env.sort(a)) == multiset(a) && multiset(env.sort(b)) == multiset(b);
    if multiset(a) == multiset(b) {
      assert |multiset(a)| == |a| && |multiset(b)| == |b|;
    }
  }

  lemma ProcessUpToDate(env: Env, h: Holder, update: Option<Service>, key: string, w: CallbackWrapper)
    requires Permutes(env.sort) && UpToDate(h, key, w)
    ensures UpToDate(Process(env, h, update), key, w)
  {
    if update.Some? {
      var s := update.value;
      if !Ignored(env, s) && !Stale(h.cached, s) {
        var at := CacheKey(s);
        if at !in h.cached || Changed(env, h.cached[at], s) {
          LastDeliveredConcat(h.delivered, Notify(FuncsAt(h, at), at, s), key, w);
          LastNotified(FuncsAt(h, at), at, s, key, w);
        } else {
          UnchangedIsReordering(env, h.cached[at], s);
          SelectOfPermuted(w.selector, Hosts(h.cached[at]), Hosts(s));
        }
      }
    }
  }

  lemma UpToDateStep(env: Env, h: Holder, op: Op, key: string, w: CallbackWrapper)
    requires Permutes(env.sort) && UpToDate(h, key, w) && !Removes(op, key, w)
    ensures UpToDate(Apply(env, h, op), key, w)
  {
    if op.ProcessService? {
      ProcessUpToDate(env, h, op.update, key, w);
    }
  }

  lemma {:induction false} UpToDateRun(env: Env, h: Holder, ops: seq<Op>, key: string, w: CallbackWrapper)
    requires Permutes(env.sort) && UpToDate(h, key, w)
    requires forall i :: 0 <= i < |ops| ==> !Removes(ops[i], key, w)
    ensures UpToDate(Run(env, h, ops), key, w)
  {
    if ops != [] {
      UpToDateRun(env, h, ops[..|ops| - 1], key, w);
      UpToDateStep(env, Run(env, h, ops[..|ops| - 1]), ops[|ops| - 1], key, w);
    }
  }

  /**
  A callback registered while its key is uncached knows the cached hosts, up to order, after
  every later run that does not remove it, whatever the holder did before.
   */
  lemma SubscriberView(env: Env, h: Holder, serviceName: string, clusters: string, w: CallbackWrapper, ops: seq<Op>)
    requires Permutes(env.sort)
    requires GetServiceCacheKey(serviceName, clusters) !in h.cached
    requires forall i :: 0 <= i < |ops| ==> !Removes(ops[i], GetServiceCacheKey(serviceName, clusters), w)
    ensures UpToDate(Run(env, Apply(env, h, RegisterCallback(serviceName, clusters, w)), ops),
                     GetServiceCacheKey(serviceName, clusters), w)
  {
    UpToDateRun(env, Apply(env, h, RegisterCallback(serviceName, clusters, w)), ops,
                GetServiceCacheKey(serviceName, clusters), w);
  }

  /** `op` stores an update for `key` and tells its callbacks. */
  predicate Announces(env: Env, h: Holder, op: Op, key: string) {
    && op.ProcessService? && op.update.Some?
    && var s := op.update.value;
       && CacheKey(s) == key && !Ignored(env, s) && !Stale(h.cached, s)
       && (key !in h.cached || Changed(env, h.cached[key], s))
  }

  predicate AnnouncedDuring(env: Env, h: Holder, ops: seq<Op>, key: string) {
    ops != [] &&
    var front := ops[..|ops| - 1];
    AnnouncedDuring(env, h, front, key) || Announces(env, Run(env, h, front), ops[|ops| - 1], key)
  }

  lemma AnnouncementTells(env: Env, h: Holder, op: Op, key: string, w: CallbackWrapper)
    requires Announces(env, h, op, key) && w in FuncsAt(h, key)
    ensures UpToDate(Apply(env, h, op), key, w)
  {
    var s := op.update.value;
    LastDeliveredConcat(h.delivered, Notify(FuncsAt(h, key), key, s), key, w);
    LastNotified(FuncsAt(h, key), key, s, key, w);
  }

  lemma SilenceTellsNothing(env: Env, h: Holder, op: Op, key: string, w: CallbackWrapper)
    requires !Announces(env, h, op, key)
    ensures LastDelivered(Apply(env, h, op).delivered, key, w) == LastDelivered(h.delivered, key, w)
  {
    if op.ProcessService? && op.update.Some? {
      var s := op.update.value;
      LastDeliveredConcat(h.delivered, Notify(FuncsAt(h, CacheKey(s)), CacheKey(s), s), key, w);
      LastNotified(FuncsAt(h, CacheKey(s)), CacheKey(s), s, key, w);
    }
  }

  lemma {:induction false} LateRun(env: Env, h: Holder, ops: seq<Op>, key: string, w: CallbackWrapper)
    requires Permutes(env.sort) && w in FuncsAt(h, key) && LastDelivered(h.delivered, key, w).None?
    requires forall i :: 0 <= i < |ops| ==> !Removes(ops[i], key, w)
    ensures var r := Run(env, h, ops);
            && w in FuncsAt(r, key)
            && if AnnouncedDuring(env, h, ops, key) then UpToDate(r, key, w)
              else LastDelivered(r.delivered, key, w).None?
  {
    if ops != [] {
      var front, last := ops[..|ops| - 1], ops[|ops| - 1];
      LateRun(env, h, front, key, w);
      var before := Run(env, h, front);
      assert !Removes(last, key, w);
      StaysRegistered(env, before, last, key, w);
      if Announces(env, before, last, key) {
        AnnouncementTells(env, before, last, key, w);
      } else if AnnouncedDuring(env, h, front, key) {
        UpToDateStep(env, before, last, key, w);
      } else {
        SilenceTellsNothing(env, before, last, key, w);
      }
    }
  }

  lemma StaysRegistered(env: Env, h: Holder, op: Op, key: string, w: CallbackWrapper)
    requires w in FuncsAt(h, key) && !Removes(op, key, w)
    ensures w in FuncsAt(Apply(env, h, op), key)
  {
  }

  /**
  A callback that was never told anything is, after every run that does not remove it, up to date
  if and only if its key was announced since it was registered, or is uncached now.  In
  particular a callback registered while its key is cached waits for the next change.
   */
  lemma FirstRegistration(env: Env, h: Holder, serviceName: string, clusters: string, w: CallbackWrapper, ops: seq<Op>)
    requires Permutes(env.sort)
    requires LastDelivered(h.delivered, GetServiceCacheKey(serviceName, clusters), w).None?
    requires forall i :: 0 <= i < |ops| ==> !Removes(ops[i], GetServiceCacheKey(serviceName, clusters), w)
    ensures var key := GetServiceCacheKey(serviceName, clusters);
            var registered := Apply(env, h, RegisterCallback(serviceName, clusters, w));
            UpToDate(Run(env, registered, ops), key, w) <==>
              AnnouncedDuring(env, registered, ops, key) || key !in Run(env, registered, ops).cached
  {
    var registered := Apply(env, h, RegisterCallback(serviceName, clusters, w));
    LateRun(env, registered, ops, GetServiceCacheKey(serviceName, clusters), w);
  }

  // Arrival order

  function Store(env: Env, cached: map<string, Service>, s: Service): map<string, Service> {
    if Ignored(env, s) || Stale(cached, s) then cached else cached[CacheKey(s) := s]
  }

  function StoreAll(env: Env, cached: map<string, Service>, updates: seq<Service>): map<string, Service> {
    if updates == [] then cached
    else Store(env, StoreAll(env, cached, updates[..|updates| - 1]), updates[|updates| - 1])
  }

  /** An update that may reach `key`. */
  predicate Reaches(env: Env, s: Service, key: string) {
    !Ignored(env, s) && CacheKey(s) == key
  }

  /** `r` is the newest of the initial entry and the updates for `key`; a tie keeps the initial entry. */
  ghost predicate Newest(env: Env, initial: map<string, Service>, updates: seq<Service>, key: string, r: Service) {
    && ((key in initial && r == initial[key]) || (r in updates && Reaches(env, r, key)))
    && (forall s :: s in updates && Reaches(env, s, key) ==> s.lastRefTime <= r.lastRefTime)
    && (key in initial ==> initial[key].lastRefTime < r.lastRefTime || r == initial[key])
  }

  ghost predicate Reached(env: Env, initial: map<string, Service>, updates: seq<Service>, key: string) {
    key in initial || exists s :: s in updates && Reaches(env, s, key)
  }

  /** `cached` holds, at `key`, the newest of what reached it. */
  ghost predicate HoldsNewest(env: Env, initial: map<string, Service>, updates: seq<Service>, key: string,
                              cached: map<string, Service>) {
    && (key in cached <==> Reached(env, initial, updates, key))
    && (key in cached ==> Newest(env, initial, updates, key, cached[key]))
  }

  lemma SkipHoldsNewest(env: Env, initial: map<string, Service>, front: seq<Service>, s: Service, key: string,
                        cached: map<string, Service>)
    requires HoldsNewest(env, initial, front, key, cached) && !Reaches(env, s, key)
    ensures HoldsNewest(env, initial, front + [s], key, cached)
  {
    if Reached(env, initial, front, key) && key !in initial {
      var t :| t in front && Reaches(env, t, key);
      assert t in front + [s];
    }
  }

  lemma TakeHoldsNewest(env: Env, initial: map<string, Service>, front: seq<Service>, s: Service, key: string,
                        cached: map<string, Service>)
    requires HoldsNewest(env, initial, front, key, cached) && Reaches(env, s, key)
    ensures HoldsNewest(env, initial, front + [s], key, Store(env, cached, s))
  {
    assert s in front + [s];
    var after := Store(env, cached, s);
    assert key in after;
    forall t | t in front + [s] && Reaches(env, t, key)
      ensures t.lastRefTime <= after[key].lastRefTime
    {
      assert t in front || t == s;
      assert t in front ==> Reached(env, initial, front, key);
    }
  }

  lemma {:induction false} StoreAllIsNewest(env: Env, initial: map<string, Service>, updates: seq<Service>, key: string)
    ensures HoldsNewest(env, initial, updates, key, StoreAll(env, initial, updates))
  {
    if updates != [] {
      var n := |updates| - 1;
      StoreAllIsNewest(env, initial, updates[..n], key);
      assert updates == updates[..n] + [updates[n]];
      var before := StoreAll(env, initial, updates[..n]);
      if Reaches(env, updates[n], key) {
        TakeHoldsNewest(env, initial, updates[..n], updates[n], key, before);
      } else {
        SkipHoldsNewest(env, initial, updates[..n], updates[n], key, before);
        StoreElsewhere(env, before, updates[n], key);
        var after := Store(env, before, updates[n]);
        assert key in before <==> key in after;
        assert key in after ==> after[key] == before[key];
      }
    }
  }

  lemma StoreElsewhere(env: Env, cached: map<string, Service>, s: Service, key: string)
    requires !Reaches(env, s, key)
    ensures key in Store(env, cached, s) <==> key in cached
    ensures key in cached ==> Store(env, cached, s)[key] == cached[key]
  {
  }

  /** No two different updates share a key and a ref time. */
  ghost predicate Unambiguous(updates: seq<Service>) {
    forall s, t :: s in updates && t in updates && CacheKey(s) == CacheKey(t) && s.lastRefTime == t.lastRefTime ==>
      s == t
  }

  lemma NewestUnique(env: Env, initial: map<string, Service>, a: seq<Service>, b: seq<Service>, key: string,
                     r: Service, q: Service)
    requires Unambiguous(a) && forall s :: s in a <==> s in b
    requires Newest(env, initial, a, key, r) && Newest(env, initial, b, key, q)
    ensures r == q
  {
  }

  lemma ReachedAlike(env: Env, initial: map<string, Service>, a: seq<Service>, b: seq<Service>, key: string)
    requires forall s :: s in a <==> s in b
    requires Reached(env, initial, a, key)
    ensures Reached(env, initial, b, key)
  {
    if key !in initial {
      var s :| s in a && Reaches(env, s, key);
      assert s in b;
    }
  }

  lemma StoreOrderAt(env: Env, initial: map<string, Service>, a: seq<Service>, b: seq<Service>, key: string)
    requires Unambiguous(a) && forall s :: s in a <==> s in b
    ensures key in StoreAll(env, initial, a) <==> key in StoreAll(env, initial, b)
    ensures key in StoreAll(env, initial, a) ==> StoreAll(env, initial, a)[key] == StoreAll(env, initial, b)[key]
  {
    var p, q := StoreAll(env, initial, a), StoreAll(env, initial, b);
    StoreAllIsNewest(env, initial, a, key);
    StoreAllIsNewest(env, initial, b, key);
    if key in p {
      ReachedAlike(env, initial, a, b, key);
      NewestUnique(env, initial, a, b, key, p[key], q[key]);
    } else if key in q {
      ReachedAlike(env, initial, b, a, key);
    }
  }

  lemma StoreOrder(env: Env, initial: map<string, Service>, a: seq<Service>, b: seq<Service>)
    requires multiset(a) == multiset(b) && Unambiguous(a)
    ensures StoreAll(env, initial, a) == StoreAll(env, initial, b)
  {
    assert forall s :: s in a <==> s in b by {
      assert forall s :: s in a <==> s in multiset(a);
      assert forall s :: s in b <==> s in multiset(b);
    }
    forall key
      ensures key in StoreAll(env, initial, a) <==> key in StoreAll(env, initial, b)
      ensures key in StoreAll(env, initial, a) ==> StoreAll(env, initial, a)[key] == StoreAll(env, initial, b)[key]
    {
      StoreOrderAt(env, initial, a, b, key);
    }
  }

  function Processes(updates: seq<Service>): seq<Op> {
    if updates == [] then [] else Processes(updates[..|updates| - 1]) + [ProcessService(Some(updates[|updates| - 1]))]
  }

  lemma RunAppend(env: Env, h: Holder, ops: seq<Op>, op: Op)
    ensures Run(env, h, ops + [op]) == Apply(env, Run(env, h, ops), op)
  {
    assert (ops + [op])[..|ops|] == ops;
  }

  lemma ProcessStores(env: Env, h: Holder, s: Service)
    ensures Process(env, h, Some(s)).cached == Store(env, h.cached, s)
  {
  }

  lemma {:induction false} RunStores(env: Env, h: Holder, updates: seq<Service>)
    ensures Run(env, h, Processes(updates)).cached == StoreAll(env, h.cached, updates)
  {
    if updates != [] {
      var front := updates[..|updates| - 1];
      RunStores(env, h, front);
      RunAppend(env, h, Processes(front), ProcessService(Some(updates[|updates| - 1])));
      ProcessStores(env, Run(env, h, Processes(front)), updates[|updates| - 1]);
    }
  }

  /** Any permutation of the same updates ends in the same cache. */
  lemma ArrivalOrder(env: Env, h: Holder, a: seq<Service>, b: seq<Service>)
    requires multiset(a) == multiset(b) && Unambiguous(a)
    ensures Run(env, h, Processes(a)).cached == Run(env, h, Processes(b)).cached
  {
    RunStores(env, h, a);
    RunStores(env, h, b);
    StoreOrder(env, h.cached, a, b);
  }

  /** Two different updates with the same key and ref time end differently in the two orders. */
  lemma TieDependsOnOrder(env: Env, s: Service, t: Service)
    requires s != t && CacheKey(s) == CacheKey(t) && s.lastRefTime == t.lastRefTime
    requires !Ignored(env, s) && !Ignored(env, t)
    ensures StoreAll(env, map[], [s, t]) != StoreAll(env, map[], [t, s])
  {
    assert [s, t][..1] == [s] && [t, s][..1] == [t] && [s][..0] == [] && [t][..0] == [];
    assert StoreAll(env, map[], [s]) == map[CacheKey(s) := s];
    assert StoreAll(env, map[], [t]) == map[CacheKey(t) := t];
    assert StoreAll(env, map[], [s, t])[CacheKey(s)] == s;
    assert StoreAll(env, map[], [t, s])[CacheKey(s)] == t;
  }

  /** While nothing is deleted, a cached key keeps its entry or trades it for a newer one. */
  lemma {:induction false} RefTimeGrows(env: Env, h: Holder, ops: seq<Op>, key: string)
    requires key in h.cached && forall i :: 0 <= i < |ops| ==> !ops[i].StopUpdateIfContain?
    ensures key in Run(env, h, ops).cached
    ensures Run(env, h, ops).cached[key] == h.cached[key]
         || h.cached[key].lastRefTime < Run(env, h, ops).cached[key].lastRefTime
  {
    if ops != [] {
      RefTimeGrows(env, h, ops[..|ops| - 1], key);
    }
  }
}
