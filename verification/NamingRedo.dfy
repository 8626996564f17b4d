/**
Redo after a reconnect: the two caches of the connection event listener, the proxy calls that
fill and empty them, and the loops that replay them.  The outcome of a request never reaches the
caches, so the network only records what is sent.
 */
module NamingRedo {
  import opened Wrappers
  import opened NamingModel
  import opened ServiceKeys

  datatype Registration = Single(instance: Instance) | Batch(instances: seq<Instance>)

  /** A call on the proxy, which is also the request that it sends. */
  datatype Call =
    | Register(service: string, group: string, registration: Registration)
    | Deregister(service: string, group: string, instance: Instance)
    | Subscribe(target: Target)
    | Unsubscribe(target: Target)

  datatype Caches = Caches(subscribes: set<string>, registered: map<string, Registration>)

  const EMPTY := Caches({}, map[])

  function Apply(c: Caches, call: Call): Caches {
    match call
    case Register(service, group, r) => c.(registered := c.registered[GetGroupName(service, group) := r])
    case Deregister(service, group, _) => c.(registered := c.registered - {GetGroupName(service, group)})
    case Subscribe(t) => c.(subscribes := c.subscribes + {SubscribeKey(t)})
    case Unsubscribe(t) => c.(subscribes := c.subscribes - {SubscribeKey(t)})
  }

  function Run(c: Caches, calls: seq<Call>): Caches {
    if calls == [] then c else Apply(Run(c, calls[..|calls| - 1]), calls[|calls| - 1])
  }

  lemma {:induction false} RunConcat(c: Caches, a: seq<Call>, b: seq<Call>)
    ensures Run(c, a + b) == Run(Run(c, a), b)
  {
    if b == [] {
      assert a + b == a;
    } else {
      var n := |b| - 1;
      RunConcat(c, a, b[..n]);
      assert (a + b)[..|a + b| - 1] == a + b[..n];
    }
  }

  // What a history says, without the caches

  /** The latest call about `t` was Subscribe. */
  ghost predicate StillSubscribed(calls: seq<Call>, t: Target) {
    exists i :: 0 <= i < |calls| && calls[i] == Subscribe(t)
                && forall j :: i < j < |calls| ==> calls[j] != Unsubscribe(t)
  }

  predicate AboutService(call: Call, service: string, group: string) {
    (call.Register? || call.Deregister?) && call.service == service && call.group == group
  }

  ghost predicate UntouchedAfter(calls: seq<Call>, i: int, service: string, group: string) {
    forall j :: i < j < |calls| && 0 <= j ==> !AboutService(calls[j], service, group)
  }

  /** The latest registration call about the service registered `r`. */
  ghost predicate StillRegistered(calls: seq<Call>, service: string, group: string, r: Registration) {
    exists i :: 0 <= i < |calls| && calls[i] == Register(service, group, r) && UntouchedAfter(calls, i, service, group)
  }

  function TargetOf(call: Call): Target {
    match call
    case Register(service, group, _) => Target(service, group, "")
    case Deregister(service, group, _) => Target(service, group, "")
    case Subscribe(t) => t
    case Unsubscribe(t) => t
  }

  ghost predicate Separate(calls: seq<Call>) {
    forall i :: 0 <= i < |calls| ==> Separable(TargetOf(calls[i]))
  }

  // The caches hold exactly what the history says

  lemma StillSubscribedStep(calls: seq<Call>, t: Target)
    requires calls != []
    ensures StillSubscribed(calls, t) <==>
      calls[|calls| - 1] == Subscribe(t)
      || (calls[|calls| - 1] != Unsubscribe(t) && StillSubscribed(calls[..|calls| - 1], t))
  {
    var n := |calls| - 1;
    var front := calls[..n];
    if StillSubscribed(calls, t) && calls[n] != Subscribe(t) {
      var i :| 0 <= i < |calls| && calls[i] == Subscribe(t)
               && forall j :: i < j < |calls| ==> calls[j] != Unsubscribe(t);
      assert front[i] == Subscribe(t);
    }
    if StillSubscribed(front, t) && calls[n] != Unsubscribe(t) {
      var i :| 0 <= i < |front| && front[i] == Subscribe(t)
               && forall j :: i < j < |front| ==> front[j] != Unsubscribe(t);
      assert calls[i] == Subscribe(t);
    }
  }

  lemma StillRegisteredStep(calls: seq<Call>, service: string, group: string, r: Registration)
    requires calls != []
    ensures StillRegistered(calls, service, group, r) <==>
      calls[|calls| - 1] == Register(service, group, r)
      || (!AboutService(calls[|calls| - 1], service, group) && StillRegistered(calls[..|calls| - 1], service, group, r))
  {
    var n := |calls| - 1;
    var front := calls[..n];
    if StillRegistered(calls, service, group, r) && calls[n] != Register(service, group, r) {
      var i :| 0 <= i < |calls| && calls[i] == Register(service, group, r) && UntouchedAfter(calls, i, service, group);
      assert front[i] == Register(service, group, r) && UntouchedAfter(front, i, service, group);
    }
    if StillRegistered(front, service, group, r) && !AboutService(calls[n], service, group) {
      var i :| 0 <= i < |front| && front[i] == Register(service, group, r) && UntouchedAfter(front, i, service, group);
      assert calls[i] == Register(service, group, r) && UntouchedAfter(calls, i, service, group);
    }
  }

  lemma {:induction false} SubscribesExact(calls: seq<Call>, t: Target)
    requires Separate(calls) && Separable(t)
    ensures SubscribeKey(t) in Run(EMPTY, calls).subscribes <==> StillSubscribed(calls, t)
  {
    if calls != [] {
      var n := |calls| - 1;
      SubscribesExact(calls[..n], t);
      StillSubscribedStep(calls, t);
      if SubscribeKey(TargetOf(calls[n])) == SubscribeKey(t) {
        KeyInjective(TargetOf(calls[n]), t);
      }
    }
  }

  lemma {:induction false} RegisteredExact(calls: seq<Call>, service: string, group: string, r: Registration)
    requires Separate(calls) && Separable(Target(service, group, ""))
    ensures (GetGroupName(service, group), r) in Run(EMPTY, calls).registered.Items <==>
      StillRegistered(calls, service, group, r)
  {
    if calls != [] {
      var n := |calls| - 1;
      RegisteredExact(calls[..n], service, group, r);
      StillRegisteredStep(calls, service, group, r);
      var u := TargetOf(calls[n]);
      if (calls[n].Register? || calls[n].Deregister?)
        && GetGroupName(u.service, u.group) == GetGroupName(service, group) {
        SameService(calls[n], service, group);
      }
    }
  }

  lemma SameService(call: Call, service: string, group: string)
    requires Separable(TargetOf(call)) && Separable(Target(service, group, ""))
    requires call.Register? || call.Deregister?
    requires GetGroupName(TargetOf(call).service, TargetOf(call).group) == GetGroupName(service, group)
    ensures AboutService(call, service, group)
  {
    KeyInjective(TargetOf(call), Target(service, group, ""));
  }

  // Replaying the caches

  ghost predicate IsListing(keys: seq<string>, s: set<string>) {
    && (forall i :: 0 <= i < |keys| ==> keys[i] in s)
    && (forall k :: k in s ==> k in keys)
    && (forall i, j :: 0 <= i < j < |keys| ==> keys[i] != keys[j])
  }

  /** Every cached key can be taken apart without an index out of range. */
  ghost predicate Readable(c: Caches) {
    && (forall k :: k in c.subscribes ==> !Clean(k))
    && (forall k :: k in c.registered ==> !Clean(k))
  }

  /** `redo` re-subscribes the cached keys and re-registers the cached services, in the order listed. */
  ghost predicate RedoInOrder(c: Caches, keys: seq<string>, items: seq<string>, redo: seq<Call>)
    requires Readable(c)
  {
    && IsListing(keys, c.subscribes) && IsListing(items, c.registered.Keys)
    && |redo| == |keys| + |items|
    && (forall i :: 0 <= i < |keys| ==> redo[i] == Subscribe(Read(keys[i])))
    && (forall i :: |keys| <= i < |redo| ==> redo[i] == Reregister(c, items[i - |keys|]))
  }

  /** `redo` replays both caches, each in some order. */
  ghost predicate IsRedo(c: Caches, redo: seq<Call>) {
    Readable(c) && exists keys, items :: RedoInOrder(c, keys, items, redo)
  }

  function Reregister(c: Caches, key: string): Call
    requires key in c.registered && !Clean(key)
  {
    Register(Read(key).service, Read(key).group, c.registered[key])
  }

  /** Every cached key is the key of the separable target read off it. */
  ghost predicate Faithful(c: Caches) {
    && Readable(c)
    && (forall k :: k in c.subscribes ==> Separable(Read(k)) && SubscribeKey(Read(k)) == k)
    && (forall k :: k in c.registered ==> Separable(Read(k)) && Read(k).clusters == "" && SubscribeKey(Read(k)) == k)
  }

  lemma RedoneIsSeparable(c: Caches, redo: seq<Call>, t: Target)
    requires IsRedo(c, redo) && Subscribe(t) in redo
    ensures Separable(t)
  {
    var keys, items :| RedoInOrder(c, keys, items, redo);
    var i :| 0 <= i < |redo| && redo[i] == Subscribe(t);
    assert i < |keys|;
    ReadIsSeparable(keys[i]);
  }

  lemma ReadableStep(c: Caches, call: Call)
    requires Readable(c)
    ensures Readable(Apply(c, call))
  {
    KeySplits(TargetOf(call));
  }

  lemma FaithfulStep(c: Caches, call: Call)
    requires Faithful(c) && Separable(TargetOf(call))
    ensures Faithful(Apply(c, call))
  {
    ReadableStep(c, call);
    ReadBack(TargetOf(call));
  }

  lemma {:induction false} FaithfulRun(calls: seq<Call>)
    requires Separate(calls)
    ensures Faithful(Run(EMPTY, calls))
  {
    if calls != [] {
      FaithfulRun(calls[..|calls| - 1]);
      FaithfulStep(Run(EMPTY, calls[..|calls| - 1]), calls[|calls| - 1]);
    }
  }

  lemma {:induction false} IdleRun(c: Caches, calls: seq<Call>)
    requires forall i :: 0 <= i < |calls| ==> Apply(c, calls[i]) == c
    ensures Run(c, calls) == c
  {
    if calls != [] {
      IdleRun(c, calls[..|calls| - 1]);
    }
  }

  lemma RedoIsIdle(c: Caches, keys: seq<string>, items: seq<string>, redo: seq<Call>)
    requires Faithful(c) && RedoInOrder(c, keys, items, redo)
    ensures Run(c, redo) == c
  {
    forall i | 0 <= i < |redo|
      ensures Apply(c, redo[i]) == c
    {
      if i < |keys| {
        assert keys[i] in c.subscribes;
        assert c.subscribes + {keys[i]} == c.subscribes;
      } else {
        var k := items[i - |keys|];
        assert k in c.registered;
        assert c.registered[k := c.registered[k]] == c.registered;
      }
    }
    IdleRun(c, redo);
  }

  lemma RedoSubscribes(c: Caches, keys: seq<string>, items: seq<string>, redo: seq<Call>, t: Target)
    requires Faithful(c) && RedoInOrder(c, keys, items, redo) && Separable(t)
    ensures Subscribe(t) in redo <==> SubscribeKey(t) in c.subscribes
  {
    ReadBack(t);
    if SubscribeKey(t) in c.subscribes {
      var i :| 0 <= i < |keys| && keys[i] == SubscribeKey(t);
      assert redo[i] == Subscribe(t);
    }
    if Subscribe(t) in redo {
      var i :| 0 <= i < |redo| && redo[i] == Subscribe(t);
      assert keys[i] in c.subscribes && Read(keys[i]) == t;
    }
  }

  lemma RedoRegisters(c: Caches, keys: seq<string>, items: seq<string>, redo: seq<Call>,
                      service: string, group: string, r: Registration)
    requires Faithful(c) && RedoInOrder(c, keys, items, redo) && Separable(Target(service, group, ""))
    ensures Register(service, group, r) in redo <==> (GetGroupName(service, group), r) in c.registered.Items
  {
    var k := GetGroupName(service, group);
    ReadBack(Target(service, group, ""));
    if k in c.registered && c.registered[k] == r {
      var i :| 0 <= i < |items| && items[i] == k;
      assert redo[|keys| + i] == Register(service, group, r);
    }
    if Register(service, group, r) in redo {
      var i :| 0 <= i < |redo| && redo[i] == Register(service, group, r);
      assert items[i - |keys|] in c.registered;
    }
  }

  /** No target is subscribed twice and no service registered twice. */
  ghost predicate OncePerTarget(redo: seq<Call>) {
    forall i, j :: 0 <= i < j < |redo| && redo[i].Register? == redo[j].Register? ==>
      TargetOf(redo[i]) != TargetOf(redo[j])
  }

  lemma RedoOnce(c: Caches, keys: seq<string>, items: seq<string>, redo: seq<Call>)
    requires Faithful(c) && RedoInOrder(c, keys, items, redo)
    ensures OncePerTarget(redo)
  {
    forall i, j | 0 <= i < j < |redo| && redo[i].Register? == redo[j].Register?
      ensures TargetOf(redo[i]) != TargetOf(redo[j])
    {
      if j < |keys| {
        assert keys[i] != keys[j] && keys[i] in c.subscribes && keys[j] in c.subscribes;
      } else {
        var a, b := items[i - |keys|], items[j - |keys|];
        assert a != b && a in c.registered && b in c.registered;
      }
    }
  }

  /**
  For every history of separable proxy calls and every iteration order, the redo re-subscribes
  exactly the targets still subscribed, re-registers exactly the registrations still standing,
  each once, and leaves both caches as they were.
   */
  lemma RedoAfterReconnect(calls: seq<Call>, redo: seq<Call>)
    requires Separate(calls) && IsRedo(Run(EMPTY, calls), redo)
    ensures forall t :: Subscribe(t) in redo <==> StillSubscribed(calls, t)
    ensures forall service, group, r :: Register(service, group, r) in redo <==>
      StillRegistered(calls, service, group, r)
    ensures forall call :: call in redo ==> call.Register? || call.Subscribe?
    ensures OncePerTarget(redo)
    ensures Run(EMPTY, calls + redo) == Run(EMPTY, calls)
  {
    var c := Run(EMPTY, calls);
    FaithfulRun(calls);
    var keys, items :| RedoInOrder(c, keys, items, redo);
    forall t: Target
      ensures Subscribe(t) in redo <==> StillSubscribed(calls, t)
    {
      RedoNames(calls, c, keys, items, redo, t);
      if Separable(t) {
        RedoSubscribes(c, keys, items, redo, t);
        SubscribesExact(calls, t);
      }
    }
    forall service, group, r
      ensures Register(service, group, r) in redo <==> StillRegistered(calls, service, group, r)
    {
      RedoServices(calls, c, keys, items, redo, service, group, r);
      if Separable(Target(service, group, "")) {
        RedoRegisters(c, keys, items, redo, service, group, r);
        RegisteredExact(calls, service, group, r);
      }
    }
    RedoOnce(c, keys, items, redo);
    RedoIsIdle(c, keys, items, redo);
    RunConcat(EMPTY, calls, redo);
  }

  /** Neither the redo nor the history names a target that is not separable. */
  lemma RedoNames(calls: seq<Call>, c: Caches, keys: seq<string>, items: seq<string>, redo: seq<Call>, t: Target)
    requires Separate(calls) && Faithful(c) && RedoInOrder(c, keys, items, redo)
    ensures Subscribe(t) in redo || StillSubscribed(calls, t) ==> Separable(t)
  {
    if Subscribe(t) in redo {
      var i :| 0 <= i < |redo| && redo[i] == Subscribe(t);
      assert keys[i] in c.subscribes;
    }
    if StillSubscribed(calls, t) {
      var i :| 0 <= i < |calls| && calls[i] == Subscribe(t);
      assert TargetOf(calls[i]) == t;
    }
  }

  lemma RedoServices(calls: seq<Call>, c: Caches, keys: seq<string>, items: seq<string>, redo: seq<Call>,
                     service: string, group: string, r: Registration)
    requires Separate(calls) && Faithful(c) && RedoInOrder(c, keys, items, redo)
    ensures Register(service, group, r) in redo || StillRegistered(calls, service, group, r) ==>
              Separable(Target(service, group, ""))
  {
    if Register(service, group, r) in redo {
      var i :| 0 <= i < |redo| && redo[i] == Register(service, group, r);
      assert items[i - |keys|] in c.registered;
    }
    if StillRegistered(calls, service, group, r) {
      var i :| 0 <= i < |calls| && calls[i] == Register(service, group, r);
      assert TargetOf(calls[i]) == Target(service, group, "");
    }
  }
}
