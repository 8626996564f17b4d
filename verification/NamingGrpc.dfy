/**
The naming proxy and its connection event listener, which updates its two redo caches in place.
A request is modelled by the record the proxy hands to the RPC client; the answer to a Subscribe
request is that of the network to the request of its number.
 */
module NamingGrpc {
  import opened Sequences
  import opened NamingModel
  import opened ServiceKeys
  import opened NamingRedo
  import opened Wrappers
  import NamingCache
  import Cache = NamingCacheSpec

  class ConnectionEventListener {
    var registeredInstanceCached: map<string, Registration>
    var subscribes: set<string>

    ghost function Contents(): Caches
      reads this
    {
      Caches(subscribes, registeredInstanceCached)
    }

    constructor ()
      ensures Contents() == EMPTY
    {
      registeredInstanceCached, subscribes := map[], {};
    }

    method CacheInstanceForRedo(serviceName: string, groupName: string, instance: Instance)
      modifies this
      ensures Contents() == Apply(old(Contents()), Register(serviceName, groupName, Single(instance)))
    {
      var key := GetGroupName(serviceName, groupName);
      registeredInstanceCached := registeredInstanceCached[key := Single(instance)];
    }

    method CacheInstancesForRedo(serviceName: string, groupName: string, instances: seq<Instance>)
      modifies this
      ensures Contents() == Apply(old(Contents()), Register(serviceName, groupName, Batch(instances)))
    {
      var key := GetGroupName(serviceName, groupName);
      registeredInstanceCached := registeredInstanceCached[key := Batch(instances)];
    }

    method RemoveInstanceForRedo(serviceName: string, groupName: string, instance: Instance)
      modifies this
      ensures Contents() == Apply(old(Contents()), Deregister(serviceName, groupName, instance))
    {
      var key := GetGroupName(serviceName, groupName);
      if key !in registeredInstanceCached {
        assert registeredInstanceCached - {key} == registeredInstanceCached;
        return;
      }
      registeredInstanceCached := registeredInstanceCached - {key};
    }

    method IsSubscriberCached(key: string) returns (cached: bool)
      ensures cached <==> key in subscribes
    {
      cached := key in subscribes;
    }

    method CacheSubscriberForRedo(fullServiceName: string, clusters: string)
      modifies this
      ensures subscribes == old(subscribes) + {GetServiceCacheKey(fullServiceName, clusters)}
      ensures registeredInstanceCached == old(registeredInstanceCached)
    {
      var key := GetServiceCacheKey(fullServiceName, clusters);
      var cached := IsSubscriberCached(key);
      if !cached {
        subscribes := subscribes + {key};
      }
    }

    method RemoveSubscriberForRedo(fullServiceName: string, clusters: string)
      modifies this
      ensures subscribes == old(subscribes) - {GetServiceCacheKey(fullServiceName, clusters)}
      ensures registeredInstanceCached == old(registeredInstanceCached)
    {
      subscribes := subscribes - {GetServiceCacheKey(fullServiceName, clusters)};
    }

    method RedoSubscribe(proxy: NamingGrpcProxy) returns (ghost keys: seq<string>, ghost redo: seq<Call>)
      requires proxy.eventListener == this && Readable(Contents())
      modifies this, proxy, proxy.serviceInfoHolder, proxy.serviceInfoHolder.subCallback
      ensures Resubscribed(old(Contents()), {}, keys, redo)
      ensures proxy.sent == old(proxy.sent) + redo
      ensures Contents() == Run(old(Contents()), redo)
      ensures proxy.Cached() == Cache.Run(proxy.Env(), old(proxy.Cached()), Fed(proxy.answers, |old(proxy.sent)|, redo))
    {
      keys, redo := [], [];
      ghost var start := Picture(Contents(), proxy.sent, proxy.Cached());
      var todo := subscribes;
      while todo != {}
        invariant SubscribedSoFar(proxy.Env(), proxy.answers, start, todo, keys, redo,
                                  Picture(Contents(), proxy.sent, proxy.Cached()))
      {
        var key :| key in todo;
        todo := todo - {key};
        ghost var before := Picture(Contents(), proxy.sent, proxy.Cached());
        SubscribeAgain(proxy, key);
        SubscribedStep(proxy.Env(), proxy.answers, start, todo, keys, redo, before,
                       Picture(Contents(), proxy.sent, proxy.Cached()), key);
        keys, redo := keys + [key], redo + [Subscribe(Read(key))];
      }
    }

    /** Subscribes once more and hands the answer, if there is one, to the service cache. */
    method SubscribeAgain(proxy: NamingGrpcProxy, key: string)
      requires proxy.eventListener == this && !Clean(key)
      modifies this, proxy, proxy.serviceInfoHolder, proxy.serviceInfoHolder.subCallback
      ensures Contents() == Apply(old(Contents()), Subscribe(Read(key)))
      ensures proxy.sent == old(proxy.sent) + [Subscribe(Read(key))]
      ensures proxy.Cached() == Cache.Process(proxy.Env(), old(proxy.Cached()), proxy.answers(|old(proxy.sent)|))
    {
      var info := Split(key);
      var service;
      if |info| > 2 {
        service := proxy.Subscribe(info[1], info[0], info[2]);
      } else {
        service := proxy.Subscribe(info[1], info[0], "");
      }
      if service.Some? {
        proxy.serviceInfoHolder.ProcessService(service);
      }
    }

    method RedoRegisterEachService(proxy: NamingGrpcProxy) returns (ghost items: seq<string>, ghost redo: seq<Call>)
      requires proxy.eventListener == this && Readable(Contents())
      modifies this, proxy`sent
      ensures Reregistered(old(Contents()), {}, items, redo)
      ensures proxy.sent == old(proxy.sent) + redo
      ensures Contents() == Run(old(Contents()), redo)
    {
      items, redo := [], [];
      ghost var start := Contents();
      var snapshot := registeredInstanceCached;
      var todo := snapshot.Keys;
      while todo != {}
        invariant Reregistered(start, todo, items, redo)
        invariant proxy.sent == old(proxy.sent) + redo
        invariant Contents() == Run(start, redo)
      {
        var key :| key in todo;
        todo := todo - {key};
        RegisterAgain(proxy, key, snapshot[key]);
        ConcatAssoc(old(proxy.sent), redo, [Reregister(start, key)]);
        ReregisteredStep(start, todo, items, redo, key);
        items, redo := items + [key], redo + [Reregister(start, key)];
      }
    }

    method RegisterAgain(proxy: NamingGrpcProxy, key: string, registration: Registration)
      requires proxy.eventListener == this && !Clean(key)
      modifies this, proxy`sent
      ensures Contents() == Apply(old(Contents()), Register(Read(key).service, Read(key).group, registration))
      ensures proxy.sent == old(proxy.sent) + [Register(Read(key).service, Read(key).group, registration)]
    {
      var info := Split(key);
      var serviceName, groupName := info[1], info[0];
      match registration {
        case Single(instance) => proxy.RegisterInstance(serviceName, groupName, instance);
        case Batch(instances) => proxy.BatchRegisterInstance(serviceName, groupName, instances);
      }
    }

    method OnConnected(proxy: NamingGrpcProxy) returns (ghost redo: seq<Call>)
      requires proxy.eventListener == this && Readable(Contents())
      modifies this, proxy, proxy.serviceInfoHolder, proxy.serviceInfoHolder.subCallback
      ensures IsRedo(old(Contents()), redo)
      ensures proxy.sent == old(proxy.sent) + redo
      ensures Contents() == Run(old(Contents()), redo)
      ensures proxy.Cached() == Cache.Run(proxy.Env(), old(proxy.Cached()), Fed(proxy.answers, |old(proxy.sent)|, redo))
    {
      ghost var start := Contents();
      ghost var keys, items, first, second;
      keys, first := RedoSubscribe(proxy);
      ghost var middle := Contents();
      ReadableRun(start, first);
      items, second := RedoRegisterEachService(proxy);
      redo := first + second;
      ConcatAssoc(old(proxy.sent), first, second);
      RedoBoth(start, middle, keys, first, items, second);
      FedRegisters(proxy.Env(), old(proxy.Cached()), proxy.answers, |old(proxy.sent)|, first, second);
    }
  }

  class NamingGrpcProxy {
    const eventListener: ConnectionEventListener
    const serviceInfoHolder: NamingCache.ServiceInfoHolder
    const answers: nat -> Option<Service>
    var sent: seq<Call>

    ghost function Cached(): Cache.Holder
      reads serviceInfoHolder, serviceInfoHolder.subCallback
    {
      serviceInfoHolder.Contents()
    }

    function Env(): Cache.Env {
      serviceInfoHolder.env
    }

    constructor (holder: NamingCache.ServiceInfoHolder, answers: nat -> Option<Service>)
      ensures fresh(eventListener) && eventListener.Contents() == EMPTY && sent == []
      ensures serviceInfoHolder == holder && this.answers == answers
    {
      eventListener := new ConnectionEventListener();
      serviceInfoHolder := holder;
      this.answers := answers;
      sent := [];
    }

    method RegisterInstance(serviceName: string, groupName: string, instance: Instance)
      modifies this`sent, eventListener
      ensures eventListener.Contents() ==
        Apply(old(eventListener.Contents()), Register(serviceName, groupName, Single(instance)))
      ensures sent == old(sent) + [Register(serviceName, groupName, Single(instance))]
    {
      eventListener.CacheInstanceForRedo(serviceName, groupName, instance);
      sent := sent + [Register(serviceName, groupName, Single(instance))];
    }

    method BatchRegisterInstance(serviceName: string, groupName: string, instances: seq<Instance>)
      modifies this`sent, eventListener
      ensures eventListener.Contents() ==
        Apply(old(eventListener.Contents()), Register(serviceName, groupName, Batch(instances)))
      ensures sent == old(sent) + [Register(serviceName, groupName, Batch(instances))]
    {
      eventListener.CacheInstancesForRedo(serviceName, groupName, instances);
      sent := sent + [Register(serviceName, groupName, Batch(instances))];
    }

    method DeregisterInstance(serviceName: string, groupName: string, instance: Instance)
      modifies this`sent, eventListener
      ensures eventListener.Contents() ==
        Apply(old(eventListener.Contents()), Deregister(serviceName, groupName, instance))
      ensures sent == old(sent) + [Deregister(serviceName, groupName, instance)]
    {
      sent := sent + [Deregister(serviceName, groupName, instance)];
      eventListener.RemoveInstanceForRedo(serviceName, groupName, instance);
    }

    method IsSubscribed(serviceName: string, groupName: string, clusters: string) returns (subscribed: bool)
      ensures subscribed <==> SubscribeKey(Target(serviceName, groupName, clusters)) in eventListener.subscribes
    {
      subscribed := eventListener.IsSubscriberCached(
        GetServiceCacheKey(GetGroupName(serviceName, groupName), clusters));
    }

    /** The key is cached before the request is sent; `None` is a failed request. */
    method Subscribe(serviceName: string, groupName: string, clusters: string) returns (service: Option<Service>)
      modifies this`sent, eventListener
      ensures var call := NamingRedo.Subscribe(Target(serviceName, groupName, clusters));
              eventListener.Contents() == Apply(old(eventListener.Contents()), call) && sent == old(sent) + [call]
      ensures service == answers(|old(sent)|)
    {
      eventListener.CacheSubscriberForRedo(GetGroupName(serviceName, groupName), clusters);
      service := answers(|sent|);
      sent := sent + [NamingRedo.Subscribe(Target(serviceName, groupName, clusters))];
    }

    method Unsubscribe(serviceName: string, groupName: string, clusters: string)
      modifies this`sent, eventListener
      ensures var call := NamingRedo.Unsubscribe(Target(serviceName, groupName, clusters));
              eventListener.Contents() == Apply(old(eventListener.Contents()), call) && sent == old(sent) + [call]
    {
      eventListener.RemoveSubscriberForRedo(GetGroupName(serviceName, groupName), clusters);
      sent := sent + [NamingRedo.Unsubscribe(Target(serviceName, groupName, clusters))];
    }
  }

  method Perform(proxy: NamingGrpcProxy, call: Call)
    modifies proxy`sent, proxy.eventListener
    ensures proxy.eventListener.Contents() == Apply(old(proxy.eventListener.Contents()), call)
    ensures proxy.sent == old(proxy.sent) + [call]
  {
    match call {
      case Register(service, group, Single(instance)) => proxy.RegisterInstance(service, group, instance);
      case Register(service, group, Batch(instances)) => proxy.BatchRegisterInstance(service, group, instances);
      case Deregister(service, group, instance) => proxy.DeregisterInstance(service, group, instance);
      case Subscribe(t) => var _ := proxy.Subscribe(t.service, t.group, t.clusters);
      case Unsubscribe(t) => proxy.Unsubscribe(t.service, t.group, t.clusters);
    }
  }

  /**
  A new proxy serves `calls` and then reconnects: no call history makes the redo panic, and the
  cache behind the proxy ends up as the answers to the re-subscriptions leave it.
   */
  method Reconnect(env: Cache.Env, loaded: map<string, Service>, answers: nat -> Option<Service>, calls: seq<Call>)
    returns (redo: seq<Call>, cached: map<string, Service>)
    ensures IsRedo(Run(EMPTY, calls), redo)
    ensures cached == Cache.Run(env, Cache.Holder(loaded, map[], []), Fed(answers, |calls|, redo)).cached
  {
    var holder := new NamingCache.ServiceInfoHolder(env, loaded);
    var proxy := new NamingGrpcProxy(holder, answers);
    PerformAll(proxy, calls);
    assert [] + calls == calls;
    ReadableRun(EMPTY, calls);
    ghost var again := proxy.eventListener.OnConnected(proxy);
    redo := proxy.sent[|calls|..];
    assert redo == again;
    cached := holder.serviceInfoMap;
  }

  method PerformAll(proxy: NamingGrpcProxy, calls: seq<Call>)
    modifies proxy`sent, proxy.eventListener
    ensures proxy.eventListener.Contents() == Run(old(proxy.eventListener.Contents()), calls)
    ensures proxy.sent == old(proxy.sent) + calls
  {
    ghost var start, before := proxy.eventListener.Contents(), proxy.sent;
    for i := 0 to |calls|
      invariant proxy.eventListener.Contents() == Run(start, calls[..i])
      invariant proxy.sent == before + calls[..i]
    {
      Perform(proxy, calls[i]);
      RunAppend(start, calls[..i], calls[i]);
      assert calls[..i + 1] == calls[..i] + [calls[i]];
      ConcatAssoc(before, calls[..i], [calls[i]]);
    }
    assert calls[..|calls|] == calls;
  }

  // The answers to re-subscriptions

  /** What the service cache is given when `redo` is sent from request number `from` on. */
  function Fed(answers: nat -> Option<Service>, from: nat, redo: seq<Call>): seq<Cache.Op> {
    if redo == [] then []
    else
      var n := |redo| - 1;
      Fed(answers, from, redo[..n]) + [Cache.ProcessService(if redo[n].Subscribe? then answers(from + n) else None)]
  }

  lemma FedStep(env: Cache.Env, h: Cache.Holder, answers: nat -> Option<Service>, from: nat, redo: seq<Call>,
                call: Call)
    ensures Cache.Run(env, h, Fed(answers, from, redo + [call])) ==
            Cache.Process(env, Cache.Run(env, h, Fed(answers, from, redo)),
                          if call.Subscribe? then answers(from + |redo|) else None)
  {
    assert (redo + [call])[..|redo|] == redo;
    var ops := Fed(answers, from, redo + [call]);
    assert ops[..|ops| - 1] == Fed(answers, from, redo);
  }

  /** Registrations give the cache nothing. */
  lemma {:induction false} FedRegisters(env: Cache.Env, h: Cache.Holder, answers: nat -> Option<Service>, from: nat,
                                        first: seq<Call>, second: seq<Call>)
    requires forall i :: 0 <= i < |second| ==> second[i].Register?
    ensures Cache.Run(env, h, Fed(answers, from, first + second)) == Cache.Run(env, h, Fed(answers, from, first))
  {
    if second == [] {
      assert first + second == first;
    } else {
      var n := |second| - 1;
      FedRegisters(env, h, answers, from, first, second[..n]);
      assert first + second == (first + second[..n]) + [second[n]];
      FedStep(env, h, answers, from, first + second[..n], second[n]);
    }
  }

  // The loops' progress

  ghost predicate Resubscribed(c: Caches, todo: set<string>, keys: seq<string>, redo: seq<Call>) {
    && Readable(c) && todo <= c.subscribes
    && IsListing(keys, c.subscribes - todo) && |redo| == |keys|
    && (forall i :: 0 <= i < |keys| ==> redo[i] == Subscribe(Read(keys[i])))
  }

  ghost predicate Reregistered(c: Caches, todo: set<string>, items: seq<string>, redo: seq<Call>) {
    && Readable(c) && todo <= c.registered.Keys
    && IsListing(items, c.registered.Keys - todo) && |redo| == |items|
    && (forall i :: 0 <= i < |items| ==> redo[i] == Reregister(c, items[i]))
  }

  /** The redo caches, the requests sent and the service cache at one moment. */
  datatype Picture = Picture(caches: Caches, sent: seq<Call>, cached: Cache.Holder)

  ghost predicate SubscribedSoFar(env: Cache.Env, answers: nat -> Option<Service>, start: Picture, todo: set<string>,
                                  keys: seq<string>, redo: seq<Call>, now: Picture) {
    && Resubscribed(start.caches, todo, keys, redo)
    && now.sent == start.sent + redo
    && now.caches == Run(start.caches, redo)
    && now.cached == Cache.Run(env, start.cached, Fed(answers, |start.sent|, redo))
  }

  lemma FedAnswer(env: Cache.Env, h: Cache.Holder, answers: nat -> Option<Service>, from: nat, redo: seq<Call>,
                  call: Call, before: Cache.Holder, at: nat)
    requires call.Subscribe? && before == Cache.Run(env, h, Fed(answers, from, redo)) && at == from + |redo|
    ensures Cache.Process(env, before, answers(at)) == Cache.Run(env, h, Fed(answers, from, redo + [call]))
  {
    FedStep(env, h, answers, from, redo, call);
  }

  lemma SubscribedJoin(env: Cache.Env, answers: nat -> Option<Service>, start: Picture, rest: set<string>,
                       keys: seq<string>, redo: seq<Call>, before: Picture, now: Picture, key: string)
    requires key in start.caches.subscribes && key !in rest
    requires SubscribedSoFar(env, answers, start, rest + {key}, keys, redo, before)
    requires now.caches == Apply(before.caches, Subscribe(Read(key)))
      && now.sent == before.sent + [Subscribe(Read(key))]
    requires now.cached == Cache.Run(env, start.cached, Fed(answers, |start.sent|, redo + [Subscribe(Read(key))]))
    ensures SubscribedSoFar(env, answers, start, rest, keys + [key], redo + [Subscribe(Read(key))], now)
  {
    ConcatAssoc(start.sent, redo, [Subscribe(Read(key))]);
    ResubscribedStep(start.caches, rest, keys, redo, key);
  }

  lemma SubscribedStep(env: Cache.Env, answers: nat -> Option<Service>, start: Picture, rest: set<string>,
                       keys: seq<string>, redo: seq<Call>, before: Picture, now: Picture, key: string)
    requires key in start.caches.subscribes && key !in rest
    requires SubscribedSoFar(env, answers, start, rest + {key}, keys, redo, before)
    requires now.caches == Apply(before.caches, Subscribe(Read(key)))
      && now.sent == before.sent + [Subscribe(Read(key))]
    requires now.cached == Cache.Process(env, before.cached, answers(|before.sent|))
    ensures SubscribedSoFar(env, answers, start, rest, keys + [key], redo + [Subscribe(Read(key))], now)
  {
    assert |before.sent| == |start.sent| + |redo|;
    FedAnswer(env, start.cached, answers, |start.sent|, redo, Subscribe(Read(key)), before.cached, |before.sent|);
    SubscribedJoin(env, answers, start, rest, keys, redo, before, now, key);
  }

  lemma ResubscribedStep(c: Caches, rest: set<string>, keys: seq<string>, redo: seq<Call>, key: string)
    requires key in c.subscribes && key !in rest && Resubscribed(c, rest + {key}, keys, redo)
    ensures Resubscribed(c, rest, keys + [key], redo + [Subscribe(Read(key))])
    ensures Run(c, redo + [Subscribe(Read(key))]) == Apply(Run(c, redo), Subscribe(Read(key)))
  {
    ListingAppend(keys, key, c.subscribes, rest);
    RunAppend(c, redo, Subscribe(Read(key)));
  }

  lemma ReregisteredStep(c: Caches, rest: set<string>, items: seq<string>, redo: seq<Call>, key: string)
    requires key in c.registered && key !in rest && Reregistered(c, rest + {key}, items, redo)
    ensures Reregistered(c, rest, items + [key], redo + [Reregister(c, key)])
    ensures Run(c, redo + [Reregister(c, key)]) == Apply(Run(c, redo), Reregister(c, key))
  {
    ListingAppend(items, key, c.registered.Keys, rest);
    RunAppend(c, redo, Reregister(c, key));
  }

  lemma RedoBoth(c: Caches, middle: Caches, keys: seq<string>, first: seq<Call>, items: seq<string>, second: seq<Call>)
    requires Resubscribed(c, {}, keys, first) && middle == Run(c, first)
    requires Reregistered(middle, {}, items, second)
    ensures IsRedo(c, first + second)
    ensures Run(c, first + second) == Run(middle, second)
  {
    SubscribesKeepRegistered(c, first);
    ReregisteredFrom(c, middle, items, second);
    RedoIsBoth(c, keys, first, items, second);
    RunConcat(c, first, second);
  }

  lemma ReregisteredFrom(c: Caches, middle: Caches, items: seq<string>, redo: seq<Call>)
    requires Readable(c) && Reregistered(middle, {}, items, redo) && middle.registered == c.registered
    ensures Reregistered(c, {}, items, redo)
  {
    forall i | 0 <= i < |items|
      ensures redo[i] == Reregister(c, items[i])
    {
      assert redo[i] == Reregister(middle, items[i]);
    }
  }

  lemma RedoIsBoth(c: Caches, keys: seq<string>, first: seq<Call>, items: seq<string>, second: seq<Call>)
    requires Resubscribed(c, {}, keys, first) && Reregistered(c, {}, items, second)
    ensures RedoInOrder(c, keys, items, first + second)
  {
    assert c.subscribes - {} == c.subscribes && c.registered.Keys - {} == c.registered.Keys;
  }

  lemma {:induction false} SubscribesKeepRegistered(c: Caches, calls: seq<Call>)
    requires forall i :: 0 <= i < |calls| ==> calls[i].Subscribe?
    ensures Run(c, calls).registered == c.registered
  {
    if calls != [] {
      SubscribesKeepRegistered(c, calls[..|calls| - 1]);
    }
  }

  lemma RunAppend(c: Caches, calls: seq<Call>, call: Call)
    ensures Run(c, calls + [call]) == Apply(Run(c, calls), call)
  {
    assert (calls + [call])[..|calls|] == calls;
  }

  lemma ListingAppend(keys: seq<string>, key: string, all: set<string>, rest: set<string>)
    requires key in all && key !in rest && rest <= all
    requires IsListing(keys, all - (rest + {key}))
    ensures IsListing(keys + [key], all - rest)
  {
    assert all - rest == (all - (rest + {key})) + {key};
  }

  lemma {:induction false} ReadableRun(c: Caches, calls: seq<Call>)
    requires Readable(c)
    ensures Readable(Run(c, calls))
  {
    if calls != [] {
      ReadableRun(c, calls[..|calls| - 1]);
      ReadableStep(Run(c, calls[..|calls| - 1]), calls[|calls| - 1]);
    }
  }
}
