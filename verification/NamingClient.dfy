/**
The naming client and its proxy delegate, in place.  `Subscribe` writes the group it uses into the
caller's parameter, whose address identifies the callback.
 */
module NamingClient {
  import opened Wrappers
  import opened NamingModel
  import opened ServiceKeys
  import ClusterSelector
  import NamingCache
  import Cache = NamingCacheSpec
  import NamingRedo
  import NamingGrpc
  import opened NamingClientSpec

  class SubscribeParam {
    const address: nat
    var serviceName: string
    var groupName: string
    var clusters: seq<string>

    constructor (address: nat, fields: NamingClientSpec.Fields)
      ensures this.address == address && Fields() == fields
    {
      this.address := address;
      serviceName, groupName, clusters := fields.serviceName, fields.groupName, fields.clusters;
    }

    ghost function Fields(): NamingClientSpec.Fields
      reads this
    {
      NamingClientSpec.Fields(serviceName, groupName, clusters)
    }
  }

  class NamingProxyDelegate {
    const grpcClientProxy: NamingGrpc.NamingGrpcProxy
    const serviceInfoHolder: NamingCache.ServiceInfoHolder

    ghost predicate Wired() {
      grpcClientProxy.serviceInfoHolder == serviceInfoHolder
    }

    ghost function Repr(): set<object> {
      {serviceInfoHolder, serviceInfoHolder.subCallback, grpcClientProxy, grpcClientProxy.eventListener}
    }

    ghost function Contents(): Core
      reads Repr()
    {
      Core(serviceInfoHolder.Contents(), grpcClientProxy.eventListener.Contents())
    }

    constructor (proxy: NamingGrpc.NamingGrpcProxy)
      ensures Wired() && grpcClientProxy == proxy
    {
      grpcClientProxy := proxy;
      serviceInfoHolder := proxy.serviceInfoHolder;
    }

    method Subscribe(serviceName: string, groupName: string, clusters: string) returns (service: Option<Service>)
      requires Wired()
      modifies Repr()
      ensures var t := Target(serviceName, groupName, clusters);
              var answer := grpcClientProxy.answers(|old(grpcClientProxy.sent)|);
              && service == Subscribed(old(Contents()), t, answer)
              && Contents() == DelegateSubscribe(serviceInfoHolder.env, old(Contents()), t, answer)
    {
      var isSubscribed := grpcClientProxy.IsSubscribed(serviceName, groupName, clusters);
      var key := GetServiceCacheKey(GetGroupName(serviceName, groupName), clusters);
      var ok := key in serviceInfoHolder.serviceInfoMap;
      if !isSubscribed || !ok {
        service := grpcClientProxy.Subscribe(serviceName, groupName, clusters);
        if service.None? {
          return;
        }
      } else {
        service := Some(serviceInfoHolder.serviceInfoMap[key]);
      }
      serviceInfoHolder.ProcessService(service);
    }

    method Unsubscribe(serviceName: string, groupName: string, clusters: string)
      requires Wired()
      modifies Repr()
      ensures Contents() == DelegateUnsubscribe(old(Contents()), Target(serviceName, groupName, clusters))
    {
      serviceInfoHolder.StopUpdateIfContain(GetGroupName(serviceName, groupName), clusters);
      grpcClientProxy.Unsubscribe(serviceName, groupName, clusters);
    }
  }

  class Client {
    const serviceInfoHolder: NamingCache.ServiceInfoHolder
    const serviceProxy: NamingProxyDelegate

    ghost predicate Wired() {
      serviceProxy.Wired() && serviceProxy.serviceInfoHolder == serviceInfoHolder
    }

    ghost function Contents(): Core
      reads serviceProxy.Repr()
    {
      serviceProxy.Contents()
    }

    /** The answer that the next request will get. */
    ghost function NextAnswer(): Option<Service>
      reads serviceProxy.grpcClientProxy
    {
      serviceProxy.grpcClientProxy.answers(|serviceProxy.grpcClientProxy.sent|)
    }

    function Env(): Cache.Env {
      serviceInfoHolder.env
    }

    constructor (proxy: NamingProxyDelegate)
      requires proxy.Wired()
      ensures Wired() && serviceProxy == proxy
    {
      serviceInfoHolder := proxy.serviceInfoHolder;
      serviceProxy := proxy;
    }

    method Subscribe(param: SubscribeParam) returns (ok: bool)
      requires Wired()
      modifies serviceProxy.Repr(), param`groupName
      ensures param.Fields() == Defaulted(old(param.Fields()))
      ensures ok <==> Subscribed(old(Contents()), TargetOf(param.Fields()), old(NextAnswer())).Some?
      ensures Contents() == ClientSubscribe(Env(), old(Contents()), param.address, old(param.Fields()),
                                            old(NextAnswer()))
    {
      if |param.groupName| == 0 {
        param.groupName := DEFAULT_GROUP;
      }
      var clusterSelector := ClusterSelector.NewClusterSelector(param.clusters);
      var callbackWrapper := Cache.CallbackWrapper(param.address, clusterSelector);
      serviceInfoHolder.RegisterCallback(GetGroupName(param.serviceName, param.groupName), "", callbackWrapper);
      var service := serviceProxy.Subscribe(param.serviceName, param.groupName, "");
      ok := service.Some?;
    }

    method Unsubscribe(param: SubscribeParam)
      requires Wired()
      modifies serviceProxy.Repr()
      ensures Contents() == ClientUnsubscribe(old(Contents()), param.address, param.Fields())
    {
      var clusterSelector := ClusterSelector.NewClusterSelector(param.clusters);
      var callbackWrapper := Cache.CallbackWrapper(param.address, clusterSelector);
      var serviceFullName := GetGroupName(param.serviceName, param.groupName);
      serviceInfoHolder.DeregisterCallback(serviceFullName, "", callbackWrapper);
      var subscribed := serviceInfoHolder.subCallback.IsSubscribed(serviceFullName, "");
      if !subscribed {
        serviceProxy.Unsubscribe(param.serviceName, param.groupName, "");
      }
    }

    /** The connection event reaches the listener of the gRPC proxy. */
    method OnConnected() returns (ghost redo: seq<NamingRedo.Call>, ghost from: nat)
      requires Wired() && NamingRedo.Readable(Contents().caches)
      modifies serviceProxy.Repr()
      ensures NamingRedo.IsRedo(old(Contents()).caches, redo)
      ensures Contents() == Core(Cache.Run(serviceInfoHolder.env, old(Contents()).holder,
                                           NamingGrpc.Fed(serviceProxy.grpcClientProxy.answers, from, redo)),
                                 NamingRedo.Run(old(Contents()).caches, redo))
    {
      var proxy := serviceProxy.grpcClientProxy;
      from := |proxy.sent|;
      redo := proxy.eventListener.OnConnected(proxy);
    }

    /** The lookup that the selecting calls share: the cached service, or a new subscription. */
    method Lookup(serviceName: string, groupName: string) returns (service: Option<Service>)
      requires Wired()
      modifies serviceProxy.Repr()
      ensures var f := Defaulted(NamingClientSpec.Fields(serviceName, groupName, []));
              var answer := old(NextAnswer());
              && service == Found(old(Contents()), f, answer)
              && Contents() == if FullName(f) in old(Contents()).holder.cached then old(Contents())
                               else DelegateSubscribe(Env(), old(Contents()), TargetOf(f), answer)
    {
      var group := groupName;
      if |group| == 0 {
        group := DEFAULT_GROUP;
      }
      var cacheKey := GetServiceCacheKey(GetGroupName(serviceName, group), "");
      if cacheKey in serviceInfoHolder.serviceInfoMap {
        service := Some(serviceInfoHolder.serviceInfoMap[cacheKey]);
      } else {
        service := serviceProxy.Subscribe(serviceName, group, "");
      }
    }
  }

  // Runs of calls on one client, with the caller's structs

  datatype Call =
    | AssignCall(address: nat, fields: NamingClientSpec.Fields)
    | SubscribeCall(address: nat)
    | UnsubscribeCall(address: nat)
    | UpdateCall(update: Option<Service>)
    | LookupCall(serviceName: string, groupName: string)
    | ReconnectCall

  type Memory = map<nat, SubscribeParam>

  /** The structs hold `params`, each at its own address, so no two structs share one. */
  ghost predicate Holds(memory: Memory, params: map<nat, NamingClientSpec.Fields>)
    reads memory.Values
  {
    && memory.Keys == params.Keys
    && forall a :: a in memory ==> memory[a].address == a && memory[a].Fields() == params[a]
  }

  method Assign(memory: Memory, ghost params: map<nat, NamingClientSpec.Fields>, address: nat,
                fields: NamingClientSpec.Fields)
    returns (now: Memory)
    requires Holds(memory, params)
    modifies memory.Values
    ensures Holds(now, params[address := fields]) && fresh(now.Values - memory.Values)
  {
    if address in memory {
      var p := memory[address];
      p.serviceName, p.groupName, p.clusters := fields.serviceName, fields.groupName, fields.clusters;
      now := memory;
    } else {
      var p := new SubscribeParam(address, fields);
      now := memory[address := p];
    }
  }

  method SubscribeAt(c: Client, ghost memory: Memory, ghost params: map<nat, NamingClientSpec.Fields>,
                     ghost address: nat, p: SubscribeParam)
    requires c.Wired() && Holds(memory, params) && address in memory && memory[address] == p
    modifies c.serviceProxy.Repr(), p`groupName
    ensures Holds(memory, params[address := Defaulted(params[address])])
    ensures c.Contents() == ClientSubscribe(c.Env(), old(c.Contents()), address, params[address], old(c.NextAnswer()))
  {
    assert p.address == address && p.Fields() == params[address];
    var _ := c.Subscribe(p);
    forall a | a in memory && a != address
      ensures memory[a].Fields() == params[a]
    {
      assert memory[a].address != p.address;
    }
  }

  method UnsubscribeAt(c: Client, memory: Memory, ghost params: map<nat, NamingClientSpec.Fields>, address: nat)
    requires c.Wired() && Holds(memory, params) && address in memory
    modifies c.serviceProxy.Repr()
    ensures Holds(memory, params)
    ensures c.Contents() == ClientUnsubscribe(old(c.Contents()), address, params[address])
  {
    c.Unsubscribe(memory[address]);
  }

  method ReconnectNow(c: Client, ghost params: map<nat, NamingClientSpec.Fields>) returns (ghost op: ClientOp)
    requires c.Wired() && NamingRedo.Readable(c.Contents().caches)
    modifies c.serviceProxy.Repr()
    ensures op.Reconnecting? && NamingRedo.IsRedo(old(c.Contents()).caches, op.redo)
    ensures State(c.Contents(), params) == Step(c.Env(), State(old(c.Contents()), params), op)
  {
    ghost var redo, from := c.OnConnected();
    op := Reconnecting(redo, c.serviceProxy.grpcClientProxy.answers, from);
  }

  /** The calls that leave the caller's structs alone. */
  method ServeOther(c: Client, call: Call, ghost params: map<nat, NamingClientSpec.Fields>) returns (ghost op: ClientOp)
    requires c.Wired() && NamingRedo.Readable(c.Contents().caches)
    requires call.UpdateCall? || call.LookupCall? || call.ReconnectCall?
    modifies c.serviceProxy.Repr()
    ensures op.Reconnecting? ==> NamingRedo.IsRedo(old(c.Contents()).caches, op.redo)
    ensures State(c.Contents(), params) == Step(c.Env(), State(old(c.Contents()), params), op)
  {
    match call
    case UpdateCall(update) =>
      op := Updating(update);
      c.serviceInfoHolder.ProcessService(update);
    case LookupCall(serviceName, groupName) =>
      op := Querying(serviceName, groupName, c.NextAnswer());
      var _ := c.Lookup(serviceName, groupName);
    case ReconnectCall =>
      op := ReconnectNow(c, params);
  }

  /** The calls that name a struct. */
  method ServeStruct(c: Client, memory: Memory, ghost params: map<nat, NamingClientSpec.Fields>, call: Call)
    returns (ghost after: map<nat, NamingClientSpec.Fields>, ghost op: ClientOp)
    requires c.Wired() && Holds(memory, params) && (call.SubscribeCall? || call.UnsubscribeCall?)
    modifies c.serviceProxy.Repr(), memory.Values
    ensures Holds(memory, after) && !op.Reconnecting?
    ensures State(c.Contents(), after) == Step(c.Env(), State(old(c.Contents()), params), op)
  {
    after := params;
    var address := call.address;
    if call.SubscribeCall? {
      op := Subscribing(address, c.NextAnswer());
      if address in memory {
        SubscribeAt(c, memory, params, address, memory[address]);
        after := params[address := Defaulted(params[address])];
      }
    } else {
      op := Unsubscribing(address);
      if address in memory {
        UnsubscribeAt(c, memory, params, address);
      }
    }
  }

  method Serve(c: Client, memory: Memory, ghost params: map<nat, NamingClientSpec.Fields>, call: Call)
    returns (now: Memory, ghost after: map<nat, NamingClientSpec.Fields>, ghost op: ClientOp)
    requires c.Wired() && Holds(memory, params) && NamingRedo.Readable(c.Contents().caches)
    modifies c.serviceProxy.Repr(), memory.Values
    ensures Holds(now, after) && fresh(now.Values - memory.Values)
    ensures op.Reconnecting? ==> NamingRedo.IsRedo(old(c.Contents()).caches, op.redo)
    ensures State(c.Contents(), after) == Step(c.Env(), State(old(c.Contents()), params), op)
  {
    now, after := memory, params;
    if call.AssignCall? {
      op := Assigning(call.address, call.fields);
      now := Assign(memory, params, call.address, call.fields);
      after := params[call.address := call.fields];
    } else if call.SubscribeCall? || call.UnsubscribeCall? {
      after, op := ServeStruct(c, memory, params, call);
    } else {
      op := ServeOther(c, call, params);
    }
  }

  /** Any sequence of calls on a new client, with its caller's structs, is a run of the specification. */
  method ServeAll(env: Cache.Env, loaded: map<string, Service>, answers: nat -> Option<Service>, calls: seq<Call>)
    returns (c: Client, memory: Memory, ghost params: map<nat, NamingClientSpec.Fields>, ghost ops: seq<ClientOp>)
    ensures |ops| == |calls| && Possible(env, NewState(loaded), ops) && Holds(memory, params)
    ensures State(c.Contents(), params) == Steps(env, NewState(loaded), ops)
  {
    var holder := new NamingCache.ServiceInfoHolder(env, loaded);
    var proxy := new NamingGrpc.NamingGrpcProxy(holder, answers);
    var delegate := new NamingProxyDelegate(proxy);
    c := new Client(delegate);
    memory, params, ops := map[], map[], [];
    for i := 0 to |calls|
      invariant c.Wired() && c.Env() == env && fresh(c.serviceProxy.Repr()) && fresh(memory.Values)
      invariant Holds(memory, params) && |ops| == i && Possible(env, NewState(loaded), ops)
      invariant State(c.Contents(), params) == Steps(env, NewState(loaded), ops)
      invariant NamingRedo.Readable(c.Contents().caches)
    {
      ghost var op;
      ghost var before := State(c.Contents(), params);
      memory, params, op := Serve(c, memory, params, calls[i]);
      ReadableAfter(env, before, op);
      assert (ops + [op])[..|ops|] == ops;
      ops := ops + [op];
    }
  }
}
