/**
The service info holder and its callback registry, which update their maps in place.  Deliveries
are recorded where the source calls the subscriber's function.
 */
module NamingCache {
  import opened Wrappers
  import opened NamingModel
  import opened ServiceKeys
  import ClusterSelector
  import opened NamingCacheSpec

  class SubscribeCallback {
    var callbackFuncMap: map<string, seq<CallbackWrapper>>
    var delivered: seq<Delivery>

    constructor ()
      ensures callbackFuncMap == map[] && delivered == []
    {
      callbackFuncMap, delivered := map[], [];
    }

    ghost function View(cached: map<string, Service>): Holder
      reads this
    {
      Holder(cached, callbackFuncMap, delivered)
    }

    method IsSubscribed(serviceName: string, clusters: string) returns (subscribed: bool)
      ensures subscribed <==> FuncsAt(View(map[]), GetServiceCacheKey(serviceName, clusters)) != []
    {
      var key := GetServiceCacheKey(serviceName, clusters);
      if key in callbackFuncMap {
        return |callbackFuncMap[key]| > 0;
      }
      return false;
    }

    method AddCallbackFunc(serviceName: string, clusters: string, wrapper: CallbackWrapper)
      modifies this
      ensures forall cached ::
                View(cached) == AddCallback(old(View(cached)), GetServiceCacheKey(serviceName, clusters), wrapper)
    {
      var key := GetServiceCacheKey(serviceName, clusters);
      var funcSlice: seq<CallbackWrapper> := [];
      if key in callbackFuncMap {
        funcSlice := funcSlice + callbackFuncMap[key];
        assert funcSlice == callbackFuncMap[key];
      }
      funcSlice := funcSlice + [wrapper];
      callbackFuncMap := callbackFuncMap[key := funcSlice];
    }

    method RemoveCallbackFunc(serviceName: string, clusters: string, wrapper: CallbackWrapper)
      modifies this
      ensures forall cached ::
                View(cached) == RemoveCallback(old(View(cached)), GetServiceCacheKey(serviceName, clusters), wrapper)
    {
      var key := GetServiceCacheKey(serviceName, clusters);
      if key in callbackFuncMap {
        var funcs := callbackFuncMap[key];
        var newFuncs: seq<CallbackWrapper> := [];
        for i := 0 to |funcs|
          invariant newFuncs == Without(funcs[..i], wrapper)
          invariant callbackFuncMap == old(callbackFuncMap) && delivered == old(delivered)
        {
          assert funcs[..i + 1][..i] == funcs[..i];
          if funcs[i].callback != wrapper.callback
            || !ClusterSelector.Equals(funcs[i].selector, Some(wrapper.selector)) {
            newFuncs := newFuncs + [funcs[i]];
          }
        }
        assert funcs[..|funcs|] == funcs;
        callbackFuncMap := callbackFuncMap[key := newFuncs];
      }
    }

    method ServiceChanged(cacheKey: string, service: Service)
      modifies this
      ensures callbackFuncMap == old(callbackFuncMap)
      ensures delivered == old(delivered) +
        Notify(if cacheKey in callbackFuncMap then callbackFuncMap[cacheKey] else [], cacheKey, service)
    {
      if cacheKey in callbackFuncMap {
        var funcs := callbackFuncMap[cacheKey];
        for i := 0 to |funcs|
          invariant callbackFuncMap == old(callbackFuncMap)
          invariant delivered == old(delivered) + Notify(funcs[..i], cacheKey, service)
        {
          assert funcs[..i + 1][..i] == funcs[..i];
          var instances := ClusterSelector.SelectInstance(funcs[i].selector, service);
          delivered := delivered + [Delivery(cacheKey, funcs[i], instances)];
        }
        assert funcs[..|funcs|] == funcs;
      }
    }
  }

  method IsServiceInstanceChanged(env: Env, oldService: Service, newService: Service) returns (changed: bool)
    ensures changed == Changed(env, oldService, newService)
  {
    if |Hosts(oldService)| != |Hosts(newService)| {
      return true;
    }
    if oldService.lastRefTime > newService.lastRefTime {
      return false;
    }
    var oldInstance := match oldService.hosts case None => None case Some(hosts) => Some(env.sort(hosts));
    var newInstance := Some(env.sort(Hosts(newService)));
    changed := oldInstance != newInstance;
  }

  class ServiceInfoHolder {
    var serviceInfoMap: map<string, Service>
    const subCallback: SubscribeCallback
    const env: Env

    ghost function Contents(): Holder
      reads this, subCallback
    {
      subCallback.View(serviceInfoMap)
    }

    /** `loaded` is what the snapshot directory holds. */
    constructor (env: Env, loaded: map<string, Service>)
      ensures fresh(subCallback) && this.env == env
      ensures Contents() == Holder(loaded, map[], [])
    {
      this.env := env;
      serviceInfoMap := loaded;
      subCallback := new SubscribeCallback();
    }

    method ProcessService(service: Option<Service>)
      modifies this, subCallback
      ensures Contents() == Process(env, old(Contents()), service)
    {
      if service.None? {
        return;
      }
      var s := service.value;
      if !env.updateCacheWhenEmpty {
        if s.hosts.None? || |s.hosts.value| == 0 {
          return;
        }
      }
      var cacheKey := GetServiceCacheKey(GetGroupName(s.name, s.groupName), s.clusters);
      var known := cacheKey in serviceInfoMap;
      if known && serviceInfoMap[cacheKey].lastRefTime >= s.lastRefTime {
        return;
      }
      var announce := true;
      if known {
        announce := IsServiceInstanceChanged(env, serviceInfoMap[cacheKey], s);
      }
      serviceInfoMap := serviceInfoMap[cacheKey := s];
      if announce {
        subCallback.ServiceChanged(cacheKey, s);
      }
    }

    method RegisterCallback(serviceName: string, clusters: string, wrapper: CallbackWrapper)
      modifies subCallback
      ensures Contents() == Apply(env, old(Contents()),
                                  NamingCacheSpec.RegisterCallback(serviceName, clusters, wrapper))
    {
      subCallback.AddCallbackFunc(serviceName, clusters, wrapper);
    }

    method DeregisterCallback(serviceName: string, clusters: string, wrapper: CallbackWrapper)
      modifies subCallback
      ensures Contents() == Apply(env, old(Contents()),
                                  NamingCacheSpec.DeregisterCallback(serviceName, clusters, wrapper))
    {
      subCallback.RemoveCallbackFunc(serviceName, clusters, wrapper);
    }

    method StopUpdateIfContain(serviceName: string, clusters: string)
      modifies this
      ensures Contents() == Apply(env, old(Contents()), NamingCacheSpec.StopUpdateIfContain(serviceName, clusters))
    {
      var cacheKey := GetServiceCacheKey(serviceName, clusters);
      serviceInfoMap := serviceInfoMap - {cacheKey};
    }

    method Serve(op: Op)
      modifies this, subCallback
      ensures Contents() == Apply(env, old(Contents()), op)
    {
      match op {
        case RegisterCallback(serviceName, clusters, w) => RegisterCallback(serviceName, clusters, w);
        case DeregisterCallback(serviceName, clusters, w) => DeregisterCallback(serviceName, clusters, w);
        case ProcessService(update) => ProcessService(update);
        case StopUpdateIfContain(serviceName, clusters) => StopUpdateIfContain(serviceName, clusters);
      }
    }
  }

  /** A new holder serves `ops` one after another; `final` is the cache it ends with. */
  method ServeAll(env: Env, loaded: map<string, Service>, ops: seq<Op>)
    returns (final: map<string, Service>, delivered: seq<Delivery>)
    ensures var h := Run(env, Holder(loaded, map[], []), ops); final == h.cached && delivered == h.delivered
  {
    var holder := new ServiceInfoHolder(env, loaded);
    for i := 0 to |ops|
      invariant fresh(holder) && fresh(holder.subCallback) && holder.env == env
      invariant holder.Contents() == Run(env, Holder(loaded, map[], []), ops[..i])
    {
      holder.Serve(ops[i]);
      assert ops[..i + 1][..i] == ops[..i];
    }
    assert ops[..|ops|] == ops;
    final, delivered := holder.serviceInfoMap, holder.subCallback.delivered;
  }
}
