/**
Subscribing through the naming client, on values: the callback registry, the service cache and the
redo cache change together, and the caller's parameter structs are part of the state.  A callback
is identified by the address of the struct it was passed in.
 */
module NamingClientSpec {
  import opened Wrappers
  import opened NamingModel
  import opened ServiceKeys
  import ClusterSelector
  import opened Cache = NamingCacheSpec
  import Redo = NamingRedo
  import opened NamingGrpc

  const DEFAULT_GROUP := "DEFAULT_GROUP"

  datatype Fields = Fields(serviceName: string, groupName: string, clusters: seq<string>)

  datatype Core = Core(holder: Holder, caches: Redo.Caches)

  datatype State = State(core: Core, params: map<nat, Fields>)

  datatype ClientOp =
    | Assigning(address: nat, fields: Fields)
    | Subscribing(address: nat, answer: Option<Service>)
    | Unsubscribing(address: nat)
    | Updating(update: Option<Service>)
    | Querying(serviceName: string, groupName: string, answer: Option<Service>)
    | Reconnecting(redo: seq<Redo.Call>, answers: nat -> Option<Service>, from: nat)

  function FullName(f: Fields): string {
    GetGroupName(f.serviceName, f.groupName)
  }

  function TargetOf(f: Fields): Target {
    Target(f.serviceName, f.groupName, "")
  }

  ghost function WrapperOf(address: nat, f: Fields): CallbackWrapper {
    CallbackWrapper(address, ClusterSelector.Selector(f.clusters))
  }

  /** What `Subscribe` writes into the caller's struct. */
  function Defaulted(f: Fields): Fields {
    if f.groupName == "" then f.(groupName := DEFAULT_GROUP) else f
  }

  // The proxy delegate

  /** The service the delegate processes: the cached one, or the answer to a new request. */
  function Subscribed(c: Core, t: Target, answer: Option<Service>): Option<Service> {
    var key := SubscribeKey(t);
    if key in c.caches.subscribes && key in c.holder.cached then Some(c.holder.cached[key]) else answer
  }

  function DelegateSubscribe(env: Env, c: Core, t: Target, answer: Option<Service>): Core {
    var key := SubscribeKey(t);
    Core(Process(env, c.holder, Subscribed(c, t, answer)),
         if key in c.caches.subscribes && key in c.holder.cached then c.caches
           else Redo.Apply(c.caches, Redo.Subscribe(t)))
  }

  function DelegateUnsubscribe(c: Core, t: Target): Core {
    Core(c.holder.(cached := c.holder.cached - {SubscribeKey(t)}), Redo.Apply(c.caches, Redo.Unsubscribe(t)))
  }

  // The client

  ghost function ClientSubscribe(env: Env, c: Core, address: nat, f: Fields, answer: Option<Service>): Core {
    var g := Defaulted(f);
    DelegateSubscribe(env, c.(holder := AddCallback(c.holder, FullName(g), WrapperOf(address, g))), TargetOf(g), answer)
  }

  ghost function ClientUnsubscribe(c: Core, address: nat, f: Fields): Core {
    var removed := c.(holder := RemoveCallback(c.holder, FullName(f), WrapperOf(address, f)));
    if FuncsAt(removed.holder, FullName(f)) == [] then DelegateUnsubscribe(removed, TargetOf(f)) else removed
  }

  ghost function Step(env: Env, s: State, op: ClientOp): State {
    match op
    case Assigning(a, f) => s.(params := s.params[a := f])
    case Subscribing(a, answer) =>
      if a !in s.params then s
      else State(ClientSubscribe(env, s.core, a, s.params[a], answer), s.params[a := Defaulted(s.params[a])])
    case Unsubscribing(a) =>
      if a !in s.params then s else s.(core := ClientUnsubscribe(s.core, a, s.params[a]))
    case Updating(update) => s.(core := s.core.(holder := Process(env, s.core.holder, update)))
    case Querying(serviceName, groupName, answer) =>
      var f := Defaulted(Fields(serviceName, groupName, []));
      if FullName(f) in s.core.holder.cached then s else s.(core := DelegateSubscribe(env, s.core, TargetOf(f), answer))
    case Reconnecting(redo, answers, from) =>
      s.(core := Core(Run(env, s.core.holder, Fed(answers, from, redo)), Redo.Run(s.core.caches, redo)))
  }

  ghost function Steps(env: Env, s: State, ops: seq<ClientOp>): State {
    if ops == [] then s else Step(env, Steps(env, s, ops[..|ops| - 1]), ops[|ops| - 1])
  }

  /** Every reconnect replays the redo caches as they stand. */
  ghost predicate Possible(env: Env, s: State, ops: seq<ClientOp>) {
    ops == [] ||
    var front, last := ops[..|ops| - 1], ops[|ops| - 1];
    Possible(env, s, front) && (last.Reconnecting? ==> Redo.IsRedo(Steps(env, s, front).core.caches, last.redo))
  }

  lemma {:induction false} StepsConcat(env: Env, s: State, a: seq<ClientOp>, b: seq<ClientOp>)
    ensures Steps(env, s, a + b) == Steps(env, Steps(env, s, a), b)
  {
    if b == [] {
      assert a + b == a;
    } else {
      var n := |b| - 1;
      StepsConcat(env, s, a, b[..n]);
      assert (a + b)[..|a + b| - 1] == a + b[..n];
    }
  }

  // Subscribe is undone by the same struct and by no other

  /** Unsubscribing with another struct leaves every callback of this one, at every key. */
  lemma OtherStructNeverMatches(env: Env, s: State, a: nat, b: nat, key: string, w: CallbackWrapper)
    requires a != b && w.callback == a && w in FuncsAt(s.core.holder, key)
    ensures w in FuncsAt(Step(env, s, Unsubscribing(b)).core.holder, key)
  {
  }

  lemma {:induction false} FieldsStay(env: Env, s: State, a: nat, ops: seq<ClientOp>)
    requires a in s.params && Defaulted(s.params[a]) == s.params[a]
    requires forall i :: 0 <= i < |ops| ==> !(ops[i].Assigning? && ops[i].address == a)
    ensures a in Steps(env, s, ops).params && Steps(env, s, ops).params[a] == s.params[a]
  {
    if ops != [] {
      FieldsStay(env, s, a, ops[..|ops| - 1]);
    }
  }

  /**
  Unsubscribing with the struct of a subscription, whatever happened in between and whether or not
  its group was left empty, leaves no callback of that subscription: `Subscribe` has written the
  group it used into the struct.
   */
  lemma SubscribeIsUndone(env: Env, s: State, a: nat, answer: Option<Service>, ops: seq<ClientOp>, f: CallbackWrapper)
    requires a in s.params
    requires forall i :: 0 <= i < |ops| ==> !(ops[i].Assigning? && ops[i].address == a)
    ensures var g := Defaulted(s.params[a]);
            var before := Steps(env, Step(env, s, Subscribing(a, answer)), ops).core;
            var after := Step(env, Steps(env, Step(env, s, Subscribing(a, answer)), ops), Unsubscribing(a)).core;
            && (f in FuncsAt(after.holder, FullName(g)) <==>
                f in FuncsAt(before.holder, FullName(g)) && !Matches(f, WrapperOf(a, g)))
            && WrapperOf(a, g) !in FuncsAt(after.holder, FullName(g))
  {
    FieldsStay(env, Step(env, s, Subscribing(a, answer)), a, ops);
    UnsubscribeRemoves(env, Steps(env, Step(env, s, Subscribing(a, answer)), ops), a, Defaulted(s.params[a]), f);
  }

  lemma UnsubscribeRemoves(env: Env, s: State, a: nat, g: Fields, f: CallbackWrapper)
    requires a in s.params && s.params[a] == g
    ensures var after := Step(env, s, Unsubscribing(a)).core.holder;
            && (f in FuncsAt(after, FullName(g)) <==>
                f in FuncsAt(s.core.holder, FullName(g)) && !Matches(f, WrapperOf(a, g)))
            && WrapperOf(a, g) !in FuncsAt(after, FullName(g))
  {
    assert Matches(WrapperOf(a, g), WrapperOf(a, g));
  }

  // The subscriber's view, through the client

  /** The calls on the service cache that a client operation makes. */
  ghost function CacheOps(s: State, op: ClientOp): seq<Op> {
    match op
    case Assigning(_, _) => []
    case Subscribing(a, answer) =>
      if a !in s.params then []
      else
        var g := Defaulted(s.params[a]);
        [RegisterCallback(FullName(g), "", WrapperOf(a, g)), ProcessService(Subscribed(s.core, TargetOf(g), answer))]
    case Unsubscribing(a) =>
      if a !in s.params then []
      else
        var f := s.params[a];
        var deregister := DeregisterCallback(FullName(f), "", WrapperOf(a, f));
        if FuncsAt(RemoveCallback(s.core.holder, FullName(f), WrapperOf(a, f)), FullName(f)) == []
        then [deregister, StopUpdateIfContain(FullName(f), "")]
        else [deregister]
    case Updating(update) => [ProcessService(update)]
    case Querying(serviceName, groupName, answer) =>
      var f := Defaulted(Fields(serviceName, groupName, []));
      if FullName(f) in s.core.holder.cached then [] else [ProcessService(Subscribed(s.core, TargetOf(f), answer))]
    case Reconnecting(redo, answers, from) => Fed(answers, from, redo)
  }

  lemma RunOne(env: Env, h: Holder, op: Op)
    ensures Run(env, h, [op]) == Apply(env, h, op)
  {
    assert [op][..0] == [];
  }

  lemma RunTwo(env: Env, h: Holder, a: Op, b: Op)
    ensures Run(env, h, [a, b]) == Apply(env, Apply(env, h, a), b)
  {
    RunOne(env, h, a);
    assert [a, b][..1] == [a];
  }

  lemma StepRunsCache(env: Env, s: State, op: ClientOp)
    ensures Step(env, s, op).core.holder == Run(env, s.core.holder, CacheOps(s, op))
  {
    var ops := CacheOps(s, op);
    if |ops| == 1 {
      RunOne(env, s.core.holder, ops[0]);
    } else if |ops| == 2 && !op.Reconnecting? {
      RunTwo(env, s.core.holder, ops[0], ops[1]);
    }
  }

  lemma {:induction false} FedRemovesNothing(answers: nat -> Option<Service>, from: nat, redo: seq<Redo.Call>,
                                             key: string, w: CallbackWrapper)
    ensures forall i :: 0 <= i < |Fed(answers, from, redo)| ==> !Removes(Fed(answers, from, redo)[i], key, w)
  {
    if redo != [] {
      FedRemovesNothing(answers, from, redo[..|redo| - 1], key, w);
    }
  }

  lemma OnlyOwnStructRemoves(s: State, op: ClientOp, key: string, w: CallbackWrapper)
    requires !(op.Unsubscribing? && op.address == w.callback)
    ensures forall i :: 0 <= i < |CacheOps(s, op)| ==> !Removes(CacheOps(s, op)[i], key, w)
  {
    if op.Reconnecting? {
      FedRemovesNothing(op.answers, op.from, op.redo, key, w);
    }
  }

  lemma {:induction false} ViewKept(env: Env, s: State, ops: seq<ClientOp>, key: string, w: CallbackWrapper)
    requires Permutes(env.sort) && UpToDate(s.core.holder, key, w)
    requires forall i :: 0 <= i < |ops| ==> !(ops[i].Unsubscribing? && ops[i].address == w.callback)
    ensures UpToDate(Steps(env, s, ops).core.holder, key, w)
  {
    if ops != [] {
      var front, last := ops[..|ops| - 1], ops[|ops| - 1];
      ViewKept(env, s, front, key, w);
      var before := Steps(env, s, front);
      StepRunsCache(env, before, last);
      OnlyOwnStructRemoves(before, last, key, w);
      UpToDateRun(env, before.core.holder, CacheOps(before, last), key, w);
    }
  }

  /**
  A callback subscribed while its service is uncached knows, up to order, the cached hosts its
  selector admits, through every later subscription, query, push and reconnect, until its own
  struct is used to unsubscribe.
   */
  lemma ClientSubscriberView(env: Env, s: State, a: nat, answer: Option<Service>, ops: seq<ClientOp>)
    requires Permutes(env.sort) && a in s.params && FullName(Defaulted(s.params[a])) !in s.core.holder.cached
    requires forall i :: 0 <= i < |ops| ==> !(ops[i].Unsubscribing? && ops[i].address == a)
    ensures var g := Defaulted(s.params[a]);
            UpToDate(Steps(env, Step(env, s, Subscribing(a, answer)), ops).core.holder, FullName(g), WrapperOf(a, g))
  {
    var g := Defaulted(s.params[a]);
    var w := WrapperOf(a, g);
    var registered := AddCallback(s.core.holder, FullName(g), w);
    ProcessUpToDate(env, registered, Subscribed(s.core, TargetOf(g), answer), FullName(g), w);
    ViewKept(env, Step(env, s, Subscribing(a, answer)), ops, FullName(g), w);
  }

  /** What a query returns: the cached service, or the answer to a new subscription. */
  function Found(c: Core, f: Fields, answer: Option<Service>): Option<Service> {
    if FullName(f) in c.holder.cached then Some(c.holder.cached[FullName(f)]) else answer
  }

  /**
  When the first answer of a service is usable, the new callback has been told its hosts and a
  following query returns it without asking again.
   */
  lemma FirstAnswerArrives(env: Env, s: State, a: nat, x: Service, answer: Option<Service>)
    requires a in s.params && FullName(Defaulted(s.params[a])) !in s.core.holder.cached
    requires TargetOfService(x) == TargetOf(Defaulted(s.params[a])) && (env.updateCacheWhenEmpty || Hosts(x) != [])
    ensures var g := Defaulted(s.params[a]);
            var after := Step(env, s, Subscribing(a, Some(x)));
            && LastDelivered(after.core.holder.delivered, FullName(g), WrapperOf(a, g))
                 == Some(ClusterSelector.Select(ClusterSelector.Selector(g.clusters), Hosts(x)))
            && Step(env, after, Querying(g.serviceName, s.params[a].groupName, answer)) == after
            && Found(after.core, g, answer) == Some(x)
  {
    var g := Defaulted(s.params[a]);
    FirstAnswerStored(env, s.core, a, g, x);
    QueryFindsCached(env, Step(env, s, Subscribing(a, Some(x))), g, s.params[a].groupName, answer);
  }

  lemma FirstAnswerStored(env: Env, c: Core, a: nat, g: Fields, x: Service)
    requires FullName(g) !in c.holder.cached && Defaulted(g) == g
    requires TargetOfService(x) == TargetOf(g) && (env.updateCacheWhenEmpty || Hosts(x) != [])
    ensures var after := ClientSubscribe(env, c, a, g, Some(x)).holder;
            && FullName(g) in after.cached && after.cached[FullName(g)] == x
            && LastDelivered(after.delivered, FullName(g), WrapperOf(a, g))
                 == Some(ClusterSelector.Select(ClusterSelector.Selector(g.clusters), Hosts(x)))
  {
    var w := WrapperOf(a, g);
    UpdateReachesItsService(env, AddCallback(c.holder, FullName(g), w), x, w);
  }

  lemma QueryFindsCached(env: Env, s: State, g: Fields, group: string, answer: Option<Service>)
    requires g.groupName == Defaulted(g.(groupName := group)).groupName && FullName(g) in s.core.holder.cached
    ensures Step(env, s, Querying(g.serviceName, group, answer)) == s
  {
  }

  /** An empty group means the default one. */
  function GroupOf(group: string): string {
    if group == "" then "DEFAULT_GROUP" else group
  }

  /** `Subscribe` registers at the service in the group, or in the default group, and writes that into the struct. */
  lemma SubscribesInGroup(env: Env, s: State, a: nat, answer: Option<Service>)
    requires a in s.params
    ensures var f := s.params[a];
            var after := Step(env, s, Subscribing(a, answer));
            && after.params == s.params[a := f.(groupName := GroupOf(f.groupName))]
            && CallbackWrapper(a, ClusterSelector.Selector(f.clusters))
                 in FuncsAt(after.core.holder, SubscribeKey(Target(f.serviceName, GroupOf(f.groupName), "")))
  {
    var g := Defaulted(s.params[a]);
    ProcessKeepsFuncs(env, AddCallback(s.core.holder, FullName(g), WrapperOf(a, g)),
                      Subscribed(s.core, TargetOf(g), answer), FullName(g));
  }

  /** A client whose loaded cache is filed under the services' names stays that way. */
  lemma {:induction false} FiledSteps(env: Env, s: State, ops: seq<ClientOp>)
    requires Filed(s.core.holder.cached)
    ensures Filed(Steps(env, s, ops).core.holder.cached)
  {
    if ops != [] {
      var front, last := ops[..|ops| - 1], ops[|ops| - 1];
      FiledSteps(env, s, front);
      StepRunsCache(env, Steps(env, s, front), last);
      FiledRun(env, Steps(env, s, front).core.holder, CacheOps(Steps(env, s, front), last));
    }
  }

  /** A service that is subscribed and cached is not asked for again, whatever the answer would be. */
  lemma SecondSubscriptionAsksNothing(env: Env, s: State, a: nat, answer: Option<Service>)
    requires a in s.params && FullName(Defaulted(s.params[a])) in s.core.caches.subscribes
    requires FullName(Defaulted(s.params[a])) in s.core.holder.cached
    requires Filed(s.core.holder.cached)
    ensures var g := Defaulted(s.params[a]);
            Step(env, s, Subscribing(a, answer)).core
              == s.core.(holder := AddCallback(s.core.holder, FullName(g), WrapperOf(a, g)))
    ensures Subscribed(s.core, TargetOf(Defaulted(s.params[a])), answer) == Some(CachedFor(s, a))
  {
  }

  /** What is cached for the service of the struct at `a`, if anything is. */
  function CachedFor(s: State, a: nat): Service
    requires a in s.params && FullName(Defaulted(s.params[a])) in s.core.holder.cached
  {
    s.core.holder.cached[FullName(Defaulted(s.params[a]))]
  }

  /**
  A struct that names another service or other clusters by the time it is used to unsubscribe
  leaves its callback behind.
   */
  lemma ChangedStructLeavesCallback(env: Env, s: State, a: nat, f: Fields, key: string, w: CallbackWrapper)
    requires w in FuncsAt(s.core.holder, key)
    requires FullName(f) != key || ClusterSelector.Selector(f.clusters).clusterNames != w.selector.clusterNames
    ensures w in FuncsAt(Step(env, Step(env, s, Assigning(a, f)), Unsubscribing(a)).core.holder, key)
  {
  }

  // The redo cache follows the callbacks

  /** Every key with a live callback is cached for redo. */
  ghost predicate Covered(c: Core) {
    forall key :: FuncsAt(c.holder, key) != [] ==> key in c.caches.subscribes
  }

  lemma ProcessKeepsFuncs(env: Env, h: Holder, update: Option<Service>, key: string)
    ensures FuncsAt(Process(env, h, update), key) == FuncsAt(h, key)
  {
  }

  lemma {:induction false} FedKeepsFuncs(env: Env, h: Holder, answers: nat -> Option<Service>, from: nat,
                                         redo: seq<Redo.Call>, key: string)
    ensures FuncsAt(Run(env, h, Fed(answers, from, redo)), key) == FuncsAt(h, key)
  {
    if redo != [] {
      var n := |redo| - 1;
      FedKeepsFuncs(env, h, answers, from, redo[..n], key);
      assert redo == redo[..n] + [redo[n]];
      FedStep(env, h, answers, from, redo[..n], redo[n]);
      ProcessKeepsFuncs(env, Run(env, h, Fed(answers, from, redo[..n])),
                        if redo[n].Subscribe? then answers(from + n) else None, key);
    }
  }

  lemma {:induction false} SubscribesGrow(c: Redo.Caches, redo: seq<Redo.Call>)
    requires forall i :: 0 <= i < |redo| ==> !redo[i].Unsubscribe?
    ensures c.subscribes <= Redo.Run(c, redo).subscribes
  {
    if redo != [] {
      SubscribesGrow(c, redo[..|redo| - 1]);
    }
  }

  lemma RedoNeverUnsubscribes(c: Redo.Caches, redo: seq<Redo.Call>)
    requires Redo.IsRedo(c, redo)
    ensures forall i :: 0 <= i < |redo| ==> !redo[i].Unsubscribe?
  {
    var keys, items :| Redo.RedoInOrder(c, keys, items, redo);
  }

  lemma ReconnectFuncs(env: Env, s: State, op: ClientOp, key: string)
    requires op.Reconnecting?
    ensures FuncsAt(Step(env, s, op).core.holder, key) == FuncsAt(s.core.holder, key)
  {
    FedKeepsFuncs(env, s.core.holder, op.answers, op.from, op.redo, key);
  }

  lemma CoveredStep(env: Env, s: State, op: ClientOp)
    requires Covered(s.core) && (op.Reconnecting? ==> Redo.IsRedo(s.core.caches, op.redo))
    ensures Covered(Step(env, s, op).core)
  {
    forall key | FuncsAt(Step(env, s, op).core.holder, key) != []
      ensures key in Step(env, s, op).core.caches.subscribes
    {
      if op.Reconnecting? {
        ReconnectFuncs(env, s, op, key);
        RedoNeverUnsubscribes(s.core.caches, op.redo);
        SubscribesGrow(s.core.caches, op.redo);
      }
    }
  }

  lemma {:induction false} CoveredRun(env: Env, s: State, ops: seq<ClientOp>)
    requires Covered(s.core) && Possible(env, s, ops)
    ensures Covered(Steps(env, s, ops).core)
  {
    if ops != [] {
      CoveredRun(env, s, ops[..|ops| - 1]);
      CoveredStep(env, Steps(env, s, ops[..|ops| - 1]), ops[|ops| - 1]);
    }
  }

  function NewState(loaded: map<string, Service>): State {
    State(Core(Holder(loaded, map[], []), Redo.EMPTY), map[])
  }

  /** A reconnect re-subscribes what the redo loop reads off the key of every live callback. */
  lemma LiveKeyIsRedone(env: Env, loaded: map<string, Service>, ops: seq<ClientOp>, redo: seq<Redo.Call>, key: string)
    requires Possible(env, NewState(loaded), ops)
    requires Redo.IsRedo(Steps(env, NewState(loaded), ops).core.caches, redo)
    requires FuncsAt(Steps(env, NewState(loaded), ops).core.holder, key) != []
    ensures !Clean(key) && Redo.Subscribe(Read(key)) in redo
  {
    var c := Steps(env, NewState(loaded), ops).core;
    CoveredRun(env, NewState(loaded), ops);
    assert key in c.caches.subscribes;
    var keys, items :| Redo.RedoInOrder(c.caches, keys, items, redo);
    var i :| 0 <= i < |keys| && keys[i] == key;
    assert redo[i] == Redo.Subscribe(Read(key));
  }

  /**
  After any run of the client, queries included, a reconnect re-subscribes every separable target
  with a live callback, and no other target: one that is not separable is replaced by another.
   */
  lemma LiveCallbacksAreRedone(env: Env, loaded: map<string, Service>, ops: seq<ClientOp>, redo: seq<Redo.Call>,
                               t: Target)
    requires Possible(env, NewState(loaded), ops)
    requires Redo.IsRedo(Steps(env, NewState(loaded), ops).core.caches, redo)
    requires FuncsAt(Steps(env, NewState(loaded), ops).core.holder, SubscribeKey(t)) != []
    ensures Redo.Subscribe(t) in redo <==> Separable(t)
    ensures !Clean(SubscribeKey(t)) && Redo.Subscribe(Read(SubscribeKey(t))) in redo
  {
    LiveKeyIsRedone(env, loaded, ops, redo, SubscribeKey(t));
    ReadBack(t);
    if Redo.Subscribe(t) in redo {
      Redo.RedoneIsSeparable(Steps(env, NewState(loaded), ops).core.caches, redo, t);
    }
  }

  /** No client operation makes the redo loops read out of range. */
  lemma ReadableAfter(env: Env, s: State, op: ClientOp)
    requires Redo.Readable(s.core.caches)
    ensures Redo.Readable(Step(env, s, op).core.caches)
  {
    match op
    case Subscribing(a, _) =>
      if a in s.params {
        Redo.ReadableStep(s.core.caches, Redo.Subscribe(TargetOf(Defaulted(s.params[a]))));
      }
    case Querying(serviceName, groupName, _) =>
      Redo.ReadableStep(s.core.caches, Redo.Subscribe(TargetOf(Defaulted(Fields(serviceName, groupName, [])))));
    case Reconnecting(redo, _, _) => ReadableRun(s.core.caches, redo);
    case _ =>
  }

  // With separable names, exactly which keys are cached for redo

  predicate SeparableFields(f: Fields) {
    Separable(TargetOf(Defaulted(f))) && Separable(TargetOf(f))
  }

  function QueryFields(op: ClientOp): Fields
    requires op.Querying?
  {
    Defaulted(Fields(op.serviceName, op.groupName, []))
  }

  /** `op` mentions only separable names. */
  predicate Plain(op: ClientOp) {
    && (op.Assigning? ==> SeparableFields(op.fields))
    && (op.Querying? ==> Separable(TargetOf(QueryFields(op))))
  }

  /** `op` asks for `key` while it is uncached. */
  predicate Asks(s: State, op: ClientOp, key: string) {
    op.Querying? && FullName(QueryFields(op)) == key && key !in s.core.holder.cached
  }

  /** `op` unsubscribes at `key` and leaves no callback there. */
  ghost predicate Empties(s: State, op: ClientOp, key: string) {
    && op.Unsubscribing? && op.address in s.params
    && var f := s.params[op.address];
       FullName(f) == key && FuncsAt(RemoveCallback(s.core.holder, key, WrapperOf(op.address, f)), key) == []
  }

  /** `key` was asked for while uncached, and since then no unsubscription has left it without a callback. */
  ghost predicate Asked(env: Env, s: State, ops: seq<ClientOp>, key: string) {
    ops != [] &&
    var front, last := ops[..|ops| - 1], ops[|ops| - 1];
    var before := Steps(env, s, front);
    Asks(before, last, key) || (!Empties(before, last, key) && Asked(env, s, front, key))
  }

  ghost predicate SeparableState(s: State) {
    Redo.Faithful(s.core.caches) && forall a :: a in s.params ==> SeparableFields(s.params[a])
  }

  lemma SubscribeCaches(env: Env, c: Core, t: Target, answer: Option<Service>)
    ensures DelegateSubscribe(env, c, t, answer).caches == Redo.Apply(c.caches, Redo.Subscribe(t))
  {
    var key := SubscribeKey(t);
    if key in c.caches.subscribes {
      assert c.caches.subscribes + {key} == c.caches.subscribes;
    }
  }

  lemma RedoKeepsCaches(c: Redo.Caches, redo: seq<Redo.Call>)
    requires Redo.Faithful(c) && Redo.IsRedo(c, redo)
    ensures Redo.Run(c, redo) == c
  {
    var keys, items :| Redo.RedoInOrder(c, keys, items, redo);
    Redo.RedoIsIdle(c, keys, items, redo);
  }

  /** What a client operation does to the redo caches. */
  ghost function CachesAfter(s: State, op: ClientOp): Redo.Caches {
    match op
    case Subscribing(a, _) =>
      if a in s.params then Redo.Apply(s.core.caches, Redo.Subscribe(TargetOf(Defaulted(s.params[a]))))
        else s.core.caches
    case Unsubscribing(a) =>
      if a in s.params && Empties(s, op, FullName(s.params[a]))
      then Redo.Apply(s.core.caches, Redo.Unsubscribe(TargetOf(s.params[a])))
      else s.core.caches
    case Querying(_, _, _) =>
      if Asks(s, op, FullName(QueryFields(op)))
      then Redo.Apply(s.core.caches, Redo.Subscribe(TargetOf(QueryFields(op))))
      else s.core.caches
    case _ => s.core.caches
  }

  lemma CachesStep(env: Env, s: State, op: ClientOp)
    requires op.Reconnecting? ==> Redo.Faithful(s.core.caches) && Redo.IsRedo(s.core.caches, op.redo)
    ensures Step(env, s, op).core.caches == CachesAfter(s, op)
  {
    match op
    case Subscribing(a, answer) =>
      if a in s.params {
        SubscribingCaches(env, s.core, a, s.params[a], answer);
      }
    case Unsubscribing(_) => UnsubscribingCaches(env, s, op);
    case Querying(_, _, _) => QueryingCaches(env, s, op);
    case Reconnecting(redo, _, _) => RedoKeepsCaches(s.core.caches, redo);
    case _ =>
  }

  lemma UnsubscribingCaches(env: Env, s: State, op: ClientOp)
    requires op.Unsubscribing?
    ensures Step(env, s, op).core.caches == CachesAfter(s, op)
  {
  }

  lemma QueryingCaches(env: Env, s: State, op: ClientOp)
    requires op.Querying?
    ensures Step(env, s, op).core.caches == CachesAfter(s, op)
  {
    SubscribeCaches(env, s.core, TargetOf(QueryFields(op)), op.answer);
  }

  lemma SubscribingCaches(env: Env, c: Core, a: nat, f: Fields, answer: Option<Service>)
    ensures ClientSubscribe(env, c, a, f, answer).caches
         == Redo.Apply(c.caches, Redo.Subscribe(TargetOf(Defaulted(f))))
  {
    var g := Defaulted(f);
    SubscribeCaches(env, c.(holder := AddCallback(c.holder, FullName(g), WrapperOf(a, g))), TargetOf(g), answer);
  }

  lemma FaithfulAfter(s: State, op: ClientOp)
    requires SeparableState(s) && Plain(op)
    ensures Redo.Faithful(CachesAfter(s, op))
  {
    match op
    case Subscribing(a, _) =>
      if a in s.params {
        FaithfulCall(s.core.caches, TargetOf(Defaulted(s.params[a])), CachesAfter(s, op));
      }
    case Unsubscribing(a) =>
      if a in s.params {
        FaithfulCall(s.core.caches, TargetOf(s.params[a]), CachesAfter(s, op));
      }
    case Querying(_, _, _) => FaithfulCall(s.core.caches, TargetOf(QueryFields(op)), CachesAfter(s, op));
    case _ =>
  }

  lemma FaithfulCall(c: Redo.Caches, t: Target, d: Redo.Caches)
    requires Redo.Faithful(c) && Separable(t)
    requires d == c || d == Redo.Apply(c, Redo.Subscribe(t)) || d == Redo.Apply(c, Redo.Unsubscribe(t))
    ensures Redo.Faithful(d)
  {
    Redo.FaithfulStep(c, Redo.Subscribe(t));
    Redo.FaithfulStep(c, Redo.Unsubscribe(t));
  }

  lemma ParamsAfter(env: Env, s: State, op: ClientOp)
    requires Plain(op) && forall a :: a in s.params ==> SeparableFields(s.params[a])
    ensures forall a :: a in Step(env, s, op).params ==> SeparableFields(Step(env, s, op).params[a])
  {
  }

  lemma {:induction false} SeparableRun(env: Env, loaded: map<string, Service>, ops: seq<ClientOp>)
    requires Possible(env, NewState(loaded), ops) && forall i :: 0 <= i < |ops| ==> Plain(ops[i])
    ensures SeparableState(Steps(env, NewState(loaded), ops))
  {
    if ops != [] {
      var front, last := ops[..|ops| - 1], ops[|ops| - 1];
      SeparableRun(env, loaded, front);
      var s := Steps(env, NewState(loaded), front);
      CachesStep(env, s, last);
      FaithfulAfter(s, last);
      ParamsAfter(env, s, last);
    }
  }

  /** What a client operation does to the callbacks at one key. */
  lemma FuncsStep(env: Env, s: State, op: ClientOp, key: string)
    ensures var now := FuncsAt(Step(env, s, op).core.holder, key);
            if op.Subscribing? && op.address in s.params && key == FullName(Defaulted(s.params[op.address]))
              then now != []
            else if op.Unsubscribing? then (Empties(s, op, key) ==> now == [])
              && (FuncsAt(s.core.holder, key) == [] ==> now == [])
                                           && (now == [] ==> Empties(s, op, key) || FuncsAt(s.core.holder, key) == [])
            else now == FuncsAt(s.core.holder, key)
  {
    if op.Reconnecting? {
      ReconnectFuncs(env, s, op, key);
    }
  }

  lemma RedoneStep(env: Env, s: State, op: ClientOp, key: string, asked: bool)
    requires op.Reconnecting? ==> Redo.Faithful(s.core.caches) && Redo.IsRedo(s.core.caches, op.redo)
    requires key in s.core.caches.subscribes <==> FuncsAt(s.core.holder, key) != [] || asked
    ensures var after := Step(env, s, op).core;
            key in after.caches.subscribes <==>
              FuncsAt(after.holder, key) != [] || Asks(s, op, key) || (!Empties(s, op, key) && asked)
  {
    CachesStep(env, s, op);
    FuncsStep(env, s, op, key);
  }

  /**
  For separable names and after every run, queries included, a key is cached for redo if and only
  if it has a live callback, or was asked for while uncached and not emptied since.
   */
  lemma {:induction false} RedoneIffLive(env: Env, loaded: map<string, Service>, ops: seq<ClientOp>, key: string)
    requires Possible(env, NewState(loaded), ops) && forall i :: 0 <= i < |ops| ==> Plain(ops[i])
    ensures key in Steps(env, NewState(loaded), ops).core.caches.subscribes <==>
              FuncsAt(Steps(env, NewState(loaded), ops).core.holder, key) != []
                || Asked(env, NewState(loaded), ops, key)
  {
    if ops != [] {
      var front, last := ops[..|ops| - 1], ops[|ops| - 1];
      RedoneIffLive(env, loaded, front, key);
      SeparableRun(env, loaded, front);
      RedoneStep(env, Steps(env, NewState(loaded), front), last, key, Asked(env, NewState(loaded), front, key));
    }
  }
}
