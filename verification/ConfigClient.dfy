/**
The config client itself: a map of listened configurations whose values are copied in and out,
each pointing to a listener record on the heap that is shared between the copies.  Every method
is proved against the function of the same name in `ConfigSpec`; loops visit the map in an
arbitrary order.
 */
module ConfigClient {
  import opened Wrappers
  import opened ConfigSpec

  class CacheDataListener {
    var lastMd5: string
    var history: seq<string>   // registration md5, then the md5 of each executeListener run
    ghost const home: string   // the one key whose entry points here

    constructor (md5: string, ghost key: string)
      ensures lastMd5 == md5 && history == [md5] && home == key
    {
      lastMd5 := md5;
      history := [md5];
      home := key;
    }
  }

  datatype CacheData = CacheData(
    id: ConfigId,
    content: string,
    contentType: string,
    dataKey: string,
    md5: string,
    listener: CacheDataListener,
    taskId: nat,
    initializing: bool,
    synced: bool)

  ghost function EntryOf(d: CacheData): Entry
    reads d.listener
  {
    Entry(d.id, d.content, d.contentType, d.dataKey, d.md5, d.listener.lastMd5, d.listener.history,
          d.taskId, d.initializing, d.synced)
  }

  function ContextOf(d: CacheData): ListenContext {
    ListenContext(d.id, d.md5)
  }

  class Client {
    const md5: string -> string
    const tenant: string
    var cacheMap: map<string, CacheData>
    var clock: nat
    ghost var records: set<CacheDataListener>   // every listener record registered so far
    ghost var view: State                       // the map and the records, as a value

    /** `view` is what the map and the listener records hold; no two keys share a record. */
    ghost predicate Valid()
      reads this, records
    {
      && view.clock == clock
      && view.entries.Keys == cacheMap.Keys
      && (forall k :: k in cacheMap ==> Placed(k, cacheMap[k]) && view.entries[k] == EntryOf(cacheMap[k]))
    }

    ghost predicate Placed(k: string, d: CacheData)
      reads this
    {
      k == Key(d.id) && d.listener in records && d.listener.home == k
    }

    lemma NoSharedListener(j: string, k: string)
      requires Valid() && j in cacheMap && k in cacheMap && j != k
      ensures cacheMap[j].listener != cacheMap[k].listener
    {
      assert Placed(j, cacheMap[j]) && Placed(k, cacheMap[k]);
    }

    constructor (md5: string -> string, tenant: string)
      ensures Valid() && view == EMPTY && this.md5 == md5 && this.tenant == tenant && records == {}
    {
      this.md5 := md5;
      this.tenant := tenant;
      cacheMap := map[];
      clock := 0;
      records := {};
      view := EMPTY;
    }

    /** `cacheMap.Set` under the key built from the value's own fields. */
    method Set(key: string, d: CacheData)
      requires Valid() && Placed(key, d)
      modifies this`cacheMap, this`view
      ensures cacheMap == old(cacheMap)[key := d] && Valid()
      ensures view == State(old(view).entries[key := EntryOf(d)], clock)
    {
      cacheMap := cacheMap[key := d];
      view := State(view.entries[key := EntryOf(d)], clock);
    }

    method ListenConfig(dataId: string, group: string, fileContent: string, fileDataKey: string)
      returns (ok: bool)
      requires Valid()
      modifies this`cacheMap, this`records, this`view
      ensures Valid() && records >= old(records) && fresh(records - old(records))
      ensures ok == (dataId != "" && group != "")
      ensures view == Listen(md5, old(view), ConfigId(dataId, group, tenant), fileContent, fileDataKey)
    {
      var id := ConfigId(dataId, group, tenant);
      if dataId == "" || group == "" {
        return false;
      }
      if Key(id) in cacheMap {
        Set(Key(id), cacheMap[Key(id)].(initializing := true));
      } else {
        var md5Str := if |fileContent| > 0 then md5(fileContent) else "";
        var listener := new CacheDataListener(md5Str, Key(id));
        records := records + {listener};
        assert |view.entries.Keys| == |cacheMap.Keys|;
        Set(Key(id), CacheData(id, fileContent, "", fileDataKey, md5Str, listener,
                               |cacheMap| / PER_TASK_CONFIG_SIZE, true, false));
      }
      ok := true;
    }

    method CancelListenConfig(dataId: string, group: string)
      requires Valid()
      modifies this`cacheMap, this`view
      ensures Valid()
      ensures view == Cancel(old(view), ConfigId(dataId, group, tenant))
    {
      cacheMap := cacheMap - {Key(ConfigId(dataId, group, tenant))};
      view := Cancel(view, ConfigId(dataId, group, tenant));
    }

    /** The server push handler. */
    method RequestReply(id: ConfigId) returns (handled: bool)
      requires Valid()
      modifies this`cacheMap, this`view
      ensures Valid()
      ensures handled == (Key(id) in old(cacheMap))
      ensures view == Push(old(view), id)
    {
      handled := Key(id) in cacheMap;
      if handled {
        Set(Key(id), cacheMap[Key(id)].(synced := false));
      }
    }

    /** One iteration of the disconnect loop. */
    method UnsyncOne(key: string, data: CacheData, task: nat)
      requires Valid() && key in cacheMap && cacheMap[key] == data
      modifies this`cacheMap, this`view
      ensures Valid() && key in cacheMap && cacheMap == old(cacheMap)[key := cacheMap[key]]
      ensures view == old(view).(entries := old(view).entries[key := Unsync(old(view).entries[key], task)])
    {
      if data.taskId == task {
        Set(key, data.(synced := false));
      } else {
        assert view.entries == view.entries[key := view.entries[key]];
      }
    }

    method OnDisConnect(task: nat)
      requires Valid()
      modifies this`cacheMap, this`view
      ensures Valid()
      ensures view == Disconnect(old(view), task)
    {
      ghost var before := view;
      ghost var change := (k: string, e: Entry) => Unsync(e, task);
      var items := cacheMap;
      var todo := items.Keys;
      while todo != {}
        invariant Valid() && todo <= cacheMap.Keys && todo <= items.Keys
        invariant view == before.(entries := view.entries) && Progress(before.entries, view.entries, todo, change)
        invariant forall k :: k in todo ==> cacheMap[k] == items[k]
        decreases todo
      {
        var key :| key in todo;
        ProgressStep(before.entries, view.entries, todo, change, key);
        UnsyncOne(key, items[key], task);
        todo := todo - {key};
      }
      DisconnectDone(before, view, change, task);
    }

    /** Records the md5 in the shared listener record and stores the value under its own key. */
    method ExecuteListener(d: CacheData)
      requires Valid() && Placed(Key(d.id), d)
      modifies this`cacheMap, this`view, d.listener
      ensures Valid() && cacheMap == old(cacheMap)[Key(d.id) := d]
      ensures view == State(old(view).entries[Key(d.id) :=
        old(EntryOf(d)).(lastMd5 := d.md5, history := old(EntryOf(d)).history + [d.md5])], clock)
    {
      d.listener.lastMd5 := d.md5;
      d.listener.history := d.listener.history + [d.md5];
      cacheMap := cacheMap[Key(d.id) := d];
      view := State(view.entries[Key(d.id) := EntryOf(d)], clock);
    }

    method RefreshContentAndCheck(d: CacheData, net: Network)
      requires Valid() && Key(d.id) in cacheMap && cacheMap[Key(d.id)] == d
      modifies this, d.listener
      ensures Valid() && records == old(records)
      ensures view == RefreshOne(md5, old(view), net, d.id)
    {
      ghost var before := view;
      var reply := net.query(clock, d.id);
      clock := clock + 1;
      view := view.(clock := clock);
      var f := QueryConfig(reply);
      if f.Some? && md5(f.value.content) != d.listener.lastMd5 {
        ExecuteListener(d.(content := f.value.content, contentType := f.value.contentType,
                           dataKey := f.value.dataKey, md5 := md5(f.value.content)));
      } else {
        assert before.entries[Key(d.id) := before.entries[Key(d.id)]] == before.entries;
      }
    }

    /** The refresh loop over the changed configurations of one answer. */
    method RefreshChanged(changed: seq<ConfigId>, net: Network)
      requires Valid()
      modifies this, records
      ensures Valid() && records == old(records)
      ensures view == RefreshAll(md5, old(view), net, changed)
    {
      ghost var before := view;
      for i := 0 to |changed|
        invariant Valid() && records == old(records)
        invariant view == RefreshAll(md5, before, net, changed[..i])
      {
        assert changed[..i + 1][..i] == changed[..i];
        var key := Key(changed[i]);
        if key in cacheMap {
          RefreshContentAndCheck(cacheMap[key], net);
        }
      }
      assert changed[..|changed|] == changed;
    }

    /** One iteration of the settling loop. */
    method SettleOne(data: CacheData, changeKeys: set<string>)
      requires Valid() && Key(data.id) in cacheMap && cacheMap[Key(data.id)] == data
      modifies this`cacheMap, this`view
      ensures Valid() && Key(data.id) in cacheMap
      ensures cacheMap == old(cacheMap)[Key(data.id) := cacheMap[Key(data.id)]]
      ensures view == old(view).(entries := old(view).entries[Key(data.id) :=
        Settled(old(view).entries[Key(data.id)], Key(data.id) in changeKeys)])
    {
      var changeKey := Key(data.id);
      if changeKey !in changeKeys {
        Set(changeKey, data.(synced := true));
      } else {
        Set(changeKey, data.(initializing := true));
      }
    }

    method SettleAll(changeKeys: set<string>)
      requires Valid()
      modifies this`cacheMap, this`view
      ensures Valid()
      ensures view == Settle(old(view), changeKeys)
    {
      ghost var before := view;
      ghost var change := (k: string, e: Entry) => Settled(e, k in changeKeys);
      var items := cacheMap;
      var todo := items.Keys;
      while todo != {}
        invariant Valid() && todo <= cacheMap.Keys && todo <= items.Keys
        invariant view == before.(entries := view.entries) && Progress(before.entries, view.entries, todo, change)
        invariant forall k :: k in todo ==> cacheMap[k] == items[k]
        decreases todo
      {
        var key :| key in todo;
        ProgressStep(before.entries, view.entries, todo, change, key);
        assert Placed(key, cacheMap[key]);
        SettleOne(items[key], changeKeys);
        todo := todo - {key};
      }
      SettleDone(before, view, change, changeKeys);
    }

    /** The body of the loop over tasks in `executeConfigListen`. */
    method ListenTask(net: Network, task: nat, batch: seq<ListenContext>)
      requires Valid()
      modifies this, records
      ensures Valid() && records == old(records)
      ensures view == TaskStep(md5, old(view), net, task, batch)
    {
      var outcome := net.batch(clock, task, batch);
      clock := clock + 1;
      view := view.(clock := clock);
      if outcome.BatchFailed? {
        return;
      }
      RefreshChanged(outcome.changed, net);
      SettleAll(Keys(outcome.changed));
    }

    /** One iteration of the loop in `buildListenTask`. */
    method FlushOne(data: CacheData)
      requires Valid() && Key(data.id) in cacheMap && cacheMap[Key(data.id)] == data
      modifies this`cacheMap, this`view, data.listener
      ensures Valid() && cacheMap == old(cacheMap)
      ensures view == old(view).(entries := old(view).entries[Key(data.id) := Flushed(old(view).entries[Key(data.id)])])
    {
      if data.synced && data.md5 != data.listener.lastMd5 {
        ExecuteListener(data);
        assert cacheMap == old(cacheMap);
      } else {
        assert view.entries[Key(data.id) := view.entries[Key(data.id)]] == view.entries;
      }
    }

    method BuildListenTask(all: bool) returns (batches: map<nat, seq<ListenContext>>)
      requires Valid()
      modifies this`cacheMap, this`view, records
      ensures Valid()
      ensures view == Flush(old(view))
      ensures IsBatching(view.entries, all, batches)
    {
      ghost var before := view;
      ghost var change := (k: string, e: Entry) => Flushed(e);
      batches := map[];
      var items := cacheMap;
      var todo := items.Keys;
      while todo != {}
        invariant Valid() && cacheMap == items && todo <= items.Keys
        invariant view == before.(entries := view.entries) && Progress(before.entries, view.entries, todo, change)
        invariant Collected(before.entries, all, batches, todo)
        decreases todo
      {
        var key :| key in todo;
        var data := items[key];
        assert Placed(key, data) && before.entries[key] == EntryOf(data);
        CollectStep(before.entries, all, batches, todo, key);
        ProgressStep(before.entries, view.entries, todo, change, key);
        batches := Collect(batches, data.taskId, all || !data.synced, ContextOf(data));
        FlushOne(data);
        todo := todo - {key};
      }
      FlushDone(before, view, change);
      FlushedBatching(before, all, batches);
    }

    method ExecuteConfigListen(net: Network, all: bool)
      returns (ghost batches: map<nat, seq<ListenContext>>, ghost order: seq<nat>)
      requires Valid()
      modifies this, records
      ensures Valid() && records == old(records)
      ensures IsBatching(Flush(old(view)).entries, all, batches) && IsOrder(batches, order)
      ensures view == Round(md5, Flush(old(view)), net, batches, order)
    {
      var tasks := BuildListenTask(all);
      batches := tasks;
      order := [];
      ghost var flushed := view;
      var todo := tasks.Keys;
      while todo != {}
        invariant Valid() && todo <= tasks.Keys && records == old(records)
        invariant NoDuplicates(order) && forall t :: t in order <==> t in tasks && t !in todo
        invariant view == Round(md5, flushed, net, tasks, order)
        decreases todo
      {
        var t :| t in todo;
        ListenTask(net, t, tasks[t]);
        assert (order + [t])[..|order|] == order;
        order, todo := order + [t], todo - {t};
      }
    }
  }

  datatype Call =
    | ListenCall(dataId: string, group: string, content: string, dataKey: string)
    | CancelCall(dataId: string, group: string)
    | PushCall(id: ConfigId)
    | DisconnectCall(task: nat)
    | RoundCall(net: Network, all: bool)

  /** One call on a client, and the operation of the model it performed. */
  method Serve(c: Client, call: Call) returns (ghost op: Op)
    requires c.Valid()
    modifies c, c.records
    ensures c.Valid() && c.records >= old(c.records) && fresh(c.records - old(c.records))
    ensures Apply(c.md5, old(c.view), op) == Some(c.view)
  {
    match call
    case ListenCall(dataId, group, content, dataKey) =>
      var _ := c.ListenConfig(dataId, group, content, dataKey);
      op := ListenOp(ConfigId(dataId, group, c.tenant), content, dataKey);
    case CancelCall(dataId, group) =>
      c.CancelListenConfig(dataId, group);
      op := CancelOp(ConfigId(dataId, group, c.tenant));
    case PushCall(id) =>
      var _ := c.RequestReply(id);
      op := PushOp(id);
    case DisconnectCall(task) =>
      c.OnDisConnect(task);
      op := DisconnectOp(task);
    case RoundCall(net, all) =>
      ghost var batches, order := c.ExecuteConfigListen(net, all);
      op := RoundOp(net, all, batches, order);
  }

  /** Any serial run of calls on a new client is a run of the model, so every entry ends up sound. */
  method ServeAll(md5: string -> string, tenant: string, calls: seq<Call>) returns (c: Client, ghost ops: seq<Op>)
    requires md5("") == ""
    ensures c.Valid() && fresh(c) && c.md5 == md5
    ensures |ops| == |calls| && After(md5, EMPTY, ops) == Some(c.view)
    ensures Inv(md5, c.view)
  {
    c := new Client(md5, tenant);
    ops := [];
    for i := 0 to |calls|
      invariant fresh(c) && fresh(c.records) && c.md5 == md5 && c.Valid()
      invariant |ops| == i && After(md5, EMPTY, ops) == Some(c.view)
    {
      ghost var op := Serve(c, calls[i]);
      assert (ops + [op])[..|ops|] == ops;
      ops := ops + [op];
    }
    RunInvariant(md5, ops);
  }

  /** The batches hold what `IsBatching` asks for, for the entries not in `todo`. */
  ghost predicate Collected(entries: map<string, Entry>, all: bool, batches: map<nat, seq<ListenContext>>,
                            todo: set<string>) {
    && (forall t, x :: t in batches && x in batches[t] ==> Listed(entries, all, t, x) && Key(x.id) !in todo)
    && (forall k :: k in entries && k !in todo && Due(entries[k], all) ==>
          entries[k].taskId in batches && Context(entries[k]) in batches[entries[k].taskId])
    && (forall t :: t in batches ==> NoDuplicates(batches[t]))
  }

  /** `x` appended to the batch of its task when it is due. */
  function Collect(batches: map<nat, seq<ListenContext>>, t: nat, due: bool, x: ListenContext)
    : map<nat, seq<ListenContext>> {
    if due then batches[t := (if t in batches then batches[t] else []) + [x]] else batches
  }

  lemma CollectStep(entries: map<string, Entry>, all: bool, batches: map<nat, seq<ListenContext>>, todo: set<string>,
                    key: string)
    requires Collected(entries, all, batches, todo) && key in todo && key in entries && Key(entries[key].id) == key
    ensures Collected(entries, all,
                      Collect(batches, entries[key].taskId, Due(entries[key], all), Context(entries[key])),
                      todo - {key})
  {
  }

  lemma FlushedBatching(s: State, all: bool, batches: map<nat, seq<ListenContext>>)
    requires Collected(s.entries, all, batches, {})
    ensures IsBatching(Flush(s).entries, all, batches)
  {
    forall t, x | t in batches && x in batches[t] ensures Listed(Flush(s).entries, all, t, x) {
      assert Listed(s.entries, all, t, x);
    }
  }

  /** A loop applying `change` to every entry has still to visit the keys in `todo`. */
  ghost predicate Progress(before: map<string, Entry>, now: map<string, Entry>, todo: set<string>,
                           change: (string, Entry) -> Entry)
  {
    && now.Keys == before.Keys
    && forall k :: k in before ==> now[k] == if k in todo then before[k] else change(k, before[k])
  }

  lemma ProgressStep(before: map<string, Entry>, now: map<string, Entry>, todo: set<string>,
                     change: (string, Entry) -> Entry, key: string)
    requires Progress(before, now, todo, change) && key in todo && key in before
    ensures Progress(before, now[key := change(key, now[key])], todo - {key}, change)
  {
  }

  lemma FlushDone(before: State, now: State, change: (string, Entry) -> Entry)
    requires Progress(before.entries, now.entries, {}, change) && now.clock == before.clock
    requires forall k, e :: change(k, e) == Flushed(e)
    ensures now == Flush(before)
  {
    assert now.entries == Flush(before).entries;
  }

  lemma DisconnectDone(before: State, now: State, change: (string, Entry) -> Entry, task: nat)
    requires Progress(before.entries, now.entries, {}, change) && now.clock == before.clock
    requires forall k, e :: change(k, e) == Unsync(e, task)
    ensures now == Disconnect(before, task)
  {
    assert now.entries == Disconnect(before, task).entries;
  }

  lemma SettleDone(before: State, now: State, change: (string, Entry) -> Entry, changed: set<string>)
    requires Progress(before.entries, now.entries, {}, change) && now.clock == before.clock
    requires forall k, e :: change(k, e) == Settled(e, k in changed)
    ensures now == Settle(before, changed)
  {
    assert now.entries == Settle(before, changed).entries;
  }
}
