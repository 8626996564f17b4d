/**
What each call of the config listen protocol does to the map of listened configurations, on
values.  `ConfigClient` proves its methods, which update the map and the shared listener records
in place, against these functions.

The network is an oracle indexed by a logical clock, so two requests for the same configuration
may be answered differently.  `md5` is a parameter.
 */
module ConfigSpec {
  import opened Wrappers

  const PER_TASK_CONFIG_SIZE: nat := 3000
  const CONFIG_INFO_SPLITER := "@@"

  datatype ConfigId = ConfigId(dataId: string, group: string, tenant: string)

  function Key(id: ConfigId): string {
    id.dataId + CONFIG_INFO_SPLITER + id.group + CONFIG_INFO_SPLITER + id.tenant
  }

  /**
  A listened configuration together with its listener record.  `history` is the md5 the listener
  was registered with followed by the md5 of each `executeListener` run.
   */
  datatype Entry = Entry(
    id: ConfigId,
    content: string,
    contentType: string,
    dataKey: string,
    md5: string,
    lastMd5: string,
    history: seq<string>,
    taskId: nat,
    initializing: bool,
    synced: bool)

  datatype State = State(entries: map<string, Entry>, clock: nat)

  /** One line of a batch listen request. */
  datatype ListenContext = ListenContext(id: ConfigId, md5: string)

  function Context(e: Entry): ListenContext {
    ListenContext(e.id, e.md5)
  }

  /** Any error, nil, unsuccessful or ill-typed answer is `BatchFailed`. */
  datatype BatchOutcome = BatchFailed | BatchOk(changed: seq<ConfigId>)

  datatype Reply =
    | Limited
    | TransportError
    | WrongType
    | Answer(success: bool, errorCode: int, content: string, contentType: string, dataKey: string)

  datatype Network = Network(
    batch: (nat, nat, seq<ListenContext>) -> BatchOutcome,
    query: (nat, ConfigId) -> Reply)

  datatype Fetched = Fetched(content: string, contentType: string, dataKey: string)

  /** What `queryConfig` hands to `refreshContentAndCheck`; `None` when nothing may be refreshed. */
  function QueryConfig(r: Reply): Option<Fetched> {
    if !r.Answer? then None
    else if r.success then Some(Fetched(r.content, if r.contentType == "" then "text" else r.contentType, r.dataKey))
    else if r.errorCode == 300 then Some(Fetched(r.content, r.contentType, r.dataKey))
    else None
  }

  // ---- Calls -------------------------------------------------------------------------------

  /** `content` and `dataKey` are what the snapshot files hold; empty when there is none. */
  function Listen(md5: string -> string, s: State, id: ConfigId, content: string, dataKey: string): State {
    if id.dataId == "" || id.group == "" then s
    else if Key(id) in s.entries then
      s.(entries := s.entries[Key(id) := s.entries[Key(id)].(initializing := true)])
    else
      var m := if |content| > 0 then md5(content) else "";
      s.(entries := s.entries[Key(id) :=
        Entry(id, content, "", dataKey, m, m, [m], |s.entries| / PER_TASK_CONFIG_SIZE, true, false)])
  }

  function Cancel(s: State, id: ConfigId): State {
    s.(entries := s.entries - {Key(id)})
  }

  function Push(s: State, id: ConfigId): State {
    if Key(id) in s.entries
    then s.(entries := s.entries[Key(id) := s.entries[Key(id)].(synced := false)])
    else s
  }

  function Unsync(e: Entry, task: nat): Entry {
    if e.taskId == task then e.(synced := false) else e
  }

  function Disconnect(s: State, task: nat): State {
    s.(entries := map k | k in s.entries :: Unsync(s.entries[k], task))
  }

  /** `buildListenTask` runs the listener of a synced entry whose md5 its listener has not seen. */
  function Flushed(e: Entry): Entry {
    if e.synced && e.md5 != e.lastMd5 then e.(lastMd5 := e.md5, history := e.history + [e.md5]) else e
  }

  function Flush(s: State): State {
    s.(entries := map k | k in s.entries :: Flushed(s.entries[k]))
  }

  /** `refreshContentAndCheck` on a stored entry. */
  function Refreshed(md5: string -> string, e: Entry, f: Option<Fetched>): Entry {
    if f.None? || md5(f.value.content) == e.lastMd5 then e
    else
      var m := md5(f.value.content);
      e.(content := f.value.content, contentType := f.value.contentType, dataKey := f.value.dataKey,
         md5 := m, lastMd5 := m, history := e.history + [m])
  }

  function RefreshOne(md5: string -> string, s: State, net: Network, id: ConfigId): State {
    if Key(id) !in s.entries then s
    else
      var e := s.entries[Key(id)];
      State(s.entries[Key(id) := Refreshed(md5, e, QueryConfig(net.query(s.clock, e.id)))], s.clock + 1)
  }

  /** The loop over the changed configurations of one batch answer. */
  function RefreshAll(md5: string -> string, s: State, net: Network, changed: seq<ConfigId>): State
    decreases |changed|
  {
    if changed == [] then s
    else RefreshOne(md5, RefreshAll(md5, s, net, changed[..|changed| - 1]), net, changed[|changed| - 1])
  }

  function Settled(e: Entry, changed: bool): Entry {
    if changed then e.(initializing := true) else e.(synced := true)
  }

  function Keys(ids: seq<ConfigId>): set<string> {
    set id | id in ids :: Key(id)
  }

  /** The loop over the whole map after one batch answer: it settles entries of every task. */
  function Settle(s: State, changed: set<string>): State {
    s.(entries := map k | k in s.entries :: Settled(s.entries[k], k in changed))
  }

  function TaskStep(md5: string -> string, s: State, net: Network, task: nat, batch: seq<ListenContext>): State {
    match net.batch(s.clock, task, batch)
    case BatchFailed => s.(clock := s.clock + 1)
    case BatchOk(changed) => Settle(RefreshAll(md5, s.(clock := s.clock + 1), net, changed), Keys(changed))
  }

  /** One round over the tasks in the order the map iteration happened to yield. */
  function Round(md5: string -> string, s: State, net: Network, batches: map<nat, seq<ListenContext>>,
                 order: seq<nat>): State
    requires forall t :: t in order ==> t in batches
    decreases |order|
  {
    if order == [] then s
    else
      var t := order[|order| - 1];
      TaskStep(md5, Round(md5, s, net, batches, order[..|order| - 1]), net, t, batches[t])
  }

  // ---- Batches -----------------------------------------------------------------------------

  predicate Due(e: Entry, all: bool) {
    all || !e.synced
  }

  /** `x` is the context of an entry of task `t` that is due. */
  predicate Listed(entries: map<string, Entry>, all: bool, t: nat, x: ListenContext) {
    && Key(x.id) in entries
    && Context(entries[Key(x.id)]) == x
    && entries[Key(x.id)].taskId == t
    && Due(entries[Key(x.id)], all)
  }

  ghost predicate NoDuplicates<T>(s: seq<T>) {
    forall i, j :: 0 <= i < j < |s| ==> s[i] != s[j]
  }

  /** Each entry is in exactly one batch, its own task's, precisely when it is due. */
  ghost predicate IsBatching(entries: map<string, Entry>, all: bool, batches: map<nat, seq<ListenContext>>) {
    && (forall t, x :: t in batches && x in batches[t] ==> Listed(entries, all, t, x))
    && (forall k :: k in entries && Due(entries[k], all) ==>
          entries[k].taskId in batches && Context(entries[k]) in batches[entries[k].taskId])
    && (forall t :: t in batches ==> NoDuplicates(batches[t]))
  }

  ghost predicate IsOrder(batches: map<nat, seq<ListenContext>>, order: seq<nat>) {
    && (forall t :: t in order <==> t in batches)
    && NoDuplicates(order)
  }

  // ---- Runs and their invariant ------------------------------------------------------------

  datatype Op =
    | ListenOp(id: ConfigId, content: string, dataKey: string)
    | CancelOp(id: ConfigId)
    | PushOp(id: ConfigId)
    | DisconnectOp(task: nat)
    | RoundOp(net: Network, all: bool, batches: map<nat, seq<ListenContext>>, order: seq<nat>)

  /** The state after one call; `None` for a round with batches the call would not have built. */
  ghost function Apply(md5: string -> string, s: State, op: Op): Option<State> {
    match op
    case ListenOp(id, content, dataKey) => Some(Listen(md5, s, id, content, dataKey))
    case CancelOp(id) => Some(Cancel(s, id))
    case PushOp(id) => Some(Push(s, id))
    case DisconnectOp(task) => Some(Disconnect(s, task))
    case RoundOp(net, all, batches, order) =>
      if IsBatching(Flush(s).entries, all, batches) && IsOrder(batches, order)
      then Some(Round(md5, Flush(s), net, batches, order))
      else None
  }

  ghost function After(md5: string -> string, s: State, ops: seq<Op>): Option<State>
    decreases |ops|
  {
    if ops == [] then Some(s)
    else
      var r := After(md5, s, ops[..|ops| - 1]);
      if r.Some? then Apply(md5, r.value, ops[|ops| - 1]) else None
  }

  const EMPTY := State(map[], 0)

  /** No two successive runs of the listener see the same md5. */
  ghost predicate Alternates(history: seq<string>) {
    forall i :: 0 <= i < |history| - 1 ==> history[i] != history[i + 1]
  }

  /** Among others, `initializing` is never cleared, so no query asks for a notification. */
  ghost predicate Sound(md5: string -> string, k: string, e: Entry) {
    && k == Key(e.id)
    && e.id.group != ""
    && e.md5 == md5(e.content)
    && e.lastMd5 == e.md5
    && e.initializing
    && e.history != [] && e.history[|e.history| - 1] == e.lastMd5
    && Alternates(e.history)
  }

  ghost predicate Inv(md5: string -> string, s: State) {
    forall k :: k in s.entries ==> Sound(md5, k, s.entries[k])
  }

  /** In a sound state `buildListenTask` never runs a listener. */
  lemma NothingToFlush(md5: string -> string, s: State)
    requires Inv(md5, s)
    ensures Flush(s) == s
  {
    forall k | k in s.entries ensures Flushed(s.entries[k]) == s.entries[k] {
      assert Sound(md5, k, s.entries[k]);
    }
    assert Flush(s).entries == s.entries;
  }

  /** In any state whatsoever, it leaves every synced entry's listener with the md5, run at most once. */
  lemma FlushTells(s: State, k: string)
    requires k in s.entries
    ensures var e, r := s.entries[k], Flush(s).entries[k];
            && r == e.(lastMd5 := r.lastMd5, history := r.history)
            && (e.synced ==> r.lastMd5 == e.md5)
            && r.history == e.history + if e.synced && e.md5 != e.lastMd5 then [e.md5] else []
  {
  }

  /** In any state whatsoever, a usable reply leaves the listener with the md5 of its content, run once if it is new. */
  lemma RefreshTells(md5: string -> string, e: Entry, f: Fetched)
    ensures var r := Refreshed(md5, e, Some(f));
            && r.lastMd5 == md5(f.content)
            && r.history == e.history + if e.lastMd5 == md5(f.content) then [] else [md5(f.content)]
  {
  }

  lemma RefreshedSound(md5: string -> string, k: string, e: Entry, f: Option<Fetched>)
    requires Sound(md5, k, e)
    ensures Sound(md5, k, Refreshed(md5, e, f))
  {
  }

  lemma {:induction false} RefreshAllInv(md5: string -> string, s: State, net: Network, changed: seq<ConfigId>)
    requires Inv(md5, s)
    ensures Inv(md5, RefreshAll(md5, s, net, changed))
    ensures RefreshAll(md5, s, net, changed).entries.Keys == s.entries.Keys
    ensures forall k :: k in s.entries ==>
      RefreshAll(md5, s, net, changed).entries[k].taskId == s.entries[k].taskId
    decreases |changed|
  {
    if changed != [] {
      var before := changed[..|changed| - 1];
      RefreshAllInv(md5, s, net, before);
      var r := RefreshAll(md5, s, net, before);
      var id := changed[|changed| - 1];
      if Key(id) in r.entries {
        var e := r.entries[Key(id)];
        RefreshedSound(md5, Key(id), e, QueryConfig(net.query(r.clock, e.id)));
      }
    }
  }

  lemma SettleInv(md5: string -> string, s: State, changed: set<string>)
    requires Inv(md5, s)
    ensures Inv(md5, Settle(s, changed))
  {
    forall k | k in s.entries ensures Sound(md5, k, Settled(s.entries[k], k in changed)) {
      assert Sound(md5, k, s.entries[k]);
    }
  }

  lemma TaskStepInv(md5: string -> string, s: State, net: Network, task: nat, batch: seq<ListenContext>)
    requires Inv(md5, s)
    ensures var r := TaskStep(md5, s, net, task, batch);
            && Inv(md5, r) && r.entries.Keys == s.entries.Keys
            && forall k :: k in s.entries ==> r.entries[k].taskId == s.entries[k].taskId
  {
    var o := net.batch(s.clock, task, batch);
    if o.BatchOk? {
      var c := s.(clock := s.clock + 1);
      RefreshAllInv(md5, c, net, o.changed);
      SettleInv(md5, RefreshAll(md5, c, net, o.changed), Keys(o.changed));
    }
  }

  lemma {:induction false} RoundInv(md5: string -> string, s: State, net: Network,
                                    batches: map<nat, seq<ListenContext>>, order: seq<nat>)
    requires Inv(md5, s) && forall t :: t in order ==> t in batches
    ensures var r := Round(md5, s, net, batches, order);
            && Inv(md5, r) && r.entries.Keys == s.entries.Keys
            && forall k :: k in s.entries ==> r.entries[k].taskId == s.entries[k].taskId
    decreases |order|
  {
    if order != [] {
      var t := order[|order| - 1];
      RoundInv(md5, s, net, batches, order[..|order| - 1]);
      TaskStepInv(md5, Round(md5, s, net, batches, order[..|order| - 1]), net, t, batches[t]);
    }
  }

  lemma DisconnectInv(md5: string -> string, s: State, task: nat)
    requires Inv(md5, s)
    ensures Inv(md5, Disconnect(s, task))
  {
    forall k | k in s.entries ensures Sound(md5, k, Unsync(s.entries[k], task)) {
      assert Sound(md5, k, s.entries[k]);
    }
  }

  lemma PushInv(md5: string -> string, s: State, id: ConfigId)
    requires Inv(md5, s)
    ensures Inv(md5, Push(s, id))
  {
    if Key(id) in s.entries {
      assert Sound(md5, Key(id), s.entries[Key(id)]);
    }
  }

  lemma ListenInv(md5: string -> string, s: State, id: ConfigId, content: string, dataKey: string)
    requires md5("") == "" && Inv(md5, s)
    ensures Inv(md5, Listen(md5, s, id, content, dataKey))
  {
    var r := Listen(md5, s, id, content, dataKey);
    if Key(id) in r.entries {
      assert Sound(md5, Key(id), r.entries[Key(id)]);
    }
  }

  lemma ApplyInv(md5: string -> string, s: State, op: Op)
    requires md5("") == "" && Inv(md5, s) && Apply(md5, s, op).Some?
    ensures Inv(md5, Apply(md5, s, op).value)
  {
    match op
    case ListenOp(id, content, dataKey) => ListenInv(md5, s, id, content, dataKey);
    case DisconnectOp(task) => DisconnectInv(md5, s, task);
    case PushOp(id) => PushInv(md5, s, id);
    case RoundOp(net, all, batches, order) =>
      NothingToFlush(md5, s);
      RoundInv(md5, s, net, batches, order);
    case CancelOp(_) =>
  }

  /** Every serial run keeps every entry sound. */
  lemma {:induction false} RunInvariant(md5: string -> string, ops: seq<Op>)
    requires md5("") == "" && After(md5, EMPTY, ops).Some?
    ensures Inv(md5, After(md5, EMPTY, ops).value)
    decreases |ops|
  {
    if ops != [] {
      var before := ops[..|ops| - 1];
      RunInvariant(md5, before);
      ApplyInv(md5, After(md5, EMPTY, before).value, ops[|ops| - 1]);
    }
  }
}
