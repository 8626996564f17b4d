/** How listen rounds against a fixed server bring the client to the server's contents. */
module ConfigConvergence {
  import opened Wrappers
  import opened ConfigSpec

  /** What the server holds for one configuration; of a removed one, what its reply says. */
  datatype Stored = Stored(removed: bool, content: string, contentType: string, dataKey: string)

  /**
  A server whose contents do not change.  Tasks in `up` are answered with exactly the
  configurations whose md5 differs, the other batch requests fail; every query is answered.
   */
  ghost predicate FixedServer(md5: string -> string, net: Network, server: ConfigId -> Stored, up: set<nat>) {
    && (forall time, task, batch :: AnswersBatch(md5, server, task in up, batch, net.batch(time, task, batch)))
    && (forall time, id :: AnswersQuery(server(id), net.query(time, id)))
  }

  ghost predicate AnswersBatch(md5: string -> string, server: ConfigId -> Stored, up: bool,
                               batch: seq<ListenContext>, o: BatchOutcome) {
    && o.BatchOk? == up
    && (up ==> forall id :: id in o.changed <==>
          exists x :: x in batch && x.id == id && md5(server(id).content) != x.md5)
  }

  /** Code 300 is the server's answer for a configuration that does not exist. */
  const CONFIG_NOT_FOUND := 300

  ghost predicate AnswersQuery(x: Stored, r: Reply) {
    && r.Answer?
    && (if x.removed then !r.success && r.errorCode == CONFIG_NOT_FOUND else r.success)
    && r.content == x.content && r.contentType == x.contentType && r.dataKey == x.dataKey
  }

  /** `r` holds what the server does; an existing configuration without a type is text. */
  ghost predicate Holds(r: Entry, x: Stored) {
    && r.content == x.content && r.dataKey == x.dataKey
    && r.contentType == if x.contentType == "" && !x.removed then "text" else x.contentType
  }

  ghost predicate SameContent(e: Entry, r: Entry) {
    r.content == e.content && r.dataKey == e.dataKey && r.contentType == e.contentType
  }

  /**
  `e` became `r`, which holds the server's md5.  If the md5 differed, `r` holds what the server
  does and the listener ran once; otherwise nothing was taken over.
   */
  ghost predicate Caught(md5: string -> string, server: ConfigId -> Stored, e: Entry, r: Entry) {
    && r.id == e.id && r.taskId == e.taskId
    && r.md5 == md5(server(e.id).content) && r.lastMd5 == r.md5
    && r.history == e.history + (if e.md5 == r.md5 then [] else [r.md5])
    && (if e.md5 == r.md5 then SameContent(e, r) else Holds(r, server(e.id)))
  }

  /** Only the two flags may differ. */
  ghost predicate SameConfig(e: Entry, r: Entry) {
    r == e.(initializing := r.initializing, synced := r.synced)
  }

  ghost predicate Outcome(md5: string -> string, server: ConfigId -> Stored, caught: bool, e: Entry, r: Entry) {
    if caught then Caught(md5, server, e, r) else SameConfig(e, r)
  }

  lemma {:induction false} RefreshAllCatches(md5: string -> string, s: State, net: Network, changed: seq<ConfigId>,
                                             server: ConfigId -> Stored, up: set<nat>, k: string)
    requires FixedServer(md5, net, server, up) && k in s.entries && Sound(md5, k, s.entries[k])
    ensures k in RefreshAll(md5, s, net, changed).entries
    ensures if k in Keys(changed)
            then Caught(md5, server, s.entries[k], RefreshAll(md5, s, net, changed).entries[k])
            else RefreshAll(md5, s, net, changed).entries[k] == s.entries[k]
    decreases |changed|
  {
    if changed != [] {
      var before := changed[..|changed| - 1];
      var id := changed[|changed| - 1];
      RefreshAllCatches(md5, s, net, before, server, up, k);
      assert changed == before + [id];
      assert Keys(changed) == Keys(before) + {Key(id)};
      if Key(id) == k {
        var r := RefreshAll(md5, s, net, before);
        assert AnswersQuery(server(r.entries[k].id), net.query(r.clock, r.entries[k].id));
        RefreshCatches(md5, server, s.entries[k], r.entries[k], net.query(r.clock, r.entries[k].id));
      }
    }
  }

  lemma RefreshCatches(md5: string -> string, server: ConfigId -> Stored, e: Entry, now: Entry, r: Reply)
    requires e.lastMd5 == e.md5 && (now == e || Caught(md5, server, e, now)) && AnswersQuery(server(now.id), r)
    ensures Caught(md5, server, e, Refreshed(md5, now, QueryConfig(r)))
  {
  }

  /** The contexts of `batch` describe entries of task `t` as they are now. */
  ghost predicate Fresh(s: State, all: bool, t: nat, batch: seq<ListenContext>) {
    forall x :: x in batch ==> Listed(s.entries, all, t, x)
  }

  /** An entry is reported as changed only by its own task and only when its md5 differs. */
  lemma ReportedEntry(md5: string -> string, s: State, all: bool, t: nat, batch: seq<ListenContext>, o: BatchOutcome,
                      server: ConfigId -> Stored, k: string)
    requires AnswersBatch(md5, server, true, batch, o) && Fresh(s, all, t, batch)
    requires k in Keys(o.changed)
    ensures k in s.entries && s.entries[k].taskId == t && md5(server(s.entries[k].id).content) != s.entries[k].md5
  {
    var id :| id in o.changed && Key(id) == k;
    var x :| x in batch && x.id == id && md5(server(id).content) != x.md5;
    assert Listed(s.entries, all, t, x);
  }

  lemma DifferingEntry(md5: string -> string, s: State, t: nat, batch: seq<ListenContext>, o: BatchOutcome,
                       server: ConfigId -> Stored, k: string)
    requires AnswersBatch(md5, server, true, batch, o)
    requires k in s.entries && Sound(md5, k, s.entries[k])
    requires Context(s.entries[k]) in batch && md5(server(s.entries[k].id).content) != s.entries[k].md5
    ensures k in Keys(o.changed)
  {
    assert s.entries[k].id in o.changed;
  }

  lemma TaskCatches(md5: string -> string, s: State, net: Network, t: nat, batch: seq<ListenContext>,
                    server: ConfigId -> Stored, up: set<nat>, k: string)
    requires FixedServer(md5, net, server, up) && Fresh(s, true, t, batch)
    requires k in s.entries && Sound(md5, k, s.entries[k])
    requires s.entries[k].taskId == t ==> Context(s.entries[k]) in batch
    ensures k in TaskStep(md5, s, net, t, batch).entries
    ensures Outcome(md5, server, s.entries[k].taskId == t && t in up,
                    s.entries[k], TaskStep(md5, s, net, t, batch).entries[k])
  {
    var o := net.batch(s.clock, t, batch);
    assert AnswersBatch(md5, server, t in up, batch, o);
    if t in up {
      RefreshAllCatches(md5, s.(clock := s.clock + 1), net, o.changed, server, up, k);
      if k in Keys(o.changed) {
        ReportedEntry(md5, s, true, t, batch, o, server, k);
      } else if s.entries[k].taskId == t && md5(server(s.entries[k].id).content) != s.entries[k].md5 {
        DifferingEntry(md5, s, t, batch, o, server, k);
      }
    }
  }

  lemma NextOutcome(md5: string -> string, e: Entry, r: State, net: Network, t: nat, batch: seq<ListenContext>,
                    before: seq<nat>, server: ConfigId -> Stored, up: set<nat>, k: string)
    requires FixedServer(md5, net, server, up) && Fresh(r, true, t, batch) && t !in before
    requires k in r.entries && Sound(md5, k, r.entries[k])
      && (r.entries[k].taskId == t ==> Context(r.entries[k]) in batch)
    requires Outcome(md5, server, e.taskId in before && e.taskId in up, e, r.entries[k])
    ensures k in TaskStep(md5, r, net, t, batch).entries
    ensures Outcome(md5, server, e.taskId in before + [t] && e.taskId in up, e,
                    TaskStep(md5, r, net, t, batch).entries[k])
  {
    TaskCatches(md5, r, net, t, batch, server, up, k);
  }

  /** The entries after the tasks `visited`, compared with those at the start of the round. */
  ghost predicate Outcomes(md5: string -> string, server: ConfigId -> Stored, up: set<nat>, visited: seq<nat>,
                           a: map<string, Entry>, b: map<string, Entry>) {
    && b.Keys == a.Keys
    && forall k :: k in a ==> Outcome(md5, server, a[k].taskId in visited && a[k].taskId in up, a[k], b[k])
  }

  lemma NextOutcomes(md5: string -> string, a: map<string, Entry>, r: State, net: Network, t: nat,
                     batch: seq<ListenContext>,
                     before: seq<nat>, server: ConfigId -> Stored, up: set<nat>)
    requires FixedServer(md5, net, server, up) && Fresh(r, true, t, batch) && Inv(md5, r) && t !in before
    requires forall k :: k in a && a[k].taskId == t ==> Context(a[k]) in batch
    requires Outcomes(md5, server, up, before, a, r.entries)
    requires TaskStep(md5, r, net, t, batch).entries.Keys == r.entries.Keys
    ensures Outcomes(md5, server, up, before + [t], a, TaskStep(md5, r, net, t, batch).entries)
  {
    forall k | k in a
      ensures Outcome(md5, server, a[k].taskId in before + [t] && a[k].taskId in up, a[k],
                      TaskStep(md5, r, net, t, batch).entries[k])
    {
      assert Outcome(md5, server, a[k].taskId in before && a[k].taskId in up, a[k], r.entries[k]);
      NextOutcome(md5, a[k], r, net, t, batch, before, server, up, k);
    }
  }

  lemma {:induction false} RoundCatches(md5: string -> string, s: State, net: Network,
                                        batches: map<nat, seq<ListenContext>>, order: seq<nat>,
                                        server: ConfigId -> Stored, up: set<nat>)
    requires Inv(md5, s) && FixedServer(md5, net, server, up)
    requires IsBatching(s.entries, true, batches)
    requires (forall t :: t in order ==> t in batches) && NoDuplicates(order)
    ensures Outcomes(md5, server, up, order, s.entries, Round(md5, s, net, batches, order).entries)
    decreases |order|
  {
    if order != [] {
      var before := order[..|order| - 1];
      var t := order[|order| - 1];
      RoundCatches(md5, s, net, batches, before, server, up);
      RoundInv(md5, s, net, batches, before);
      RoundInv(md5, s, net, batches, order);
      assert t !in before && order == before + [t];
      var r := Round(md5, s, net, batches, before);
      StillFresh(md5, s, r, t, batches[t], server, before, up);
      NextOutcomes(md5, s.entries, r, net, t, batches[t], before, server, up);
    }
  }

  /** A task not yet visited still finds its entries as they were when the batches were built. */
  lemma StillFresh(md5: string -> string, s: State, r: State, t: nat, batch: seq<ListenContext>,
                   server: ConfigId -> Stored, before: seq<nat>, up: set<nat>)
    requires Fresh(s, true, t, batch) && t !in before && r.entries.Keys == s.entries.Keys
    requires forall k :: k in s.entries ==>
      Outcome(md5, server, s.entries[k].taskId in before && s.entries[k].taskId in up, s.entries[k], r.entries[k])
    ensures Fresh(r, true, t, batch)
  {
    forall x | x in batch ensures Listed(r.entries, true, t, x) {
      assert Listed(s.entries, true, t, x);
    }
  }

  /** After an all-sync round an entry holds the server's md5 exactly if it did before or its own batch succeeded. */
  lemma AllSyncRound(md5: string -> string, s: State, net: Network, batches: map<nat, seq<ListenContext>>,
                     order: seq<nat>, server: ConfigId -> Stored, up: set<nat>, k: string)
    requires Inv(md5, s) && FixedServer(md5, net, server, up)
    requires IsBatching(s.entries, true, batches) && IsOrder(batches, order)
    requires k in s.entries
    ensures var r := Round(md5, s, net, batches, order);
            && k in r.entries
            && (r.entries[k].md5 == md5(server(s.entries[k].id).content) <==>
                s.entries[k].md5 == md5(server(s.entries[k].id).content) || s.entries[k].taskId in up)
  {
    RoundCatches(md5, s, net, batches, order, server, up);
  }

  // ---- The second round --------------------------------------------------------------------

  ghost predicate UpToDate(md5: string -> string, server: ConfigId -> Stored, s: State) {
    forall k :: k in s.entries ==> s.entries[k].md5 == md5(server(s.entries[k].id).content)
  }

  lemma {:induction false} QuietRound(md5: string -> string, s: State, net: Network, all: bool,
                                      batches: map<nat, seq<ListenContext>>, order: seq<nat>,
                                      server: ConfigId -> Stored, up: set<nat>)
    requires FixedServer(md5, net, server, up) && UpToDate(md5, server, s)
    requires IsBatching(s.entries, all, batches)
    requires forall t :: t in order ==> t in batches && t in up
    ensures var r := Round(md5, s, net, batches, order);
            && r.entries.Keys == s.entries.Keys
            && forall k :: k in s.entries ==>
                 SameConfig(s.entries[k], r.entries[k]) && r.entries[k].synced == (order != [] || s.entries[k].synced)
    decreases |order|
  {
    if order != [] {
      var t := order[|order| - 1];
      QuietRound(md5, s, net, all, batches, order[..|order| - 1], server, up);
      var r := Round(md5, s, net, batches, order[..|order| - 1]);
      var o := net.batch(r.clock, t, batches[t]);
      assert AnswersBatch(md5, server, true, batches[t], o);
      if o.changed != [] {
        assert Key(o.changed[0]) in Keys(o.changed);
        ReportedEntry(md5, s, all, t, batches[t], o, server, Key(o.changed[0]));
      }
    }
  }

  lemma FirstRound(md5: string -> string, s: State, net: Network, batches: map<nat, seq<ListenContext>>,
                   order: seq<nat>, server: ConfigId -> Stored)
    requires Inv(md5, s) && FixedServer(md5, net, server, batches.Keys)
    requires IsBatching(s.entries, true, batches) && IsOrder(batches, order)
    ensures Round(md5, s, net, batches, order).entries.Keys == s.entries.Keys
    ensures forall k :: k in s.entries ==>
      Caught(md5, server, s.entries[k], Round(md5, s, net, batches, order).entries[k])
    ensures UpToDate(md5, server, Round(md5, s, net, batches, order))
  {
    RoundCatches(md5, s, net, batches, order, server, batches.Keys);
    var r := Round(md5, s, net, batches, order);
    forall k | k in s.entries ensures Caught(md5, server, s.entries[k], r.entries[k]) {
      assert Due(s.entries[k], true);
      assert Outcome(md5, server, s.entries[k].taskId in order && s.entries[k].taskId in batches.Keys,
                     s.entries[k], r.entries[k]);
    }
  }

  lemma SecondRound(md5: string -> string, s: State, net: Network, all: bool, batches: map<nat, seq<ListenContext>>,
                    order: seq<nat>, server: ConfigId -> Stored)
    requires FixedServer(md5, net, server, batches.Keys) && UpToDate(md5, server, s)
    requires IsBatching(s.entries, all, batches) && IsOrder(batches, order)
    ensures Round(md5, s, net, batches, order).entries.Keys == s.entries.Keys
    ensures forall k :: k in s.entries ==>
      && SameConfig(s.entries[k], Round(md5, s, net, batches, order).entries[k])
      && Round(md5, s, net, batches, order).entries[k].synced
  {
    QuietRound(md5, s, net, all, batches, order, server, batches.Keys);
    forall k | k in s.entries ensures order != [] || s.entries[k].synced {
      if !s.entries[k].synced {
        assert Due(s.entries[k], all);
        assert s.entries[k].taskId in order;
      }
    }
  }

  /**
  An all-sync round and one more round, every request succeeding, leave every entry synced with
  the server's md5, having run its listener once if the md5 differed and not otherwise, whatever
  order the tasks and the entries were visited in.
   */
  lemma Convergence(md5: string -> string, s: State, server: ConfigId -> Stored,
                    net1: Network, batches1: map<nat, seq<ListenContext>>, order1: seq<nat>, s1: State,
                    net2: Network, all2: bool, batches2: map<nat, seq<ListenContext>>, order2: seq<nat>)
    requires Inv(md5, s)
    requires FixedServer(md5, net1, server, batches1.Keys)
    requires IsBatching(s.entries, true, batches1) && IsOrder(batches1, order1)
    requires s1 == Round(md5, s, net1, batches1, order1)
    requires FixedServer(md5, net2, server, batches2.Keys)
    requires IsBatching(s1.entries, all2, batches2) && IsOrder(batches2, order2)
    ensures Round(md5, s1, net2, batches2, order2).entries.Keys == s.entries.Keys
    ensures forall k :: k in s.entries ==>
      && Caught(md5, server, s.entries[k], Round(md5, s1, net2, batches2, order2).entries[k])
      && Round(md5, s1, net2, batches2, order2).entries[k].synced
  {
    FirstRound(md5, s, net1, batches1, order1, server);
    SecondRound(md5, s1, net2, all2, batches2, order2, server);
    var r := Round(md5, s1, net2, batches2, order2);
    forall k | k in s.entries ensures Caught(md5, server, s.entries[k], r.entries[k]) {
      assert Caught(md5, server, s.entries[k], s1.entries[k]) && SameConfig(s1.entries[k], r.entries[k]);
    }
  }

  // ---- Why every request must succeed ------------------------------------------------------

  /** A reply that is no answer, or one with an error other than a configuration that does not exist. */
  predicate Useless(r: Reply) {
    !r.Answer? || (!r.success && r.errorCode != CONFIG_NOT_FOUND)
  }

  lemma {:induction false} UselessRefreshes(md5: string -> string, s: State, net: Network, changed: seq<ConfigId>,
                                            k: string)
    requires k in s.entries && forall time :: Useless(net.query(time, s.entries[k].id))
    ensures k in RefreshAll(md5, s, net, changed).entries
    ensures RefreshAll(md5, s, net, changed).entries[k] == s.entries[k]
    decreases |changed|
  {
    if changed != [] {
      UselessRefreshes(md5, s, net, changed[..|changed| - 1], k);
    }
  }

  /** An entry whose queries get no usable reply keeps its content and its listener is not run. */
  lemma {:induction false} UselessRepliesChangeNothing(
    md5: string -> string, s: State, net: Network, batches: map<nat, seq<ListenContext>>, order: seq<nat>, k: string)
    requires k in s.entries && forall time :: Useless(net.query(time, s.entries[k].id))
    requires forall t :: t in order ==> t in batches
    ensures k in Round(md5, s, net, batches, order).entries
    ensures SameConfig(s.entries[k], Round(md5, s, net, batches, order).entries[k])
    decreases |order|
  {
    if order != [] {
      var before, t := order[..|order| - 1], order[|order| - 1];
      UselessRepliesChangeNothing(md5, s, net, batches, before, k);
      var r := Round(md5, s, net, batches, before);
      var o := net.batch(r.clock, t, batches[t]);
      if o.BatchOk? {
        UselessRefreshes(md5, r.(clock := r.clock + 1), net, o.changed, k);
      }
    }
  }

  /** A task that compares an entry to the server and finds a difference. */
  ghost predicate Reports(md5: string -> string, server: ConfigId -> Stored, t: nat, e: Entry) {
    e.taskId == t && e.md5 != md5(server(e.id).content)
  }

  /** An answered batch marks every entry synced that it does not report, whichever task the entry is in. */
  lemma SyncedAfterTask(md5: string -> string, s: State, net: Network, t: nat, batch: seq<ListenContext>,
                        server: ConfigId -> Stored, up: set<nat>, k: string)
    requires FixedServer(md5, net, server, up) && Fresh(s, true, t, batch)
    requires k in s.entries && Sound(md5, k, s.entries[k])
    requires s.entries[k].taskId == t ==> Context(s.entries[k]) in batch
    ensures k in TaskStep(md5, s, net, t, batch).entries
    ensures TaskStep(md5, s, net, t, batch).entries[k].synced
      <==> s.entries[k].synced || (t in up && !Reports(md5, server, t, s.entries[k]))
  {
    var o := net.batch(s.clock, t, batch);
    assert AnswersBatch(md5, server, t in up, batch, o);
    if t in up {
      RefreshAllCatches(md5, s.(clock := s.clock + 1), net, o.changed, server, up, k);
      RefreshKeepsSynced(md5, s.(clock := s.clock + 1), net, o.changed, k);
      if k in Keys(o.changed) {
        ReportedEntry(md5, s, true, t, batch, o, server, k);
      } else if Reports(md5, server, t, s.entries[k]) {
        DifferingEntry(md5, s, t, batch, o, server, k);
      }
    }
  }

  lemma {:induction false} RefreshKeepsSynced(md5: string -> string, s: State, net: Network, changed: seq<ConfigId>,
                                              k: string)
    requires k in s.entries
    ensures k in RefreshAll(md5, s, net, changed).entries
    ensures RefreshAll(md5, s, net, changed).entries[k].synced == s.entries[k].synced
    decreases |changed|
  {
    if changed != [] {
      RefreshKeepsSynced(md5, s, net, changed[..|changed| - 1], k);
    }
  }

  /**
  After an all-sync round an entry is marked synced exactly if it was before, or some task was
  answered whose answer did not report it.  So an entry that its own task has just refreshed waits
  for another round, unless the answer of a different task marks it.
   */
  lemma {:induction false} SyncedAfterRound(
    md5: string -> string, s: State, net: Network, batches: map<nat, seq<ListenContext>>, order: seq<nat>,
    server: ConfigId -> Stored, up: set<nat>, k: string)
    requires Inv(md5, s) && FixedServer(md5, net, server, up)
    requires IsBatching(s.entries, true, batches)
    requires (forall t :: t in order ==> t in batches) && NoDuplicates(order)
    requires k in s.entries
    ensures k in Round(md5, s, net, batches, order).entries
    ensures Round(md5, s, net, batches, order).entries[k].synced
      <==> s.entries[k].synced || exists a :: a in order && a in up && !Reports(md5, server, a, s.entries[k])
    decreases |order|
  {
    if order != [] {
      var before := order[..|order| - 1];
      var t := order[|order| - 1];
      assert order == before + [t] && t !in before;
      SyncedAfterRound(md5, s, net, batches, before, server, up, k);
      RoundCatches(md5, s, net, batches, before, server, up);
      RoundInv(md5, s, net, batches, before);
      var r := Round(md5, s, net, batches, before);
      StillFresh(md5, s, r, t, batches[t], server, before, up);
      StillListed(md5, s.entries[k], r.entries[k], server, before, up, t, batches[t]);
      SyncedAfterTask(md5, r, net, t, batches[t], server, up, k);
    }
  }

  lemma StillListed(md5: string -> string, e: Entry, r: Entry, server: ConfigId -> Stored, before: seq<nat>,
                    up: set<nat>, t: nat, batch: seq<ListenContext>)
    requires Outcome(md5, server, e.taskId in before && e.taskId in up, e, r) && t !in before
    requires e.taskId == t ==> Context(e) in batch
    ensures r.taskId == e.taskId && (r.taskId == t ==> Context(r) in batch)
    ensures Reports(md5, server, t, r) <==> Reports(md5, server, t, e)
  {
  }

  /**
  A batch answer settles the entries of every task.  So an entry whose own task is down is marked
  synced, although nothing was compared, exactly if it already was or any task was answered.
   */
  lemma DownTaskLooksSynced(
    md5: string -> string, s: State, net: Network, batches: map<nat, seq<ListenContext>>, order: seq<nat>,
    server: ConfigId -> Stored, up: set<nat>, k: string)
    requires Inv(md5, s) && FixedServer(md5, net, server, up)
    requires IsBatching(s.entries, true, batches)
    requires (forall t :: t in order ==> t in batches) && NoDuplicates(order)
    requires k in s.entries && s.entries[k].taskId !in up
    ensures k in Round(md5, s, net, batches, order).entries
    ensures Round(md5, s, net, batches, order).entries[k].md5 == s.entries[k].md5
    ensures Round(md5, s, net, batches, order).entries[k].synced
      <==> s.entries[k].synced || exists a :: a in order && a in up
  {
    SyncedAfterRound(md5, s, net, batches, order, server, up, k);
    RoundCatches(md5, s, net, batches, order, server, up);
    assert Outcome(md5, server, false, s.entries[k], Round(md5, s, net, batches, order).entries[k]);
  }

  // ---- How many requests are made ------------------------------------------------------------

  /** An answered task makes one batch request and one query for each reported configuration. */
  lemma RequestsOfTask(md5: string -> string, s: State, net: Network, t: nat, batch: seq<ListenContext>)
    requires var o := net.batch(s.clock, t, batch); o.BatchOk? ==> Keys(o.changed) <= s.entries.Keys
    ensures var o := net.batch(s.clock, t, batch);
            TaskStep(md5, s, net, t, batch).clock == s.clock + 1 + if o.BatchOk? then |o.changed| else 0
  {
    var o := net.batch(s.clock, t, batch);
    if o.BatchOk? {
      QueriesCounted(md5, s.(clock := s.clock + 1), net, o.changed);
    }
  }

  lemma {:induction false} QueriesCounted(md5: string -> string, s: State, net: Network, changed: seq<ConfigId>)
    requires Keys(changed) <= s.entries.Keys
    ensures RefreshAll(md5, s, net, changed).clock == s.clock + |changed|
    ensures RefreshAll(md5, s, net, changed).entries.Keys == s.entries.Keys
    decreases |changed|
  {
    if changed != [] {
      var before := changed[..|changed| - 1];
      assert changed == before + [changed[|changed| - 1]];
      assert Keys(changed) == Keys(before) + {Key(changed[|changed| - 1])};
      QueriesCounted(md5, s, net, before);
    }
  }
}
