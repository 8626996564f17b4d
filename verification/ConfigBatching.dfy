/** Which entries a listen round sends, and how large its batches can get. */
module ConfigBatching {
  import opened Wrappers
  import opened ConfigSpec

  // ---- What was unsynced is in the next round ------------------------------------------------

  /** Between rounds an unsynced key stays unsynced for as long as it is listened to, also after being cancelled. */
  lemma {:induction false} StaysUnsynced(md5: string -> string, s: State, ops: seq<Op>, k: string)
    requires forall i :: 0 <= i < |ops| ==> !ops[i].RoundOp?
    requires k in s.entries ==> !s.entries[k].synced
    ensures After(md5, s, ops).Some?
    ensures var r := After(md5, s, ops).value.entries;
            k in r ==> !r[k].synced
    decreases |ops|
  {
    if ops != [] {
      StaysUnsynced(md5, s, ops[..|ops| - 1], k);
      assert !ops[|ops| - 1].RoundOp?;
    }
  }

  /** `k` is in the batch of its own task. */
  ghost predicate InItsBatch(entries: map<string, Entry>, batches: map<nat, seq<ListenContext>>, k: string)
    requires k in entries
  {
    entries[k].taskId in batches && Context(entries[k]) in batches[entries[k].taskId]
  }

  /**
  Every entry of a disconnected task that is still listened to is in its task's batch of the next
  round, whatever was listened to, cancelled, pushed or disconnected in between.
   */
  lemma DisconnectedTaskIsListed(md5: string -> string, s: State, task: nat, ops: seq<Op>, k: string,
                                 all: bool, batches: map<nat, seq<ListenContext>>)
    requires k in s.entries && s.entries[k].taskId == task
    requires forall i :: 0 <= i < |ops| ==> !ops[i].RoundOp?
    ensures After(md5, Disconnect(s, task), ops).Some?
    ensures var r := After(md5, Disconnect(s, task), ops).value.entries;
            k in r && IsBatching(r, all, batches) ==> InItsBatch(r, batches, k)
  {
    StaysUnsynced(md5, Disconnect(s, task), ops, k);
  }

  /** The same for every pushed entry. */
  lemma PushedEntryIsListed(md5: string -> string, s: State, id: ConfigId, ops: seq<Op>,
                            all: bool, batches: map<nat, seq<ListenContext>>)
    requires forall i :: 0 <= i < |ops| ==> !ops[i].RoundOp?
    ensures After(md5, Push(s, id), ops).Some?
    ensures var r := After(md5, Push(s, id), ops).value.entries;
            Key(id) in r && IsBatching(r, all, batches) ==> InItsBatch(r, batches, Key(id))
  {
    StaysUnsynced(md5, Push(s, id), ops, Key(id));
  }

  /** A round that is not an all-sync round sends exactly the unsynced entries. */
  lemma BatchedIffUnsynced(entries: map<string, Entry>, batches: map<nat, seq<ListenContext>>, k: string)
    requires IsBatching(entries, false, batches) && k in entries && Key(entries[k].id) == k
    ensures InItsBatch(entries, batches, k) <==> !entries[k].synced
  {
    if InItsBatch(entries, batches, k) {
      assert Listed(entries, false, entries[k].taskId, Context(entries[k]));
    }
  }

  /** A disconnect adds exactly the entries of its task to the next round. */
  lemma DisconnectAddsItsTask(s: State, task: nat, k: string, batches: map<nat, seq<ListenContext>>)
    requires k in s.entries && Key(s.entries[k].id) == k
    requires IsBatching(Disconnect(s, task).entries, false, batches)
    ensures InItsBatch(Disconnect(s, task).entries, batches, k) <==> !s.entries[k].synced || s.entries[k].taskId == task
  {
    BatchedIffUnsynced(Disconnect(s, task).entries, batches, k);
  }

  /** A push adds exactly its own entry. */
  lemma PushAddsItsEntry(s: State, id: ConfigId, k: string, batches: map<nat, seq<ListenContext>>)
    requires k in s.entries && Key(s.entries[k].id) == k
    requires IsBatching(Push(s, id).entries, false, batches)
    ensures InItsBatch(Push(s, id).entries, batches, k) <==> !s.entries[k].synced || k == Key(id)
  {
    BatchedIffUnsynced(Push(s, id).entries, batches, k);
  }

  // ---- What is listened to -------------------------------------------------------------------

  /** The entry of a configuration that is listened to for the first time. */
  ghost predicate NewlyListened(md5: string -> string, e: Entry, id: ConfigId, content: string, dataKey: string,
                                task: nat) {
    && e.id == id && e.content == content && e.dataKey == dataKey && e.contentType == ""
    && e.md5 == e.lastMd5 == (if content == "" then "" else md5(content)) && e.history == [e.md5]
    && e.taskId == task && !e.synced
  }

  lemma {:induction false} StaysListened(md5: string -> string, s: State, ops: seq<Op>, id: ConfigId, content: string,
                                         dataKey: string, task: nat)
    requires Key(id) in s.entries && NewlyListened(md5, s.entries[Key(id)], id, content, dataKey, task)
    requires forall i :: 0 <= i < |ops| ==> !ops[i].RoundOp? && !(ops[i].CancelOp? && Key(ops[i].id) == Key(id))
    ensures After(md5, s, ops).Some?
    ensures var r := After(md5, s, ops).value.entries;
            Key(id) in r && NewlyListened(md5, r[Key(id)], id, content, dataKey, task)
    decreases |ops|
  {
    if ops != [] {
      StaysListened(md5, s, ops[..|ops| - 1], id, content, dataKey, task);
      var op := ops[|ops| - 1];
      assert !op.RoundOp? && !(op.CancelOp? && Key(op.id) == Key(id));
    }
  }

  /**
  A configuration listened to for the first time holds its snapshot until the next round, whatever
  else is called but its cancellation, and is in that round's batch with the md5 of the snapshot.
  Without a data id or a group nothing is listened to.
   */
  lemma FirstListen(md5: string -> string, s: State, id: ConfigId, content: string, dataKey: string, ops: seq<Op>,
                    all: bool, batches: map<nat, seq<ListenContext>>)
    requires Key(id) !in s.entries
    requires forall i :: 0 <= i < |ops| ==> !ops[i].RoundOp? && !(ops[i].CancelOp? && Key(ops[i].id) == Key(id))
    ensures id.dataId == "" || id.group == "" ==> Listen(md5, s, id, content, dataKey) == s
    ensures id.dataId != "" && id.group != "" ==>
      && After(md5, Listen(md5, s, id, content, dataKey), ops).Some?
      && var r := After(md5, Listen(md5, s, id, content, dataKey), ops).value.entries;
         && Key(id) in r
         && NewlyListened(md5, r[Key(id)], id, content, dataKey, |s.entries| / PER_TASK_CONFIG_SIZE)
         && (IsBatching(r, all, batches) ==> InItsBatch(r, batches, Key(id)))
  {
    if id.dataId != "" && id.group != "" {
      StaysListened(md5, Listen(md5, s, id, content, dataKey), ops, id, content, dataKey,
                    |s.entries| / PER_TASK_CONFIG_SIZE);
    }
  }

  // ---- Batch sizes -------------------------------------------------------------------------

  function TaskKeys(entries: map<string, Entry>, t: nat): set<string> {
    set k | k in entries && entries[k].taskId == t
  }

  function Clamp(n: int): nat {
    if n < 0 then 0 else if n > PER_TASK_CONFIG_SIZE then PER_TASK_CONFIG_SIZE else n
  }

  /** Tasks fill up one after the other. */
  ghost predicate Packed(entries: map<string, Entry>) {
    forall t: nat :: |TaskKeys(entries, t)| == Clamp(|entries| - PER_TASK_CONFIG_SIZE * t)
  }

  lemma SameTasksPacked(a: map<string, Entry>, b: map<string, Entry>)
    requires Packed(a) && a.Keys == b.Keys && forall k :: k in a ==> b[k].taskId == a[k].taskId
    ensures Packed(b)
  {
    assert |a| == |a.Keys| && |b| == |b.Keys|;
    forall t: nat ensures |TaskKeys(b, t)| == Clamp(|b| - PER_TASK_CONFIG_SIZE * t) {
      assert TaskKeys(b, t) == TaskKeys(a, t);
    }
  }

  lemma ClampStep(n: nat, t: nat)
    ensures Clamp(n + 1 - PER_TASK_CONFIG_SIZE * t)
         == Clamp(n - PER_TASK_CONFIG_SIZE * t) + if t == n / PER_TASK_CONFIG_SIZE then 1 else 0
  {
  }

  lemma NewEntryTask(a: map<string, Entry>, k: string, e: Entry, t: nat)
    requires k !in a
    ensures |TaskKeys(a[k := e], t)| == |TaskKeys(a, t)| + if t == e.taskId then 1 else 0
  {
    if t == e.taskId {
      assert TaskKeys(a[k := e], t) == TaskKeys(a, t) + {k};
    } else {
      assert TaskKeys(a[k := e], t) == TaskKeys(a, t);
    }
  }

  lemma NewEntryPacked(a: map<string, Entry>, k: string, e: Entry)
    requires Packed(a) && k !in a && e.taskId == |a| / PER_TASK_CONFIG_SIZE
    ensures Packed(a[k := e])
  {
    var b := a[k := e];
    assert b.Keys == a.Keys + {k};
    assert |b| == |a| + 1;
    forall t: nat ensures |TaskKeys(b, t)| == Clamp(|b| - PER_TASK_CONFIG_SIZE * t) {
      ClampStep(|a|, t);
      NewEntryTask(a, k, e, t);
    }
  }

  lemma ListenPacked(md5: string -> string, s: State, op: Op)
    requires op.ListenOp? && Packed(s.entries)
    ensures Packed(Listen(md5, s, op.id, op.content, op.dataKey).entries)
  {
    var r := Listen(md5, s, op.id, op.content, op.dataKey);
    if op.id.dataId != "" && op.id.group != "" && Key(op.id) !in s.entries {
      NewEntryPacked(s.entries, Key(op.id), r.entries[Key(op.id)]);
    } else {
      SameTasksPacked(s.entries, r.entries);
    }
  }

  lemma RoundPacked(md5: string -> string, s: State, op: Op)
    requires op.RoundOp? && Inv(md5, s) && Packed(s.entries) && Apply(md5, s, op).Some?
    ensures Packed(Apply(md5, s, op).value.entries)
  {
    NothingToFlush(md5, s);
    RoundInv(md5, s, op.net, op.batches, op.order);
    SameTasksPacked(s.entries, Apply(md5, s, op).value.entries);
  }

  lemma PackedStep(md5: string -> string, s: State, op: Op)
    requires Inv(md5, s) && Packed(s.entries) && !op.CancelOp? && Apply(md5, s, op).Some?
    ensures Packed(Apply(md5, s, op).value.entries)
  {
    if op.ListenOp? {
      ListenPacked(md5, s, op);
    } else if op.RoundOp? {
      RoundPacked(md5, s, op);
    } else {
      SameTasksPacked(s.entries, Apply(md5, s, op).value.entries);
    }
  }

  lemma {:induction false} CancelFreeRunPacked(md5: string -> string, ops: seq<Op>)
    requires md5("") == "" && After(md5, EMPTY, ops).Some?
    requires forall i :: 0 <= i < |ops| ==> !ops[i].CancelOp?
    ensures Packed(After(md5, EMPTY, ops).value.entries)
    decreases |ops|
  {
    if ops == [] {
      assert forall t: nat :: TaskKeys(map[], t) == {};
    } else {
      var before := ops[..|ops| - 1];
      CancelFreeRunPacked(md5, before);
      RunInvariant(md5, before);
      PackedStep(md5, After(md5, EMPTY, before).value, ops[|ops| - 1]);
    }
  }

  function ContextKeys(batch: seq<ListenContext>): set<string> {
    set x | x in batch :: Key(x.id)
  }

  lemma {:induction false} BatchKeysDistinct(entries: map<string, Entry>, all: bool, t: nat, batch: seq<ListenContext>)
    requires NoDuplicates(batch) && forall x :: x in batch ==> Listed(entries, all, t, x)
    ensures |ContextKeys(batch)| == |batch| && ContextKeys(batch) <= TaskKeys(entries, t)
  {
    if batch != [] {
      var n := |batch| - 1;
      var before := batch[..n];
      assert batch == before + [batch[n]];
      BatchKeysDistinct(entries, all, t, before);
      assert ContextKeys(batch) == ContextKeys(before) + {Key(batch[n].id)};
      assert Listed(entries, all, t, batch[n]) && batch[n] !in before;
    }
  }

  lemma SubsetSize<T>(a: set<T>, b: set<T>)
    requires a <= b
    ensures |a| <= |b|
  {
    assert b == a + (b - a);
  }

  /** In a run without cancellations no batch of the next round exceeds the task size. */
  lemma BatchesBounded(md5: string -> string, ops: seq<Op>, all: bool, batches: map<nat, seq<ListenContext>>, t: nat)
    requires md5("") == "" && After(md5, EMPTY, ops).Some?
    requires forall i :: 0 <= i < |ops| ==> !ops[i].CancelOp?
    requires IsBatching(After(md5, EMPTY, ops).value.entries, all, batches) && t in batches
    ensures |batches[t]| <= PER_TASK_CONFIG_SIZE
  {
    var entries := After(md5, EMPTY, ops).value.entries;
    CancelFreeRunPacked(md5, ops);
    BatchKeysDistinct(entries, all, t, batches[t]);
    SubsetSize(ContextKeys(batches[t]), TaskKeys(entries, t));
  }
}
