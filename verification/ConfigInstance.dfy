/**
An instance of a task that is down: two tasks, of which task 1 is not answered, and a server whose
contents are all new.  The state is reached from a new client.
 */
module ConfigInstance {
  import opened Wrappers
  import opened ConfigSpec
  import opened ConfigConvergence

  function Plain(x: string): string { x }

  function NewContent(id: ConfigId): Stored { Stored(false, "new", "text", "") }

  function Differing(batch: seq<ListenContext>): seq<ConfigId> {
    if batch == [] then []
    else (if batch[0].md5 != "new" then [batch[0].id] else []) + Differing(batch[1..])
  }

  function AnswerBatch(time: nat, task: nat, batch: seq<ListenContext>): BatchOutcome {
    if task == 0 then BatchOk(Differing(batch)) else BatchFailed
  }

  function AnswerQuery(time: nat, id: ConfigId): Reply {
    Answer(true, 0, "new", "text", "")
  }

  lemma {:induction false} DifferingIs(batch: seq<ListenContext>, id: ConfigId)
    ensures id in Differing(batch) <==> exists x :: x in batch && x.id == id && Plain(NewContent(id).content) != x.md5
  {
    if batch != [] {
      DifferingIs(batch[1..], id);
      assert forall x :: x in batch <==> x == batch[0] || x in batch[1..];
    }
  }

  lemma HalfServer()
    ensures FixedServer(Plain, Network(AnswerBatch, AnswerQuery), NewContent, {0})
  {
    forall time, task, batch: seq<ListenContext>
      ensures AnswersBatch(Plain, NewContent, task in {0}, batch, AnswerBatch(time, task, batch))
    {
      forall id
        ensures id in Differing(batch) <==>
          exists x :: x in batch && x.id == id && Plain(NewContent(id).content) != x.md5
      {
        DifferingIs(batch, id);
      }
    }
  }

  function OldEntry(name: string, task: nat): Entry {
    Entry(ConfigId(name, "g", ""), "old", "", "", "old", "old", ["old"], task, true, false)
  }

  const TWO_TASKS: map<string, Entry> := map["a@@g@@" := OldEntry("a", 0), "b@@g@@" := OldEntry("b", 1)]

  const TWO_BATCHES: map<nat, seq<ListenContext>> :=
    map[0 := [Context(OldEntry("a", 0))], 1 := [Context(OldEntry("b", 1))]]

  lemma TwoBatches()
    ensures Inv(Plain, State(TWO_TASKS, 0)) && IsBatching(TWO_TASKS, true, TWO_BATCHES)
  {
    assert Key(ConfigId("a", "g", "")) == "a@@g@@" && Key(ConfigId("b", "g", "")) == "b@@g@@";
  }

  // That state is reached: the second task begins with the 3001st configuration

  lemma {:induction false} AfterConcat(md5: string -> string, s: State, a: seq<Op>, b: seq<Op>)
    requires After(md5, s, a).Some?
    ensures After(md5, s, a + b) == After(md5, After(md5, s, a).value, b)
    decreases |b|
  {
    if b == [] {
      assert a + b == a;
    } else {
      var n := |b| - 1;
      AfterConcat(md5, s, a, b[..n]);
      assert (a + b)[..|a + b| - 1] == a + b[..n];
    }
  }

  lemma AfterOne(md5: string -> string, s: State, op: Op)
    ensures After(md5, s, [op]) == Apply(md5, s, op)
  {
    assert [op][..0] == [];
  }

  function FillerName(k: nat): (name: string)
    ensures |name| == k + 2
  {
    if k == 0 then "xx" else FillerName(k - 1) + "x"
  }

  function Filler(k: nat): ConfigId {
    ConfigId(FillerName(k), "g", "")
  }

  lemma FillersDiffer(j: nat, k: nat, name: string)
    requires |name| == 1
    ensures j != k ==> Key(Filler(j)) != Key(Filler(k))
    ensures Key(Filler(j)) != Key(ConfigId(name, "g", ""))
  {
    assert |Key(Filler(j))| == j + 7 && |Key(Filler(k))| == k + 7 && |Key(ConfigId(name, "g", ""))| == 6;
  }

  lemma AfterWrapped(md5: string -> string, s: State, first: Op, ops: seq<Op>, last: Op, s1: State, s2: State)
    returns (more: seq<Op>)
    requires Apply(md5, s, first) == Some(s1) && After(md5, s1, ops) == Some(s2)
    ensures After(md5, s, more) == Apply(md5, s2, last)
  {
    more := ([first] + ops) + [last];
    AfterOne(md5, s, first);
    AfterConcat(md5, s, [first], ops);
    AfterConcat(md5, s, [first] + ops, [last]);
    AfterOne(md5, s2, last);
  }

  ghost predicate Unused(entries: map<string, Entry>, k: nat) {
    forall j: nat :: j <= k ==> Key(Filler(j)) !in entries
  }

  lemma FillerListened(md5: string -> string, s: State, k: nat, name: string) returns (s1: State)
    requires |name| == 1 && k > 0 && Key(ConfigId(name, "g", "")) !in s.entries && Unused(s.entries, k)
    ensures Apply(md5, s, ListenOp(Filler(k), "", "")) == Some(s1) && s1.clock == s.clock
    ensures |s1.entries| == |s.entries| + 1 && s1.entries - {Key(Filler(k))} == s.entries
    ensures Key(ConfigId(name, "g", "")) !in s1.entries && Unused(s1.entries, k - 1)
  {
    s1 := Listen(md5, s, Filler(k), "", "");
    var filler := Key(Filler(k));
    assert s1.entries.Keys == s.entries.Keys + {filler} && |s1.entries| == |s.entries| + 1;
    FillersDiffer(k, k + 1, name);
    forall j: nat | j <= k - 1
      ensures Key(Filler(j)) !in s1.entries
    {
      FillersDiffer(j, k, name);
    }
  }

  function Added(s: State, name: string, task: nat): State {
    s.(entries := s.entries[Key(ConfigId(name, "g", "")) := OldEntry(name, task)])
  }

  lemma ListenAdds(md5: string -> string, s: State, name: string, task: nat) returns (ops: seq<Op>)
    requires md5("old") == "old" && |name| == 1 && Key(ConfigId(name, "g", "")) !in s.entries
    requires task == |s.entries| / PER_TASK_CONFIG_SIZE
    ensures After(md5, s, ops) == Some(Added(s, name, task))
  {
    ops := [ListenOp(ConfigId(name, "g", ""), "old", "")];
    AfterOne(md5, s, ops[0]);
  }

  lemma CancelFiller(md5: string -> string, s: State, s1: State, k: nat, name: string, task: nat)
    requires |name| == 1 && s1.clock == s.clock && s1.entries - {Key(Filler(k))} == s.entries
    ensures Apply(md5, Added(s1, name, task), CancelOp(Filler(k))) == Some(Added(s, name, task))
  {
    FillersDiffer(k, k + 1, name);
    var key := Key(ConfigId(name, "g", ""));
    assert Added(s1, name, task).entries - {Key(Filler(k))} ==
      (s1.entries - {Key(Filler(k))})[key := OldEntry(name, task)];
  }

  /** Listening to a configuration while `k` fillers are listened to puts it into the task of their number. */
  lemma {:induction false} SurroundedListen(md5: string -> string, s: State, k: nat, name: string, task: nat)
    returns (ops: seq<Op>)
    requires md5("old") == "old" && |name| == 1 && Key(ConfigId(name, "g", "")) !in s.entries && Unused(s.entries, k)
    requires task == (|s.entries| + k) / PER_TASK_CONFIG_SIZE
    ensures After(md5, s, ops) == Some(Added(s, name, task))
    decreases k
  {
    if k == 0 {
      ops := ListenAdds(md5, s, name, task);
    } else {
      var s1 := FillerListened(md5, s, k, name);
      var inner := SurroundedListen(md5, s1, k - 1, name, task);
      CancelFiller(md5, s, s1, k, name, task);
      var first, last := ListenOp(Filler(k), "", ""), CancelOp(Filler(k));
      ops := AfterWrapped(md5, s, first, inner, last, s1, Added(s1, name, task));
    }
  }

  lemma TwoTasksAreReached() returns (ops: seq<Op>)
    ensures After(Plain, EMPTY, ops) == Some(State(TWO_TASKS, 0))
  {
    assert Key(ConfigId("a", "g", "")) == "a@@g@@" && Key(ConfigId("b", "g", "")) == "b@@g@@";
    var first := SurroundedListen(Plain, EMPTY, 0, "a", 0);
    var one := State(map["a@@g@@" := OldEntry("a", 0)], 0);
    forall j: nat
      ensures Key(Filler(j)) !in one.entries
    {
      FillersDiffer(j, j + 1, "a");
    }
    var second := SurroundedListen(Plain, one, PER_TASK_CONFIG_SIZE - 1, "b", 1);
    assert one.entries["b@@g@@" := OldEntry("b", 1)] == TWO_TASKS;
    AfterConcat(Plain, EMPTY, first, second);
    ops := first + second;
  }

  /** The entry at `k` is marked synced and has kept an md5 that the server does not have. */
  ghost predicate LooksSynced(md5: string -> string, server: ConfigId -> Stored, e: Entry, entries: map<string, Entry>,
                              k: string) {
    k in entries && entries[k].synced && entries[k].md5 == e.md5 != md5(server(e.id).content)
  }

  lemma HalfRound(md5: string -> string, s: State, net: Network, batches: map<nat, seq<ListenContext>>, order: seq<nat>,
                  server: ConfigId -> Stored, up: set<nat>, k: string, a: nat)
    requires Inv(md5, s) && FixedServer(md5, net, server, up)
    requires IsBatching(s.entries, true, batches) && IsOrder(batches, order)
    requires k in s.entries && s.entries[k].taskId !in up && s.entries[k].md5 != md5(server(s.entries[k].id).content)
    requires a in order && a in up
    ensures var r := Apply(md5, s, RoundOp(net, true, batches, order));
            r.Some? && LooksSynced(md5, server, s.entries[k], r.value.entries, k)
  {
    NothingToFlush(md5, s);
    DownTaskLooksSynced(md5, s, net, batches, order, server, up, k);
  }

  /** A run from a new client whose last round marks the entry of the task that is down synced, with the old md5. */
  lemma DownTaskInstance() returns (ops: seq<Op>)
    ensures After(Plain, EMPTY, ops).Some?
    ensures LooksSynced(Plain, NewContent, OldEntry("b", 1), After(Plain, EMPTY, ops).value.entries, "b@@g@@")
  {
    var before := TwoTasksAreReached();
    HalfServer();
    TwoBatches();
    ops := OneMoreRound(before, State(TWO_TASKS, 0), TWO_BATCHES, [0, 1], "b@@g@@");
  }

  lemma OneMoreRound(before: seq<Op>, s: State, batches: map<nat, seq<ListenContext>>, order: seq<nat>, k: string)
    returns (ops: seq<Op>)
    requires After(Plain, EMPTY, before) == Some(s)
    requires Inv(Plain, s) && FixedServer(Plain, Network(AnswerBatch, AnswerQuery), NewContent, {0})
    requires IsBatching(s.entries, true, batches) && IsOrder(batches, order) && 0 in order
    requires k in s.entries && s.entries[k].taskId == 1 && s.entries[k].md5 == "old"
    ensures After(Plain, EMPTY, ops).Some?
    ensures LooksSynced(Plain, NewContent, s.entries[k], After(Plain, EMPTY, ops).value.entries, k)
  {
    var net := Network(AnswerBatch, AnswerQuery);
    var round := RoundOp(net, true, batches, order);
    HalfRound(Plain, s, net, batches, order, NewContent, {0}, k, 0);
    AfterOne(Plain, s, round);
    AfterConcat(Plain, EMPTY, before, [round]);
    ops := before + [round];
  }
}
