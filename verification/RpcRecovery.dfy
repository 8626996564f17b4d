/**
When the worker reconnects and when it does not: what leaves a running client alone, how a probe
restores it, how a vanished server is replaced, and who holds the mutex.
 */
module RpcRecovery {
  import opened Wrappers
  import opened Sequences
  import opened RpcClient
  import opened RpcEvents

  // ---- The mutex -----------------------------------------------------------------------------

  /** Between `mux.Lock()` and `mux.Unlock()`. */
  predicate InMutex(pc: ThreadPc) {
    pc.UnregLocked? || pc.UnregSwapped? || pc.UnregUnlock? || pc.ResetLocked? || pc.ResetSending? || pc.ResetUnlock?
  }

  ghost predicate MutexHeld(c: Client) {
    forall t :: (t in c.threads && InMutex(c.threads[t])) <==> c.mux == Some(t)
  }

  /** Only the thread itself enters or leaves, and enters only when the mutex is free. */
  predicate MutexEffect(c: Client, t: nat, d: Client)
    requires t in c.threads && t in d.threads
  {
    if InMutex(d.threads[t]) == InMutex(c.threads[t]) then d.mux == c.mux
    else if InMutex(d.threads[t]) then c.mux == None && d.mux == Some(t)
    else d.mux == None
  }

  lemma MutexRequest(c: Client, t: nat, act: Act)
    requires t in c.threads && InRequest(c.threads[t]) && NextRequest(c, t, act).Some?
    ensures t in NextRequest(c, t, act).value.threads && MutexEffect(c, t, NextRequest(c, t, act).value)
  {
  }

  lemma MutexReader(c: Client, t: nat, act: Act)
    requires t in c.threads && !InRequest(c.threads[t]) && !InShutdown(c.threads[t]) && !c.threads[t].Finished?
    requires NextReader(c, t, act).Some?
    ensures t in NextReader(c, t, act).value.threads && MutexEffect(c, t, NextReader(c, t, act).value)
  {
    match c.threads[t]
    case Receiving(_) =>
    case ResetUnlock(_) =>
    case _ =>
  }

  lemma MutexThread(c: Client, t: nat, act: Act)
    requires t in c.threads && NextThread(c, t, act).Some?
    ensures t in NextThread(c, t, act).value.threads && MutexEffect(c, t, NextThread(c, t, act).value)
  {
    if InRequest(c.threads[t]) {
      MutexRequest(c, t, act);
    } else if !InShutdown(c.threads[t]) {
      MutexReader(c, t, act);
    }
  }

  lemma MutexNewThreads(c: Client, d: Client)
    requires MutexHeld(c) && d.mux == c.mux && ThreadsStay(c, d) && NewThreadsOutside(c, d)
    ensures MutexHeld(d)
  {
  }

  lemma MutexStep(c: Client, step: Step)
    requires MutexHeld(c) && Next(c, step).Some?
    ensures MutexHeld(Next(c, step).value)
  {
    var d := Next(c, step).value;
    if step.Thread? {
      ThreadFrame(c, step.t, step.act);
      MutexThread(c, step.t, step.act);
    } else {
      OthersKeepMutex(c, step);
      MutexNewThreads(c, d);
    }
  }

  /** New threads start outside the mutex. */
  predicate NewThreadsOutside(c: Client, d: Client) {
    forall t :: t in d.threads && t !in c.threads ==> !InMutex(d.threads[t])
  }

  lemma WorkerKeepsMutex(c: Client, choice: Choice)
    requires NextWorker(c, choice).Some?
    ensures NextWorker(c, choice).value.mux == c.mux && NewThreadsOutside(c, NextWorker(c, choice).value)
  {
    match c.worker
    case Selecting =>
    case Dialling =>
    case _ =>
  }

  lemma StartKeepsMutex(c: Client, dial: Dial)
    requires Fits(c, dial) && NextStart(c, dial).Some?
    ensures var d := NextStart(c, dial).value;
            d.mux == c.mux && ThreadsStay(c, d) && NewThreadsOutside(c, d)
  {
  }

  lemma OthersKeepMutex(c: Client, step: Step)
    requires !step.Thread? && Next(c, step).Some?
    ensures var d := Next(c, step).value;
            d.mux == c.mux && ThreadsStay(c, d) && NewThreadsOutside(c, d)
  {
    match step
    case StartCall(dial) => StartKeepsMutex(c, dial);
    case Worker(choice) =>
      WorkerKeepsThreads(c, choice);
      WorkerKeepsMutex(c, choice);
    case _ =>
  }

  /** In every interleaving, the mutex is held by exactly the one thread that is between lock and unlock. */
  lemma {:induction false} MutexExcludes(steps: seq<Step>)
    requires After(Init(), steps).Some?
    ensures MutexHeld(After(Init(), steps).value)
    ensures var c := After(Init(), steps).value;
            forall t, u :: t in c.threads && u in c.threads && InMutex(c.threads[t]) && InMutex(c.threads[u]) ==> t == u
    decreases |steps|
  {
    if steps != [] {
      var before := steps[..|steps| - 1];
      MutexExcludes(before);
      MutexStep(After(Init(), before).value, steps[|steps| - 1]);
    }
  }

  // ---- The channels ---------------------------------------------------------------------------

  /** Both channels hold at most one message. */
  predicate Bounded(c: Client) {
    |c.reconnects| <= 1 && |c.events| <= 1
  }

  lemma BoundedRequest(c: Client, t: nat, act: Act)
    requires Bounded(c) && t in c.threads && InRequest(c.threads[t]) && NextRequest(c, t, act).Some?
    ensures Bounded(NextRequest(c, t, act).value)
  {
  }

  lemma BoundedReader(c: Client, t: nat, act: Act)
    requires t in c.threads && !InRequest(c.threads[t]) && !InShutdown(c.threads[t]) && !c.threads[t].Finished?
    requires Bounded(c) && NextReader(c, t, act).Some?
    ensures Bounded(NextReader(c, t, act).value)
  {
    match c.threads[t]
    case Receiving(_) =>
    case _ =>
  }

  lemma BoundedWorker(c: Client, choice: Choice)
    requires Bounded(c) && NextWorker(c, choice).Some?
    ensures Bounded(NextWorker(c, choice).value)
  {
    match c.worker
    case Selecting =>
    case Dialling =>
    case _ =>
  }

  lemma BoundedStep(c: Client, step: Step)
    requires Bounded(c) && Next(c, step).Some?
    ensures Bounded(Next(c, step).value)
  {
    match step
    case Worker(choice) => BoundedWorker(c, choice);
    case Thread(t, act) =>
      if InRequest(c.threads[t]) {
        BoundedRequest(c, t, act);
      } else if !InShutdown(c.threads[t]) {
        BoundedReader(c, t, act);
      }
    case _ =>
  }

  /** In every interleaving, a sender waits while its channel holds a message. */
  lemma {:induction false} ChannelsBounded(steps: seq<Step>)
    requires After(Init(), steps).Some?
    ensures Bounded(After(Init(), steps).value)
    decreases |steps|
  {
    if steps != [] {
      var before := steps[..|steps| - 1];
      ChannelsBounded(before);
      BoundedStep(After(Init(), before).value, steps[|steps| - 1]);
    }
  }

  // ---- Start ----------------------------------------------------------------------------------

  /** `Start` in its dial loop can connect: the client runs, and CONNECTED is sent. */
  lemma StartConnects(c: Client, k: nat, r: nat) returns (run: seq<Step>, d: Client)
    requires c.start.Booting? && c.start.retries > 0 && k !in c.conns && r !in c.threads && c.events == []
    ensures After(c, run) == Some(d)
    ensures d.status == Running && d.current == Some(k) && d.start.Started? && Sent(d) == Sent(c) + [Connected]
  {
    run := Extend(c, [], c, StartCall(Open(k, r)));
    d := Bound(c, Open(k, r)).(start := Booted(k));
    run := Extend(c, run, d, StartCall(Refused));
    d := d.(current := Some(k), installed := d.installed + {k}, start := BootStore);
    run := Extend(c, run, d, StartCall(Refused));
    run, d := StartAnnounces(c, run, d.(status := Running, start := BootNotify));
  }

  lemma StartAnnounces(c: Client, before: seq<Step>, b: Client) returns (run: seq<Step>, d: Client)
    requires After(c, before) == Some(b) && b.start.BootNotify? && b.events == []
    ensures After(c, run) == Some(d) && d == b.(start := Started, events := [] + [Connected])
    ensures Sent(d) == Sent(b) + [Connected]
  {
    SendAppends(b, Connected);
    run := Extend(c, before, b, StartCall(Refused));
    d := b.(start := Started, events := [] + [Connected]);
  }

  /** After as many refused dials as are left, `Start` asks the worker to reconnect and returns. */
  lemma {:induction false} StartGivesUp(c: Client, refused: Step) returns (run: seq<Step>)
    requires c.start.Booting? && c.reconnects == [] && refused == StartCall(Refused)
    ensures |run| == c.start.retries + 2 && forall i :: 0 <= i < |run| ==> run[i] == refused
    ensures After(c, run) == Some(c.(start := Started, reconnects := [Reconnect(false)]))
    decreases c.start.retries
  {
    if c.start.retries == 0 {
      run := StartAsks(c, refused);
    } else {
      var b := c.(start := Booting(c.start.retries - 1));
      var first := Then(c, [], c, refused, b);
      var rest := StartGivesUp(b, refused);
      AfterConcat(c, first, rest);
      run := first + rest;
    }
  }

  lemma StartAsks(c: Client, refused: Step) returns (run: seq<Step>)
    requires c.start == Booting(0) && c.reconnects == [] && refused == StartCall(Refused)
    ensures |run| == 2 && run[0] == refused && run[1] == refused
    ensures After(c, run) == Some(c.(start := Started, reconnects := [Reconnect(false)]))
  {
    var b := c.(start := BootSwitch);
    run := Then(c, [], c, refused, b);
    StartSwitches(b);
    run := Then(c, run, b, refused, c.(start := Started, reconnects := [Reconnect(false)]));
  }

  lemma StartSwitches(b: Client)
    requires b.start.BootSwitch? && b.reconnects == []
    ensures Next(b, StartCall(Refused)) == Some(b.(start := Started, reconnects := [Reconnect(false)]))
  {
    assert b.reconnects + [Reconnect(false)] == [Reconnect(false)];
  }

  /** With three refused dials the first `Start` returns in STARTING with a reconnect queued. */
  lemma ThreeRefusedDials(refused: Step) returns (run: seq<Step>, c: Client)
    requires refused == StartCall(Refused)
    ensures |run| == 6 && (forall i :: 0 <= i < |run| ==> run[i] == refused) && After(Init(), run) == Some(c)
    ensures c.status == Starting && c.start.Started? && c.worker.Selecting? && c.reconnects == [Reconnect(false)]
  {
    var b := Init().(status := Starting, start := Booting(3), worker := Selecting);
    var first := Then(Init(), [], Init(), refused, b);
    var rest := StartGivesUp(b, refused);
    AfterConcat(Init(), first, rest);
    run := first + rest;
    c := b.(start := Started, reconnects := [Reconnect(false)]);
  }

  // ---- What leaves a running client alone ----------------------------------------------------

  /**
  A recent or healthy connection, a server still in the list, requests that succeed, streams that
  end and resets whose port cannot be read.
   */
  predicate CalmStep(step: Step) {
    match step
    case StartCall(_) => true
    case Worker(Timer(recent, healthy)) => recent || healthy
    case Worker(ServerListChanged(gone)) => !gone
    case Worker(_) => true
    case Notifier => true
    case Spawn(_, pc) => pc.Requesting?
    case Thread(_, act) => act == Succeed || act == StreamDone || act == RecvReset(BadPort) || act == Continue
  }

  predicate CalmThread(pc: ThreadPc) {
    pc.Requesting? || pc.Receiving? || pc.Finished? || pc.ResetUnlock? || (pc.ResetLocked? && pc.reset.BadPort?)
  }

  /** Running, with nothing under way that would change that. */
  ghost predicate Calm(c: Client) {
    && c.status == Running && c.current.Some? && c.start.Started? && c.worker.Selecting? && c.reconnects == []
    && forall t :: t in c.threads ==> CalmThread(c.threads[t])
  }

  lemma CalmNext(c: Client, step: Step)
    requires Calm(c) && CalmStep(step) && Next(c, step).Some?
    ensures var d := Next(c, step).value;
            Calm(d) && d.current == c.current && d.conns == c.conns && Sent(d) == Sent(c)
  {
    match step
    case Notifier => NotifierMoves(c);
    case Worker(choice) =>
    case _ =>
  }

  /** Nothing but trouble makes a running client reconnect: the connection stays and no event is sent. */
  lemma {:induction false} CalmStaysUp(c: Client, steps: seq<Step>)
    requires Calm(c) && (forall i :: 0 <= i < |steps| ==> CalmStep(steps[i])) && After(c, steps).Some?
    ensures var d := After(c, steps).value;
            Calm(d) && d.current == c.current && d.conns == c.conns && Sent(d) == Sent(c)
    decreases |steps|
  {
    if steps != [] {
      var before := steps[..|steps| - 1];
      CalmStaysUp(c, before);
      CalmNext(After(c, before).value, steps[|steps| - 1]);
    }
  }

  // ---- A probe restores the current connection -----------------------------------------------

  /** Asked to probe first, the worker restores a client whose server still answers, with the same connection. */
  lemma ProbeRestores(c: Client) returns (run: seq<Step>, d: Client)
    requires c.worker.Selecting? && c.reconnects == [Reconnect(true)] && c.current.Some?
    requires |c.events| <= CHANNEL_CAPACITY
    ensures After(c, run) == Some(d)
    ensures d.status == Running && d.worker.Selecting? && d.reconnects == []
    ensures d.current == c.current && d.conns == c.conns && Sent(d) == Sent(c) + [Connected]
  {
    var c1 := c.(reconnects := [], worker := Taken(Reconnect(true)));
    assert c.reconnects[1..] == [];
    run := Extend(c, [], c, Worker(TakeMessage));
    run := Extend(c, run, c1, Worker(Probe(true)));
    run := Extend(c, run, c1.(worker := Restoring), Worker(Go));
    run, d := WorkerAnnounces(c, run, c1.(status := Running, worker := Announcing));
  }

  lemma WorkerAnnounces(c: Client, before: seq<Step>, b: Client) returns (run: seq<Step>, d: Client)
    requires After(c, before) == Some(b) && b.worker.Announcing? && |b.events| <= CHANNEL_CAPACITY
    ensures After(c, run) == Some(d)
    ensures d == b.(worker := Selecting, events := d.events, delivered := d.delivered)
    ensures Sent(d) == Sent(b) + [Connected]
  {
    run, d := before, b;
    if b.events != [] {
      run := Extend(c, run, b, Notifier);
      NotifierMoves(b);
      d := Next(b, Notifier).value;
    }
    SendAppends(d, Connected);
    run := Extend(c, run, d, Worker(Go));
    d := SendEvent(d, Connected).value.(worker := Selecting);
  }

  /** A request that gives up asks for a probe. */
  lemma GiveUpAsks(c: Client, t: nat) returns (run: seq<Step>, d: Client)
    requires c.status == Running && c.reconnects == [] && t in c.threads && c.threads[t].Requesting?
    ensures After(c, run) == Some(d) && run == [Thread(t, GiveUp), Thread(t, Continue), Thread(t, Continue)]
    ensures d == c.(status := Unhealthy, reconnects := [Reconnect(true)], threads := d.threads)
  {
    run := Extend(c, [], c, Thread(t, GiveUp));
    d := Move(c, t, GivingUp);
    run := Extend(c, run, d, Thread(t, Continue));
    d := Move(d, t, GaveUpSwapped).(status := Unhealthy);
    assert d.reconnects + [Reconnect(true)] == [Reconnect(true)];
    run := Extend(c, run, d, Thread(t, Continue));
    d := Move(d, t, Finished).(reconnects := [Reconnect(true)]);
  }

  /** So does a reset request that names no server. */
  lemma ResetAsks(c: Client, t: nat, k: nat) returns (run: seq<Step>, d: Client)
    requires c.status == Running && c.reconnects == [] && c.mux.None? && t in c.threads && c.threads[t] == Receiving(k)
    ensures After(c, run) == Some(d) && |run| == 3 && run[0] == Thread(t, RecvReset(ToAny))
    ensures d == c.(reconnects := [Reconnect(true)], mux := Some(t), threads := d.threads)
  {
    var locked, b := ResetLocks(c, t, k);
    var reading, e := ResetReads(c, locked, b, t, k);
    run, d := ResetSends(c, reading, e, t, k);
  }

  lemma ResetLocks(c: Client, t: nat, k: nat) returns (run: seq<Step>, d: Client)
    requires c.mux.None? && t in c.threads && c.threads[t] == Receiving(k)
    ensures After(c, run) == Some(d) && |run| == 1 && run[0] == Thread(t, RecvReset(ToAny))
    ensures d == Move(c, t, ResetLocked(k, ToAny)).(mux := Some(t))
  {
    ResetLock(c, t, k);
    d := Move(c, t, ResetLocked(k, ToAny)).(mux := Some(t));
    run := Then(c, [], c, Thread(t, RecvReset(ToAny)), d);
  }

  lemma ResetLock(c: Client, t: nat, k: nat)
    requires c.mux.None? && t in c.threads && c.threads[t] == Receiving(k)
    ensures Next(c, Thread(t, RecvReset(ToAny))) == Some(Move(c, t, ResetLocked(k, ToAny)).(mux := Some(t)))
  {
  }

  lemma ResetReads(c: Client, before: seq<Step>, b: Client, t: nat, k: nat) returns (run: seq<Step>, d: Client)
    requires After(c, before) == Some(b) && b.status == Running
    requires t in b.threads && b.threads[t] == ResetLocked(k, ToAny)
    ensures run == before + [Thread(t, Continue)] && After(c, run) == Some(d)
    ensures d == Move(b, t, ResetSending(k, Reconnect(true)))
  {
    run := Extend(c, before, b, Thread(t, Continue));
    d := Move(b, t, ResetSending(k, Reconnect(true)));
  }

  lemma ResetSends(c: Client, before: seq<Step>, b: Client, t: nat, k: nat) returns (run: seq<Step>, d: Client)
    requires After(c, before) == Some(b) && b.reconnects == []
    requires t in b.threads && b.threads[t] == ResetSending(k, Reconnect(true))
    ensures run == before + [Thread(t, Continue)] && After(c, run) == Some(d)
    ensures d == b.(reconnects := [Reconnect(true)], threads := d.threads)
  {
    assert b.reconnects + [Reconnect(true)] == [Reconnect(true)];
    run := Extend(c, before, b, Thread(t, Continue));
    d := Move(b, t, ResetUnlock(k)).(reconnects := [Reconnect(true)]);
  }

  /** A running client whose request gave up, or that was told to reset, can go on with its connection. */
  lemma ProbedClientGoesOn(c: Client, t: nat) returns (run: seq<Step>, d: Client)
    requires c.status == Running && c.worker.Selecting? && c.reconnects == [] && c.current.Some?
    requires |c.events| <= CHANNEL_CAPACITY && t in c.threads
    requires c.threads[t].Requesting? || (c.threads[t].Receiving? && c.mux.None?)
    ensures After(c, run) == Some(d)
    ensures |run| > 0 && run[0] == Thread(t, if c.threads[t].Requesting? then GiveUp else RecvReset(ToAny))
    ensures d.status == Running && d.worker.Selecting? && d.current == c.current && d.conns == c.conns
    ensures Sent(d) == Sent(c) + [Connected]
  {
    var ask, b;
    if c.threads[t].Requesting? {
      ask, b := GiveUpAsks(c, t);
    } else {
      ask, b := ResetAsks(c, t, c.threads[t].conn);
    }
    var more;
    more, d := ProbeRestores(b);
    AfterConcat(c, ask, more);
    run := ask + more;
  }

  // ---- A vanished server ---------------------------------------------------------------------

  /** When the current server leaves the list, the worker can replace the connection. */
  lemma GoneServerIsReplaced(c: Client, k: nat, n: nat, r: nat) returns (run: seq<Step>, d: Client)
    requires c.status == Running && c.worker.Selecting? && c.reconnects == [] && c.current == Some(k) && k in c.conns
    requires |c.events| <= CHANNEL_CAPACITY && n !in c.conns && r !in c.threads
    ensures After(c, run) == Some(d) && |run| > 0 && run[0] == Worker(ServerListChanged(true))
    ensures d.status == Running && d.current == Some(n) && Gone(d, k)
  {
    WorkerOvertakesStart(c, true);
    var dial := Worker(DialOutcome(Open(n, r)));
    run := Extend(c, Overtaking(true), c.(worker := Dialling), dial);
    var b := Bound(c, Open(n, r)).(worker := Dialled(n));
    var more;
    more, d := WorkerReplaces(b, k);
    AfterConcat(c, run, more);
    run := run + more;
  }

  /** A request told that the connection is unregistered asks for a new one and goes on retrying. */
  lemma UnregisterAsks(c: Client, t: nat) returns (run: seq<Step>)
    requires c.status == Running && c.reconnects == [] && c.mux.None? && t !in c.threads
    ensures |run| == 5 && run[0] == Spawn(t, Requesting) && run[1] == Thread(t, Unregister)
    ensures After(c, run)
         == Some(c.(status := Unhealthy, reconnects := [Reconnect(false)], threads := c.threads[t := Requesting]))
  {
    run := Extend(c, [], c, Spawn(t, Requesting));
    var b := Move(c, t, Requesting);
    run := Extend(c, run, b, Thread(t, Unregister));
    run := Extend(c, run, Move(b, t, UnregLocked).(mux := Some(t)), Thread(t, Continue));
    var swapped := Move(b, t, UnregSwapped).(mux := Some(t), status := Unhealthy);
    assert Move(Move(b, t, UnregLocked), t, UnregSwapped) == Move(b, t, UnregSwapped);
    run := UnregisterSends(c, run, swapped, t);
    assert Move(swapped, t, Requesting).threads == c.threads[t := Requesting];
  }

  lemma UnregisterSends(c: Client, before: seq<Step>, b: Client, t: nat) returns (run: seq<Step>)
    requires After(c, before) == Some(b) && b.reconnects == [] && t in b.threads && b.threads[t].UnregSwapped?
    ensures run == before + [Thread(t, Continue), Thread(t, Continue)]
    ensures After(c, run) == Some(Move(b, t, Requesting).(reconnects := [Reconnect(false)], mux := None))
  {
    assert b.reconnects + [Reconnect(false)] == [Reconnect(false)];
    run := Extend(c, before, b, Thread(t, Continue));
    var sent := Move(b, t, UnregUnlock).(reconnects := [Reconnect(false)]);
    run := UnregisterUnlocks(c, run, sent, t);
    assert Move(sent, t, Requesting).threads == Move(b, t, Requesting).threads;
  }

  lemma UnregisterUnlocks(c: Client, before: seq<Step>, b: Client, t: nat) returns (run: seq<Step>)
    requires After(c, before) == Some(b) && t in b.threads && b.threads[t].UnregUnlock?
    ensures run == before + [Thread(t, Continue)] && After(c, run) == Some(Move(b, t, Requesting).(mux := None))
  {
    run := Extend(c, before, b, Thread(t, Continue));
  }

  // ---- Shutdown ------------------------------------------------------------------------------

  /** Shut down, with nothing under way that would restore the client. */
  ghost predicate AtRest(c: Client) {
    && c.status == Shutdown && (c.start.Started? || c.start.NotStarted?)
    && (forall rc :: rc in c.reconnects ==> !rc.onRequestFail)
    && (|| c.worker.NotSpawned? || c.worker.Selecting? || c.worker.HealthFailed? || c.worker.Switching?
        || c.worker.LoopHead? || (c.worker.Taken? && !c.worker.rc.onRequestFail))
    && (c.start.NotStarted? ==> c.worker.NotSpawned?)
    && forall t :: t in c.threads ==> !AboutToSend(c.threads[t])
  }

  lemma RestWorker(c: Client, choice: Choice)
    requires AtRest(c) && NextWorker(c, choice).Some?
    ensures var d := NextWorker(c, choice).value;
            AtRest(d) && d.current == c.current && d.conns == c.conns
  {
    match c.worker
    case Selecting =>
    case _ =>
  }

  lemma RestThread(c: Client, t: nat, d: Client)
    requires AtRest(c) && ThreadEffect(c, t, d)
    ensures AtRest(d) && d.current == c.current
  {
  }

  lemma RestStep(c: Client, step: Step)
    requires AtRest(c) && Next(c, step).Some?
    ensures AtRest(Next(c, step).value) && Next(c, step).value.current == c.current
  {
    match step
    case Worker(choice) => RestWorker(c, choice);
    case Thread(t, act) =>
      ThreadFrame(c, t, act);
      RestThread(c, t, NextThread(c, t, act).value);
    case _ =>
  }

  /** Once nothing is under way that would restore the client, SHUTDOWN is final and nothing is dialled again. */
  lemma {:induction false} ShutdownIsFinal(c: Client, steps: seq<Step>)
    requires AtRest(c) && After(c, steps).Some?
    ensures AtRest(After(c, steps).value) && After(c, steps).value.current == c.current
    decreases |steps|
  {
    if steps != [] {
      var before := steps[..|steps| - 1];
      ShutdownIsFinal(c, before);
      RestStep(After(c, before).value, steps[|steps| - 1]);
    }
  }

  /** What closing the connection that is current leaves behind. */
  ghost predicate CurrentClosed(c: Client, d: Client) {
    && d.status == Shutdown && d.current == c.current
    && if c.current.Some? && c.current.value in c.conns
       then Sent(d) == Sent(c) + [Disconnected(c.current.value)] && d.conns == CloseCurrent(c).conns
            && d.conns[c.current.value].closed
       else c.current.None? ==> Sent(d) == Sent(c) && d.conns == c.conns
  }

  /** A call of `Shutdown` can store SHUTDOWN, close the current connection and tell of it. */
  lemma ShutdownCloses(c: Client, t: nat) returns (run: seq<Step>, d: Client)
    requires t !in c.threads && c.events == []
    ensures After(c, run) == Some(d) && |run| > 0 && run[0] == Spawn(t, ShutdownClosing)
    ensures CurrentClosed(c, d) && t in d.threads && d.threads[t].Finished?
  {
    run := Extend(c, [], c, Spawn(t, ShutdownClosing));
    var b := Move(c, t, ShutdownClosing).(status := Shutdown);
    run := Extend(c, run, b, Thread(t, Continue));
    if c.current.None? {
      d := Move(b, t, Finished);
    } else {
      run, d := ShutdownTells(c, run, Move(CloseCurrent(b), t, ShutdownNotify(c.current.value)), t);
    }
  }

  lemma ShutdownTells(c: Client, before: seq<Step>, b: Client, t: nat) returns (run: seq<Step>, d: Client)
    requires After(c, before) == Some(b) && b.events == [] && t in b.threads && b.threads[t].ShutdownNotify?
    ensures run == before + [Thread(t, Continue)] && After(c, run) == Some(d)
    ensures d == Move(b, t, Finished).(events := [] + [Disconnected(b.threads[t].down)])
    ensures Sent(d) == Sent(b) + [Disconnected(b.threads[t].down)]
  {
    SendAppends(b, Disconnected(b.threads[t].down));
    run := Extend(c, before, b, Thread(t, Continue));
    d := Move(b, t, Finished).(events := [] + [Disconnected(b.threads[t].down)]);
  }

  /** A worker whose dial fails after a shutdown closes the current connection, tells of it and waits. */
  lemma ShutdownStopsReconnect(c: Client) returns (run: seq<Step>, d: Client)
    requires c.status == Shutdown && c.worker.DialFailed? && c.events == []
    ensures After(c, run) == Some(d) && forall i :: 0 <= i < |run| ==> run[i] == Worker(Go)
    ensures CurrentClosed(c, d) && d.worker.Selecting?
  {
    run := Extend(c, [], c, Worker(Go));
    run := Extend(c, run, c.(worker := ShutClosing), Worker(Go));
    d := CloseCurrent(c).(worker := LoopHead);
    if c.current.Some? {
      run, d := WorkerTells(c, run, CloseCurrent(c).(worker := ShutNotify(c.current.value)));
    }
    run := Extend(c, run, d, Worker(Go));
    d := d.(worker := Selecting);
  }

  lemma WorkerTells(c: Client, before: seq<Step>, b: Client) returns (run: seq<Step>, d: Client)
    requires After(c, before) == Some(b) && b.events == [] && b.worker.ShutNotify?
    ensures run == before + [Worker(Go)] && After(c, run) == Some(d)
    ensures d == b.(worker := LoopHead, events := [] + [Disconnected(b.worker.down)])
    ensures Sent(d) == Sent(b) + [Disconnected(b.worker.down)]
  {
    SendAppends(b, Disconnected(b.worker.down));
    run := Extend(c, before, b, Worker(Go));
    d := b.(worker := LoopHead, events := [] + [Disconnected(b.worker.down)]);
  }
}
