/**
What the connection listeners are told.  Over every interleaving, a DISCONNECTED event names a
connection that has been current and is closed; without shutdowns the last event of a client at
rest is CONNECTED; and replaced connections and announced connections are counted exactly.
 */
module RpcEvents {
  import opened Wrappers
  import opened Sequences
  import opened RpcClient

  /** Every event sent so far, delivered or still in the channel. */
  function Sent(c: Client): seq<Event> {
    c.delivered + c.events
  }

  lemma SendAppends(c: Client, e: Event)
    requires SendEvent(c, e).Some?
    ensures Sent(SendEvent(c, e).value) == Sent(c) + [e]
  {
    ConcatAssoc(c.delivered, c.events, [e]);
  }

  lemma NotifierMoves(c: Client)
    requires Next(c, Notifier).Some?
    ensures Sent(Next(c, Notifier).value) == Sent(c)
  {
    ConcatAssoc(c.delivered, [c.events[0]], c.events[1..]);
    assert c.events == [c.events[0]] + c.events[1..];
  }

  /** The event, if any, that a step of the worker sends. */
  ghost predicate WorkerSent(c: Client, d: Client) {
    match c.worker
    case Announcing => Sent(d) == Sent(c) + [Connected]
    case Closed(_, down) => Sent(d) == Sent(c) + [Disconnected(down)]
    case ShutNotify(down) => Sent(d) == Sent(c) + [Disconnected(down)]
    case _ => Sent(d) == Sent(c)
  }

  lemma WorkerSends(c: Client, choice: Choice)
    requires NextWorker(c, choice).Some?
    ensures WorkerSent(c, NextWorker(c, choice).value)
  {
    match c.worker
    case Announcing => SendAppends(c, Connected);
    case Closed(_, down) => SendAppends(c, Disconnected(down));
    case ShutNotify(down) => SendAppends(c, Disconnected(down));
    case _ =>
  }

  ghost predicate StartSent(c: Client, d: Client) {
    if c.start.BootNotify? then Sent(d) == Sent(c) + [Connected] else Sent(d) == Sent(c)
  }

  lemma StartSends(c: Client, dial: Dial)
    requires NextStart(c, dial).Some?
    ensures StartSent(c, NextStart(c, dial).value)
  {
    if c.start.BootNotify? {
      SendAppends(c, Connected);
    }
  }

  /** What a step of the worker does to the current connection, and where it goes. */
  ghost predicate WorkerMoved(c: Client, d: Client) {
    && d.start == c.start && !c.worker.NotSpawned?
    && (if c.worker.Installing?
        then d.installed == c.installed + {c.worker.conn} && d.current == Some(c.worker.conn)
        else d.installed == c.installed && d.current == c.current)
    && (d.worker.Installing? ==> c.worker.Closed? || c.current.None? || c.current.value !in c.conns)
    && (c.worker.Closed? ==> d.worker.Installing?)
    && (Announces(d.worker) <==>
        c.worker.Installing? || c.worker.Restoring?
        || (c.worker.Taken? && c.worker.rc.onRequestFail && d.worker.Restoring?))
    && (d.status == Running ==> c.status == Running || d.worker.Announcing?)
  }

  /** About to store RUNNING and to send CONNECTED. */
  predicate Announces(w: WorkerPc) {
    w.Restoring? || w.Announcing?
  }

  lemma WorkerMoves(c: Client, choice: Choice)
    requires NextWorker(c, choice).Some?
    ensures WorkerMoved(c, NextWorker(c, choice).value)
  {
    match c.worker
    case Selecting =>
    case Taken(_) =>
    case Dialling =>
    case Dialled(_) =>
    case _ =>
  }

  ghost predicate StartMoved(c: Client, d: Client) {
    && (d.worker == c.worker || (c.start.NotStarted? && d.worker.Selecting?))
    && (d.start.NotStarted? ==> d.worker == c.worker && c.start.NotStarted?)
    && (if c.start.Booted?
        then d.installed == c.installed + {c.start.conn} && d.current == Some(c.start.conn) && d.start.BootStore?
        else d.installed == c.installed && d.current == c.current && !d.start.BootStore?)
    && (d.start.BootNotify? <==> c.start.BootStore?)
    && (d.status == Running ==> c.status == Running || d.start.BootNotify?)
  }

  lemma StartMoves(c: Client, dial: Dial)
    requires NextStart(c, dial).Some?
    ensures StartMoved(c, NextStart(c, dial).value)
  {
  }

  lemma ThreadSends(c: Client, t: nat, d: Client)
    requires ThreadEffect(c, t, d)
    ensures || Sent(d) == Sent(c)
            || (c.threads[t].ShutdownNotify? && Sent(d) == Sent(c) + [Disconnected(c.threads[t].down)])
  {
    if d.events != c.events {
      ConcatAssoc(c.delivered, c.events, [Disconnected(c.threads[t].down)]);
    }
  }

  /** What the invariants below need to know of one step. */
  ghost predicate StepEffect(c: Client, step: Step, d: Client) {
    match step
    case StartCall(_) => StartSent(c, d) && StartMoved(c, d)
    case Worker(_) => WorkerSent(c, d) && WorkerMoved(c, d)
    case Thread(t, _) => ThreadEffect(c, t, d)
    case _ =>
      && Sent(d) == Sent(c)
      && d == c.(status := d.status, events := d.events, delivered := d.delivered, threads := d.threads)
      && (d.status == Running ==> c.status == Running)
  }

  lemma StepEffects(c: Client, step: Step)
    requires Next(c, step).Some?
    ensures StepEffect(c, step, Next(c, step).value)
  {
    match step
    case StartCall(dial) =>
      StartSends(c, dial);
      StartMoves(c, dial);
    case Worker(choice) =>
      WorkerSends(c, choice);
      WorkerMoves(c, choice);
    case Thread(t, act) => ThreadFrame(c, t, act);
    case Notifier => NotifierMoves(c);
    case Spawn(_, _) =>
  }

  // ---- DISCONNECTED names a closed connection ------------------------------------------------

  /** `k` has been current and is closed. */
  predicate Down(c: Client, k: nat) {
    k in c.installed && k in c.conns && c.conns[k].closed
  }

  ghost predicate AllDown(c: Client, log: seq<Event>) {
    forall e :: e in log && e.Disconnected? ==> Down(c, e.down)
  }

  ghost predicate Truthful(c: Client) {
    && AllDown(c, Sent(c))
    && (c.worker.Closed? || c.worker.ShutNotify? ==> Down(c, c.worker.down))
    && (forall t :: t in c.threads && c.threads[t].ShutdownNotify? ==> Down(c, c.threads[t].down))
  }

  ghost predicate StayDown(c: Client, d: Client) {
    forall k :: Down(c, k) ==> Down(d, k)
  }

  lemma StillDown(c: Client, d: Client, more: seq<Event>)
    requires AllDown(c, Sent(c)) && StayDown(c, d) && Sent(d) == Sent(c) + more && AllDown(c, more)
    ensures AllDown(d, Sent(d))
  {
  }

  lemma TruthfulThread(c: Client, t: nat, d: Client)
    requires Known(c) && Truthful(c) && ThreadEffect(c, t, d)
    ensures Truthful(d)
  {
    ThreadSends(c, t, d);
    assert StayDown(c, d);
    StillDown(c, d, Sent(d)[|Sent(c)|..]);
  }

  lemma TruthfulStart(c: Client, dial: Dial)
    requires Truthful(c) && Fits(c, dial) && NextStart(c, dial).Some?
    ensures Truthful(NextStart(c, dial).value)
  {
    var d := NextStart(c, dial).value;
    StartSends(c, dial);
    assert StayDown(c, d);
    StillDown(c, d, Sent(d)[|Sent(c)|..]);
  }

  lemma WorkerStaysDown(c: Client, choice: Choice)
    requires NextWorker(c, choice).Some? && (choice.DialOutcome? ==> Fits(c, choice.dial))
    ensures StayDown(c, NextWorker(c, choice).value)
  {
    match c.worker
    case Dialling =>
    case Dialled(_) =>
    case Abandoned(_) =>
    case _ =>
  }

  lemma WorkerClosesFirst(c: Client, choice: Choice)
    requires Known(c) && NextWorker(c, choice).Some?
    ensures var d := NextWorker(c, choice).value;
            d.worker.Closed? || d.worker.ShutNotify? ==> Down(d, d.worker.down)
  {
    match c.worker
    case Abandoned(_) =>
    case ShutClosing =>
    case _ =>
  }

  lemma TruthfulWorker(c: Client, choice: Choice)
    requires Known(c) && Truthful(c) && NextWorker(c, choice).Some?
    requires choice.DialOutcome? ==> Fits(c, choice.dial)
    ensures Truthful(NextWorker(c, choice).value)
  {
    var d := NextWorker(c, choice).value;
    WorkerSends(c, choice);
    WorkerStaysDown(c, choice);
    WorkerClosesFirst(c, choice);
    StillDown(c, d, Sent(d)[|Sent(c)|..]);
    WorkerMovesNoShutdown(c, choice);
  }

  lemma WorkerMovesNoShutdown(c: Client, choice: Choice)
    requires NextWorker(c, choice).Some? && (choice.DialOutcome? ==> Fits(c, choice.dial))
    ensures var d := NextWorker(c, choice).value;
            forall t :: t in d.threads && InShutdown(d.threads[t]) ==> t in c.threads && d.threads[t] == c.threads[t]
  {
  }

  lemma TruthfulStep(c: Client, step: Step)
    requires Known(c) && Truthful(c) && Next(c, step).Some?
    ensures Truthful(Next(c, step).value)
  {
    match step
    case StartCall(dial) => TruthfulStart(c, dial);
    case Worker(choice) => TruthfulWorker(c, choice);
    case Thread(t, act) =>
      ThreadFrame(c, t, act);
      TruthfulThread(c, t, NextThread(c, t, act).value);
    case Notifier =>
      NotifierMoves(c);
      assert StayDown(c, Next(c, step).value);
    case Spawn(_, _) => assert StayDown(c, Next(c, step).value);
  }

  /** In every interleaving, a DISCONNECTED event is sent only for a connection that was current and is closed. */
  lemma {:induction false} DisconnectedMeansClosed(steps: seq<Step>)
    requires After(Init(), steps).Some?
    ensures Truthful(After(Init(), steps).value)
    ensures var c := After(Init(), steps).value;
            forall e :: e in Sent(c) && e.Disconnected? ==>
              e.down in c.installed && e.down in c.conns && c.conns[e.down].closed
    decreases |steps|
  {
    if steps != [] {
      var before := steps[..|steps| - 1];
      DisconnectedMeansClosed(before);
      NeverCurrentNeverAbandoned(before);
      TruthfulStep(After(Init(), before).value, steps[|steps| - 1]);
    }
  }

  // ---- The last event ------------------------------------------------------------------------

  ghost predicate NoShutdown(steps: seq<Step>) {
    forall i :: 0 <= i < |steps| ==> !(steps[i].Spawn? && steps[i].pc.ShutdownClosing?)
  }

  /** Nobody has called `Shutdown`. */
  ghost predicate Alive(c: Client) {
    && c.status != Shutdown && !c.worker.ShutClosing? && !c.worker.ShutNotify?
    && forall t :: t in c.threads ==> !InShutdown(c.threads[t])
  }

  /** The worker has told of the old connection and is about to tell of the new one. */
  predicate BetweenEvents(w: WorkerPc) {
    w.Installing? || w.Restoring? || w.Announcing?
  }

  /** The worker is spawned by `Start`. */
  predicate SpawnedByStart(c: Client) {
    c.start.NotStarted? ==> c.worker.NotSpawned?
  }

  ghost predicate Announced(c: Client) {
    && SpawnedByStart(c)
    && (Sent(c) != [] && Sent(c)[|Sent(c)| - 1].Disconnected? ==> BetweenEvents(c.worker))
    && (c.status == Running && Sent(c) == [] ==> c.start.BootNotify? || c.worker.Announcing?)
  }

  lemma AliveWorker(c: Client, choice: Choice)
    requires Alive(c) && NextWorker(c, choice).Some? && (choice.DialOutcome? ==> Fits(c, choice.dial))
    ensures Alive(NextWorker(c, choice).value)
  {
    WorkerMovesNoShutdown(c, choice);
    match c.worker
    case Selecting =>
    case Dialling =>
    case _ =>
  }

  lemma AliveStep(c: Client, step: Step)
    requires Alive(c) && Next(c, step).Some? && !(step.Spawn? && step.pc.ShutdownClosing?)
    ensures Alive(Next(c, step).value)
  {
    match step
    case Worker(choice) => AliveWorker(c, choice);
    case Thread(t, act) => ThreadFrame(c, t, act);
    case _ =>
  }

  lemma AnnouncedWorker(c: Client, d: Client)
    requires Alive(c) && Announced(c) && WorkerSent(c, d) && WorkerMoved(c, d)
    ensures Announced(d)
  {
  }

  lemma AnnouncedStart(c: Client, d: Client)
    requires Announced(c) && StartSent(c, d) && StartMoved(c, d)
    ensures Announced(d)
  {
  }

  lemma AnnouncedStep(c: Client, step: Step, d: Client)
    requires Alive(c) && Announced(c) && StepEffect(c, step, d)
    ensures Announced(d)
  {
    match step
    case StartCall(_) => AnnouncedStart(c, d);
    case Worker(_) => AnnouncedWorker(c, d);
    case Thread(t, _) => ThreadSends(c, t, d);
    case _ =>
  }

  /**
  In every interleaving without a shutdown, the last event of a running client whose worker waits
  and whose `Start` has returned is CONNECTED, and DISCONNECTED is last only while the worker is
  on its way from the old connection to the new one.
   */
  lemma {:induction false} LastEventIsConnected(steps: seq<Step>)
    requires NoShutdown(steps) && After(Init(), steps).Some?
    ensures Alive(After(Init(), steps).value) && Announced(After(Init(), steps).value)
    ensures var c := After(Init(), steps).value;
            c.status == Running && c.worker.Selecting? && c.start.Started? ==>
              && Sent(c) != [] && Sent(c)[|Sent(c)| - 1] == Connected
              && (c.events == [] ==> c.delivered != [] && c.delivered[|c.delivered| - 1] == Connected)
    decreases |steps|
  {
    if steps != [] {
      var before := steps[..|steps| - 1];
      LastEventIsConnected(before);
      AliveStep(After(Init(), before).value, steps[|steps| - 1]);
      StepEffects(After(Init(), before).value, steps[|steps| - 1]);
      AnnouncedStep(After(Init(), before).value, steps[|steps| - 1], After(Init(), steps).value);
    }
  }

  // ---- Each replaced connection is reported once ---------------------------------------------

  /** `k` has been replaced, or the worker has reported it and is about to replace it. */
  predicate Reported(c: Client, k: nat) {
    k in c.installed && (c.current == Some(k) ==> c.worker.Installing?)
  }

  ghost predicate ReportedOnce(c: Client) {
    && (c.current.None? ==> c.installed == {})
    && forall k :: multiset(Sent(c))[Disconnected(k)] == if Reported(c, k) then 1 else 0
  }

  lemma ReportedStart(c: Client, d: Client)
    requires QuietInv(c) && ReportedOnce(c) && StartSent(c, d) && StartMoved(c, d)
    ensures ReportedOnce(d)
  {
    if c.start.BootNotify? {
      assert multiset(Sent(d)) == multiset(Sent(c)) + multiset{Connected};
    }
  }

  lemma ReportedClosed(c: Client, d: Client, k: nat)
    requires ReportedOnce(c) && c.worker.Closed? && c.current == Some(c.worker.down) && c.worker.down in c.installed
    requires Sent(d) == Sent(c) + [Disconnected(c.worker.down)]
    requires d.installed == c.installed && d.current == c.current && d.worker.Installing?
    ensures multiset(Sent(d))[Disconnected(k)] == if Reported(d, k) then 1 else 0
  {
    assert multiset(Sent(d)) == multiset(Sent(c)) + multiset{Disconnected(c.worker.down)};
    assert Reported(c, k) <==> k in c.installed && k != c.worker.down;
  }

  lemma ReportedWorker(c: Client, d: Client)
    requires QuietInv(c) && Alive(c) && ReportedOnce(c) && WorkerSent(c, d) && WorkerMoved(c, d)
    ensures ReportedOnce(d)
  {
    match c.worker
    case Closed(_, down) =>
      forall k
        ensures multiset(Sent(d))[Disconnected(k)] == if Reported(d, k) then 1 else 0
      {
        ReportedClosed(c, d, k);
      }
    case Announcing => assert multiset(Sent(d)) == multiset(Sent(c)) + multiset{Connected};
    case _ =>
  }

  lemma ReportedStep(c: Client, step: Step, d: Client)
    requires QuietInv(c) && Alive(c) && ReportedOnce(c) && StepEffect(c, step, d)
    ensures ReportedOnce(d)
  {
    match step
    case StartCall(_) => ReportedStart(c, d);
    case Worker(_) => ReportedWorker(c, d);
    case Thread(t, _) => ThreadSends(c, t, d);
    case _ =>
  }

  /**
  In every run without a shutdown and without a signal taken during `Start`, exactly one
  DISCONNECTED event is sent for each connection that is replaced, and none for another.
   */
  lemma {:induction false} ReplacedReportedOnce(steps: seq<Step>)
    requires QuietRun(steps) && NoShutdown(steps) && After(Init(), steps).Some?
    ensures ReportedOnce(After(Init(), steps).value)
    ensures var c := After(Init(), steps).value;
            c.worker.Selecting? ==> forall k ::
              multiset(Sent(c))[Disconnected(k)] == if k in c.installed && c.current != Some(k) then 1 else 0
    decreases |steps|
  {
    if steps != [] {
      var before := steps[..|steps| - 1];
      ReplacedReportedOnce(before);
      ReplacedConnectionsAreGone(before);
      LastEventIsConnected(before);
      StepEffects(After(Init(), before).value, steps[|steps| - 1]);
      ReportedStep(After(Init(), before).value, steps[|steps| - 1], After(Init(), steps).value);
    }
  }

  // ---- Each CONNECTED announces a connection -------------------------------------------------

  /** No request gives up and no server asks for a reset to any server. */
  ghost predicate NoProbes(steps: seq<Step>) {
    forall i :: 0 <= i < |steps| && steps[i].Thread? ==> steps[i].act != GiveUp && steps[i].act != RecvReset(ToAny)
  }

  /** The thread will not ask for a probe of the current connection. */
  predicate AsksNoProbe(pc: ThreadPc) {
    && !pc.GivingUp? && !pc.GaveUpSwapped?
    && (pc.ResetLocked? ==> !pc.reset.ToAny?) && (pc.ResetSending? ==> !pc.rc.onRequestFail)
  }

  ghost predicate Probeless(c: Client) {
    && (forall rc :: rc in c.reconnects ==> !rc.onRequestFail)
    && (c.worker.Taken? ==> !c.worker.rc.onRequestFail)
    && forall t :: t in c.threads ==> AsksNoProbe(c.threads[t])
  }

  function ToAnnounce(c: Client): nat {
    (if c.start.BootStore? || c.start.BootNotify? then 1 else 0)
    + (if Announces(c.worker) then 1 else 0)
  }

  ghost predicate Counted(c: Client) {
    SpawnedByStart(c) && multiset(Sent(c))[Connected] + ToAnnounce(c) == |c.installed|
  }

  /** The thread's step neither asks for a probe nor gets ready to. */
  ghost predicate ProbelessEffect(c: Client, t: nat, d: Client)
    requires t in c.threads && t in d.threads
  {
    AsksNoProbe(c.threads[t]) ==>
      && AsksNoProbe(d.threads[t])
      && (d.reconnects == c.reconnects || d.reconnects == c.reconnects + [Reconnect(false)])
  }

  lemma ProbelessRequest(c: Client, t: nat, act: Act)
    requires t in c.threads && InRequest(c.threads[t]) && NextRequest(c, t, act).Some? && act != GiveUp
    ensures t in NextRequest(c, t, act).value.threads
    ensures ProbelessEffect(c, t, NextRequest(c, t, act).value)
  {
  }

  lemma ProbelessReader(c: Client, t: nat, act: Act)
    requires t in c.threads && !InRequest(c.threads[t]) && !InShutdown(c.threads[t]) && !c.threads[t].Finished?
    requires NextReader(c, t, act).Some? && act != RecvReset(ToAny)
    ensures t in NextReader(c, t, act).value.threads
    ensures ProbelessEffect(c, t, NextReader(c, t, act).value)
  {
    match c.threads[t]
    case Receiving(_) =>
    case ResetLocked(_, _) =>
    case _ =>
  }

  lemma ProbelessThread(c: Client, t: nat, act: Act)
    requires t in c.threads && NextThread(c, t, act).Some? && act != GiveUp && act != RecvReset(ToAny)
    ensures t in NextThread(c, t, act).value.threads
    ensures ProbelessEffect(c, t, NextThread(c, t, act).value)
  {
    if InRequest(c.threads[t]) {
      ProbelessRequest(c, t, act);
    } else if !InShutdown(c.threads[t]) {
      ProbelessReader(c, t, act);
    }
  }

  lemma ProbelessWorker(c: Client, choice: Choice)
    requires Probeless(c) && NextWorker(c, choice).Some?
    ensures Probeless(NextWorker(c, choice).value)
  {
    match c.worker
    case Selecting =>
    case Dialling =>
    case _ =>
  }

  lemma ProbelessStep(c: Client, step: Step)
    requires Probeless(c) && Next(c, step).Some?
    requires step.Thread? ==> step.act != GiveUp && step.act != RecvReset(ToAny)
    ensures Probeless(Next(c, step).value)
  {
    match step
    case Worker(choice) => ProbelessWorker(c, choice);
    case Thread(t, act) =>
      ThreadFrame(c, t, act);
      ProbelessThread(c, t, act);
    case _ =>
  }

  lemma CountedStart(c: Client, d: Client)
    requires Known(c) && Counted(c) && StartSent(c, d) && StartMoved(c, d)
    ensures Counted(d)
  {
    if c.start.BootNotify? {
      assert multiset(Sent(d)) == multiset(Sent(c)) + multiset{Connected};
    }
  }

  /** The worker has restored the current connection after a probe. */
  predicate Restored(c: Client, d: Client) {
    c.worker.Taken? && d.worker.Restoring?
  }

  lemma CountedWorker(c: Client, d: Client)
    requires Known(c) && Counted(c) && !Restored(c, d) && WorkerSent(c, d) && WorkerMoved(c, d)
    ensures Counted(d)
  {
    match c.worker
    case Announcing => ConnectedAfter(Sent(c), Connected);
    case Closed(_, down) => ConnectedAfter(Sent(c), Disconnected(down));
    case ShutNotify(down) => ConnectedAfter(Sent(c), Disconnected(down));
    case _ =>
  }

  lemma ConnectedAfter(log: seq<Event>, e: Event)
    ensures multiset(log + [e])[Connected] == multiset(log)[Connected] + if e == Connected then 1 else 0
  {
  }

  lemma CountedSame(c: Client, d: Client)
    requires Counted(c) && Sent(d) == Sent(c)
    requires d.installed == c.installed && d.start == c.start && d.worker == c.worker
    ensures Counted(d)
  {
  }

  lemma CountedThread(c: Client, t: nat, d: Client)
    requires Counted(c) && ThreadEffect(c, t, d)
    ensures Counted(d)
  {
    ThreadSends(c, t, d);
    if Sent(d) != Sent(c) {
      assert multiset(Sent(d)) == multiset(Sent(c)) + multiset{Disconnected(c.threads[t].down)};
    }
  }

  lemma CountedStep(c: Client, step: Step, d: Client)
    requires Known(c) && Counted(c) && !(step.Worker? && Restored(c, d)) && StepEffect(c, step, d)
    ensures Counted(d)
  {
    match step
    case StartCall(_) => CountedStart(c, d);
    case Worker(_) => CountedWorker(c, d);
    case Thread(t, _) => CountedThread(c, t, d);
    case _ => CountedSame(c, d);
  }

  /**
  In every run in which nobody asks for a probe of the current connection, every CONNECTED event
  announces one newly installed connection: an unregistered connection, a broken stream, a failed
  health check and a vanished server always lead to a new one.
   */
  lemma {:induction false} ConnectedCountsConnections(steps: seq<Step>)
    requires NoProbes(steps) && After(Init(), steps).Some?
    ensures Probeless(After(Init(), steps).value) && Counted(After(Init(), steps).value)
    ensures var c := After(Init(), steps).value;
            multiset(Sent(c))[Connected] + ToAnnounce(c) == |c.installed|
    decreases |steps|
  {
    if steps != [] {
      var before := steps[..|steps| - 1];
      ConnectedCountsConnections(before);
      NeverCurrentNeverAbandoned(before);
      ProbelessStep(After(Init(), before).value, steps[|steps| - 1]);
      StepEffects(After(Init(), before).value, steps[|steps| - 1]);
      CountedStep(After(Init(), before).value, steps[|steps| - 1], After(Init(), steps).value);
    }
  }

  lemma ProbeDecides(c: Client, choice: Choice)
    requires NextWorker(c, choice).Some? && choice != Probe(true)
    ensures !Restored(c, NextWorker(c, choice).value)
  {
  }

  /** The same in every run in which no probe succeeds: a failed probe always leads to a new connection. */
  lemma {:induction false} FailedProbesReconnect(steps: seq<Step>)
    requires (forall i :: 0 <= i < |steps| ==> steps[i] != Worker(Probe(true))) && After(Init(), steps).Some?
    ensures Counted(After(Init(), steps).value)
    ensures var c := After(Init(), steps).value;
            multiset(Sent(c))[Connected] + ToAnnounce(c) == |c.installed|
    decreases |steps|
  {
    if steps != [] {
      var before, step := steps[..|steps| - 1], steps[|steps| - 1];
      FailedProbesReconnect(before);
      NeverCurrentNeverAbandoned(before);
      var c := After(Init(), before).value;
      StepEffects(c, step);
      if step.Worker? {
        ProbeDecides(c, step.choice);
      }
      CountedStep(c, step, After(Init(), steps).value);
    }
  }
}
