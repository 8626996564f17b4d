/**
The connection state machine of the RPC client: `Start`, the worker goroutine that owns
reconnection, any number of `Request` callers, one stream reader per dialled connection,
`ConnectResetRequest` handlers, the event notifier and any number of `Shutdown` callers.

Every shared-memory access is one step, and any thread may take the next step.  The network is
an oracle: each dial and each health check carries its outcome in the step.  The server list is
non-empty and the context is live.
 */
module RpcClient {
  import opened Wrappers

  datatype Status = Initialized | Starting | Unhealthy | Running | Shutdown

  /** A DISCONNECTED event records the connection that was closed; listeners see only its kind. */
  datatype Event = Connected | Disconnected(down: nat)

  /** A message on the reconnect channel; which server is dialled is left to the dial. */
  datatype Reconnect = Reconnect(onRequestFail: bool)

  datatype Connection = Connection(abandon: bool, closed: bool)

  /** Where the goroutine calling `Start` is. */
  datatype StartPc =
    | NotStarted
    | Booting(retries: nat)   // in the dial loop
    | Booted(conn: nat)       // dialled, about to assign currentConnection
    | BootStore               // about to store RUNNING
    | BootNotify              // about to send CONNECTED
    | BootSwitch              // every dial failed, about to ask the worker to reconnect
    | Started

  /** Where the worker goroutine is. */
  datatype WorkerPc =
    | NotSpawned
    | Selecting
    | Taken(rc: Reconnect)    // entry of reconnect
    | LoopHead                // about to read the status in the loop condition
    | Dialling
    | Dialled(conn: nat)      // new connection in hand, about to look at the current one
    | Abandoned(conn: nat)    // flag of the current connection set, about to close it
    | Closed(conn: nat, down: nat) // current connection `down` closed, about to send DISCONNECTED
    | Installing(conn: nat)   // about to assign currentConnection
    | Restoring               // about to store RUNNING
    | Announcing              // about to send CONNECTED
    | DialFailed              // about to read the status after a failed dial
    | ShutClosing             // saw SHUTDOWN inside the loop, about to close
    | ShutNotify(down: nat)    // `down` closed, about to send DISCONNECTED
    | HealthFailed            // periodic check failed, about to look at connection and status
    | Declaring               // about to store UNHEALTHY
    | Switching               // server list changed, about to send to its own channel

  /** Where a request caller, stream reader or shutdown caller is. */
  datatype ThreadPc =
    | Requesting              // in the retry loop of Request
    | UnregLocked             // UN_REGISTER answered, holds mux, about to swap
    | UnregSwapped            // swapped, about to send
    | UnregUnlock
    | GivingUp                // left the loop, about to swap
    | GaveUpSwapped           // swapped, about to send
    | Receiving(conn: nat)    // in Recv
    | StreamFailed(conn: nat) // Recv failed, about to read the abandon flag
    | FlagRead(conn: nat, abandon: bool)
    | WillSwap(conn: nat)     // saw RUNNING and no abandon flag, about to swap
    | StreamSwapped(conn: nat)
    | ResetLocked(conn: nat, reset: Reset)  // holds mux, about to read the status
    | ResetSending(conn: nat, rc: Reconnect)
    | ResetUnlock(conn: nat)
    | ShutdownClosing
    | ShutdownNotify(down: nat) // `down` closed, about to send DISCONNECTED
    | Finished

  datatype Client = Client(
    status: Status,
    current: Option<nat>,
    conns: map<nat, Connection>,   // every connection dialled so far
    installed: set<nat>,           // every connection that has been current so far
    reconnects: seq<Reconnect>,    // reconnectionChan
    events: seq<Event>,            // eventChan
    delivered: seq<Event>,         // what the notifier has handed to the listeners
    mux: Option<nat>,              // the thread holding the mutex
    start: StartPc,
    worker: WorkerPc,
    threads: map<nat, ThreadPc>)

  const CHANNEL_CAPACITY: nat := 1
  const START_RETRIES: nat := 3

  function Init(): (c: Client) {
    Client(Initialized, None, map[], {}, [], [], [], None, NotStarted, NotSpawned, map[])
  }

  // ---- Steps -------------------------------------------------------------------------------

  /** A dial that fails after the stream was bound leaves a connection and its reader behind. */
  datatype Dial = Refused | HalfOpen(conn: nat, reader: nat) | Open(conn: nat, reader: nat)

  datatype Step =
    | StartCall(dial: Dial)
    | Worker(choice: Choice)
    | Notifier
    | Spawn(t: nat, pc: ThreadPc)
    | Thread(t: nat, act: Act)

  /** What the worker's `select` or its oracle chooses. */
  datatype Choice =
    | TakeMessage
    | Timer(recent: bool, healthy: bool)
    | ServerListChanged(gone: bool)
    | Probe(healthy: bool)
    | DialOutcome(dial: Dial)
    | Go

  /** What the network does to a thread. */
  datatype Act = Continue | Unregister | GiveUp | Succeed | RecvError | RecvReset(reset: Reset) | StreamDone

  /** A `ConnectResetRequest` naming a server, naming one with an unreadable port, or naming none. */
  datatype Reset = ToServer | BadPort | ToAny

  predicate Fits(c: Client, d: Dial) {
    d.Refused? || (d.conn !in c.conns && d.reader !in c.threads)
  }

  /** The state after the connection, if any, and its stream reader have been created. */
  function Bound(c: Client, d: Dial): (r: Client) {
    if d.Refused? then c
    else c.(conns := c.conns[d.conn := Connection(false, false)],
            threads := c.threads[d.reader := Receiving(d.conn)])
  }

  function Mark(c: Client, conn: nat, k: Connection): Client {
    c.(conns := c.conns[conn := k])
  }

  /** The current connection, closed. */
  function CloseCurrent(c: Client): Client {
    if c.current.Some? && c.current.value in c.conns
    then Mark(c, c.current.value, c.conns[c.current.value].(closed := true))
    else c
  }

  function SendReconnect(c: Client, rc: Reconnect): Option<Client> {
    if |c.reconnects| < CHANNEL_CAPACITY then Some(c.(reconnects := c.reconnects + [rc])) else None
  }

  function SendEvent(c: Client, e: Event): Option<Client> {
    if |c.events| < CHANNEL_CAPACITY then Some(c.(events := c.events + [e])) else None
  }

  /** The successor, or `None` when the step cannot be taken (wrong place, or a blocked send). */
  function Next(c: Client, step: Step): Option<Client> {
    match step
    case StartCall(d) => if Fits(c, d) then NextStart(c, d) else None
    case Worker(choice) =>
      if choice.DialOutcome? && !Fits(c, choice.dial) then None else NextWorker(c, choice)
    case Notifier =>
      if c.events == [] then None
      else Some(c.(events := c.events[1..], delivered := c.delivered + [c.events[0]]))
    case Spawn(t, pc) => NextSpawn(c, t, pc)
    case Thread(t, act) => if t in c.threads then NextThread(c, t, act) else None
  }

  function NextStart(c: Client, d: Dial): Option<Client> {
    match c.start
    case NotStarted =>
      if c.status == Initialized
      then Some(c.(status := Starting, start := Booting(START_RETRIES), worker := Selecting))
      else Some(c)
    case Booting(n) =>
      if n == 0 then Some(c.(start := BootSwitch))
      else if d.Open? then Some(Bound(c, d).(start := Booted(d.conn)))
      else Some(Bound(c, d).(start := Booting(n - 1)))
    case Booted(k) => Some(c.(current := Some(k), installed := c.installed + {k}, start := BootStore))
    case BootStore => Some(c.(status := Running, start := BootNotify))
    case BootNotify => var s := SendEvent(c, Connected);
      if s.Some? then Some(s.value.(start := Started)) else None
    case BootSwitch => var s := SendReconnect(c, Reconnect(false));
      if s.Some? then Some(s.value.(start := Started)) else None
    case Started => None
  }

  function NextWorker(c: Client, choice: Choice): Option<Client> {
    match c.worker
    case NotSpawned => None
    case Selecting => (
      match choice
      case TakeMessage =>
        if c.reconnects == [] then None
        else Some(c.(reconnects := c.reconnects[1..], worker := Taken(c.reconnects[0])))
      case Timer(recent, healthy) =>
        if recent || (healthy && c.current.Some?) then Some(c) else Some(c.(worker := HealthFailed))
      case ServerListChanged(gone) =>
        if c.current.None? || gone then Some(c.(worker := Switching)) else Some(c)
      case _ => None)
    case Taken(rc) =>
      if rc.onRequestFail && c.current.Some? && choice == Probe(true)
      then Some(c.(worker := Restoring))
      else Some(c.(worker := LoopHead))
    case LoopHead =>
      Some(c.(worker := if c.status == Shutdown then Selecting else Dialling))
    case Dialling => (
      match choice
      case DialOutcome(d) =>
        Some(Bound(c, d).(worker := if d.Open? then Dialled(d.conn) else DialFailed))
      case _ => None)
    case Dialled(k) =>
      if c.current.Some? && c.current.value in c.conns
      then Some(Mark(c, c.current.value, c.conns[c.current.value].(abandon := true)).(worker := Abandoned(k)))
      else Some(c.(worker := Installing(k)))
    case Abandoned(k) =>
      Some(CloseCurrent(c).(worker := if c.current.Some? then Closed(k, c.current.value) else Installing(k)))
    case Closed(k, down) => var s := SendEvent(c, Disconnected(down));
      if s.Some? then Some(s.value.(worker := Installing(k))) else None
    case Installing(k) => Some(c.(current := Some(k), installed := c.installed + {k}, worker := Restoring))
    case Restoring => Some(c.(status := Running, worker := Announcing))
    case Announcing => var s := SendEvent(c, Connected);
      if s.Some? then Some(s.value.(worker := Selecting)) else None
    case DialFailed => Some(c.(worker := if c.status == Shutdown then ShutClosing else LoopHead))
    case ShutClosing =>
      Some(CloseCurrent(c).(worker := if c.current.Some? then ShutNotify(c.current.value) else LoopHead))
    case ShutNotify(down) => var s := SendEvent(c, Disconnected(down));
      if s.Some? then Some(s.value.(worker := LoopHead)) else None
    case HealthFailed =>
      Some(c.(worker := if c.current.None? || c.status == Shutdown then Selecting else Declaring))
    case Declaring => Some(c.(status := Unhealthy, worker := Taken(Reconnect(false))))
    case Switching => var s := SendReconnect(c, Reconnect(false));
      if s.Some? then Some(s.value.(worker := Selecting)) else None
  }

  /** A new `Request` or `Shutdown` call; `Shutdown` stores its status first. */
  function NextSpawn(c: Client, t: nat, pc: ThreadPc): Option<Client> {
    if t in c.threads then None
    else if pc.Requesting? then Some(c.(threads := c.threads[t := pc]))
    else if pc.ShutdownClosing? then Some(c.(status := Shutdown, threads := c.threads[t := pc]))
    else None
  }

  function Move(c: Client, t: nat, pc: ThreadPc): Client {
    c.(threads := c.threads[t := pc])
  }

  /** Compare-and-swap of the status from RUNNING to UNHEALTHY. */
  function Swap(c: Client, t: nat, won: ThreadPc, lost: ThreadPc): Client {
    if c.status == Running then Move(c, t, won).(status := Unhealthy) else Move(c, t, lost)
  }

  function SendFrom(c: Client, t: nat, rc: Reconnect, after: ThreadPc): Option<Client> {
    var s := SendReconnect(c, rc);
    if s.Some? then Some(Move(s.value, t, after)) else None
  }

  predicate InRequest(pc: ThreadPc) {
    pc.Requesting? || pc.UnregLocked? || pc.UnregSwapped? || pc.UnregUnlock? || pc.GivingUp? || pc.GaveUpSwapped?
  }

  predicate InShutdown(pc: ThreadPc) {
    pc.ShutdownClosing? || pc.ShutdownNotify?
  }

  function NextThread(c: Client, t: nat, act: Act): Option<Client>
    requires t in c.threads
  {
    var pc := c.threads[t];
    if pc.Finished? then None
    else if InRequest(pc) then NextRequest(c, t, act)
    else if InShutdown(pc) then NextShutdown(c, t)
    else NextReader(c, t, act)
  }

  function NextRequest(c: Client, t: nat, act: Act): Option<Client>
    requires t in c.threads && InRequest(c.threads[t])
  {
    match c.threads[t]
    case Requesting => (
      match act
      case Unregister => if c.mux.None? then Some(Move(c, t, UnregLocked).(mux := Some(t))) else None
      case GiveUp => Some(Move(c, t, GivingUp))
      case Succeed => Some(Move(c, t, Finished))
      case _ => None)
    case UnregLocked => Some(Swap(c, t, UnregSwapped, UnregUnlock))
    case UnregSwapped => SendFrom(c, t, Reconnect(false), UnregUnlock)
    case UnregUnlock => Some(Move(c, t, Requesting).(mux := None))
    case GivingUp => Some(Swap(c, t, GaveUpSwapped, Finished))
    case GaveUpSwapped => SendFrom(c, t, Reconnect(true), Finished)
  }

  function NextShutdown(c: Client, t: nat): Option<Client>
    requires t in c.threads && InShutdown(c.threads[t])
  {
    match c.threads[t]
    case ShutdownClosing =>
      Some(Move(CloseCurrent(c), t, if c.current.Some? then ShutdownNotify(c.current.value) else Finished))
    case ShutdownNotify(down) => var s := SendEvent(c, Disconnected(down));
      if s.Some? then Some(Move(s.value, t, Finished)) else None
  }

  function NextReader(c: Client, t: nat, act: Act): Option<Client>
    requires t in c.threads && !InRequest(c.threads[t]) && !InShutdown(c.threads[t]) && !c.threads[t].Finished?
  {
    match c.threads[t]
    case Receiving(k) => (
      match act
      case RecvError => Some(Move(c, t, StreamFailed(k)))
      case RecvReset(reset) =>
        if c.mux.None? then Some(Move(c, t, ResetLocked(k, reset)).(mux := Some(t))) else None
      case StreamDone => Some(Move(c, t, Finished))
      case _ => None)
    case StreamFailed(k) => Some(Move(c, t, FlagRead(k, k in c.conns && c.conns[k].abandon)))
    case FlagRead(k, abandon) =>
      Some(Move(c, t, if c.status == Running && !abandon then WillSwap(k) else Finished))
    case WillSwap(k) => Some(Swap(c, t, StreamSwapped(k), Receiving(k)))
    case StreamSwapped(k) => SendFrom(c, t, Reconnect(false), Finished)
    case ResetLocked(k, reset) =>
      Some(Move(c, t,
                if c.status != Running || reset.BadPort? then ResetUnlock(k)
                else ResetSending(k, Reconnect(reset.ToAny?))))
    case ResetSending(k, rc) => SendFrom(c, t, rc, ResetUnlock(k))
    case ResetUnlock(k) => Some(Move(c, t, Receiving(k)).(mux := None))
  }

  // ---- Runs --------------------------------------------------------------------------------

  /** The state after a run, or `None` when some step could not be taken. */
  function After(c: Client, steps: seq<Step>): Option<Client>
    decreases |steps|
  {
    if steps == [] then Some(c)
    else
      var d := After(c, steps[..|steps| - 1]);
      if d.Some? then Next(d.value, steps[|steps| - 1]) else None
  }

  lemma Extend(c: Client, steps: seq<Step>, d: Client, step: Step) returns (more: seq<Step>)
    requires After(c, steps) == Some(d)
    ensures more == steps + [step] && more[..|more| - 1] == steps
    ensures After(c, more) == Next(d, step)
  {
    more := steps + [step];
    assert more[..|more| - 1] == steps;
  }

  lemma Then(c: Client, steps: seq<Step>, b: Client, step: Step, d: Client) returns (more: seq<Step>)
    requires After(c, steps) == Some(b) && Next(b, step) == Some(d)
    ensures more == steps + [step] && After(c, more) == Some(d)
  {
    more := Extend(c, steps, b, step);
  }

  // ---- What one thread step may do ------------------------------------------------------------

  predicate BetweenSwapAndSend(pc: ThreadPc) {
    pc.UnregSwapped? || pc.GaveUpSwapped? || pc.StreamSwapped?
  }

  /** The thread's next step is a send on the reconnect channel. */
  predicate AboutToSend(pc: ThreadPc) {
    BetweenSwapAndSend(pc) || pc.ResetSending?
  }

  /** The stream reader `t` of `k` has seen no abandon flag and may still swap the status. */
  predicate Trusting(pc: ThreadPc, k: nat) {
    pc == FlagRead(k, false) || pc == WillSwap(k)
  }

  /** `pc` is a place in the stream reader of connection `k`. */
  predicate ReaderOf(pc: ThreadPc, k: nat) {
    (pc.Receiving? || pc.StreamFailed? || pc.FlagRead? || pc.WillSwap? || pc.StreamSwapped?
     || pc.ResetLocked? || pc.ResetSending? || pc.ResetUnlock?) && pc.conn == k
  }

  /** What a step of a request caller, stream reader or shutdown caller may touch. */
  ghost predicate ThreadEffect(c: Client, t: nat, d: Client) {
    && t in c.threads && t in d.threads
    && d == c.(status := d.status, conns := d.conns, reconnects := d.reconnects, events := d.events,
               mux := d.mux, threads := c.threads[t := d.threads[t]])
    && |d.reconnects| >= |c.reconnects|
    && (d.reconnects != c.reconnects ==> AboutToSend(c.threads[t]))
    && (AboutToSend(d.threads[t]) ==> AboutToSend(c.threads[t]) || c.status == Running)
    && (d.events == c.events
        || (|c.events| < CHANNEL_CAPACITY && c.threads[t].ShutdownNotify?
            && d.events == c.events + [Disconnected(c.threads[t].down)]))
    && (d.status != c.status ==>
          && c.status == Running && d.status == Unhealthy && BetweenSwapAndSend(d.threads[t])
          && (forall k :: ReaderOf(c.threads[t], k) ==> Trusting(c.threads[t], k)))
    && (BetweenSwapAndSend(c.threads[t]) ==> d.reconnects != [])
    && (d.conns == c.conns || d.conns == CloseCurrent(c).conns)
    && (InShutdown(d.threads[t]) ==> InShutdown(c.threads[t]))
    && (d.threads[t].ShutdownNotify? ==> c.current == Some(d.threads[t].down) && d.conns == CloseCurrent(c).conns)
    && (forall k :: Trusting(d.threads[t], k) ==>
          Trusting(c.threads[t], k) || (k in c.conns ==> !c.conns[k].abandon))
  }

  lemma RequestFrame(c: Client, t: nat, act: Act)
    requires t in c.threads && InRequest(c.threads[t]) && NextRequest(c, t, act).Some?
    ensures ThreadEffect(c, t, NextRequest(c, t, act).value)
  {
  }

  lemma ReaderFrame(c: Client, t: nat, act: Act)
    requires t in c.threads && !InRequest(c.threads[t]) && !InShutdown(c.threads[t]) && !c.threads[t].Finished?
    requires NextReader(c, t, act).Some?
    ensures ThreadEffect(c, t, NextReader(c, t, act).value)
  {
    match c.threads[t]
    case Receiving(_) =>
    case StreamFailed(_) =>
    case FlagRead(_, _) =>
    case WillSwap(_) =>
    case StreamSwapped(_) =>
    case _ =>
  }

  lemma ThreadFrame(c: Client, t: nat, act: Act)
    requires t in c.threads && NextThread(c, t, act).Some?
    ensures ThreadEffect(c, t, NextThread(c, t, act).value)
  {
    if InRequest(c.threads[t]) {
      RequestFrame(c, t, act);
    } else if !InShutdown(c.threads[t]) {
      ReaderFrame(c, t, act);
    }
  }

  // ---- No lost reconnect -------------------------------------------------------------------

  /** The worker is inside `reconnect` and has not stored RUNNING. */
  predicate Reconnecting(w: WorkerPc) {
    w.Taken? || w.LoopHead? || w.Dialling? || w.Dialled? || w.Abandoned? || w.Closed? || w.Installing?
    || w.Restoring? || w.DialFailed? || w.ShutClosing? || w.ShutNotify?
  }

  ghost predicate ReconnectPending(c: Client) {
    || (exists t :: t in c.threads && BetweenSwapAndSend(c.threads[t]))
    || c.reconnects != []
    || Reconnecting(c.worker)
  }

  /** The client has lost its connection, or `Start` has returned without one. */
  predicate Disabled(c: Client) {
    c.status == Unhealthy || (c.status == Starting && c.start.Started?)
  }

  ghost predicate NotLost(c: Client) {
    (Disabled(c) ==> ReconnectPending(c)) && (c.start.BootNotify? ==> c.status != Starting)
  }

  lemma NotLostThread(c: Client, t: nat, d: Client)
    requires NotLost(c) && ThreadEffect(c, t, d)
    ensures NotLost(d)
  {
    if Disabled(d) && d.reconnects == [] && !Reconnecting(d.worker) {
      if !BetweenSwapAndSend(d.threads[t]) {
        var u :| u in c.threads && BetweenSwapAndSend(c.threads[u]);
        assert u != t && u in d.threads && BetweenSwapAndSend(d.threads[u]);
      }
    }
  }

  /** No thread but a new one has moved. */
  predicate ThreadsStay(c: Client, d: Client) {
    forall t :: t in c.threads ==> t in d.threads && d.threads[t] == c.threads[t]
  }

  lemma PendingStays(c: Client, d: Client)
    requires ReconnectPending(c) && c.reconnects == [] && !Reconnecting(c.worker) && ThreadsStay(c, d)
    ensures ReconnectPending(d)
  {
    var t :| t in c.threads && BetweenSwapAndSend(c.threads[t]);
    assert t in d.threads && BetweenSwapAndSend(d.threads[t]);
  }

  lemma NotLostStart(c: Client, dial: Dial)
    requires NotLost(c) && Fits(c, dial) && NextStart(c, dial).Some?
    ensures NotLost(NextStart(c, dial).value)
  {
    if Disabled(c) && c.reconnects == [] && !Reconnecting(c.worker) {
      PendingStays(c, NextStart(c, dial).value);
    }
  }

  /** The worker never drops a reconnect of a client that stays disabled. */
  predicate WorkerGoesOn(c: Client, d: Client) {
    && d.start == c.start && (d.status == c.status || d.status == Running || d.status == Unhealthy)
    && (Disabled(d) && !(d.reconnects != [] || Reconnecting(d.worker)) ==>
          d.status == c.status && c.reconnects == [] && !Reconnecting(c.worker))
  }

  lemma WorkerGoesOnAlways(c: Client, choice: Choice)
    requires NextWorker(c, choice).Some? && (choice.DialOutcome? ==> Fits(c, choice.dial))
    ensures WorkerGoesOn(c, NextWorker(c, choice).value)
  {
    match c.worker
    case Selecting =>
    case Dialling =>
    case Dialled(_) =>
    case _ =>
  }

  lemma WorkerKeepsThreads(c: Client, choice: Choice)
    requires NextWorker(c, choice).Some? && (choice.DialOutcome? ==> Fits(c, choice.dial))
    ensures ThreadsStay(c, NextWorker(c, choice).value)
  {
  }

  lemma NotLostWorker(c: Client, d: Client)
    requires NotLost(c) && WorkerGoesOn(c, d) && ThreadsStay(c, d)
    ensures NotLost(d)
  {
    if Disabled(d) && !(d.reconnects != [] || Reconnecting(d.worker)) {
      PendingStays(c, d);
    }
  }

  lemma NotLostStep(c: Client, step: Step)
    requires NotLost(c) && Next(c, step).Some?
    ensures NotLost(Next(c, step).value)
  {
    match step
    case StartCall(dial) => NotLostStart(c, dial);
    case Worker(choice) =>
      WorkerGoesOnAlways(c, choice);
      WorkerKeepsThreads(c, choice);
      NotLostWorker(c, NextWorker(c, choice).value);
    case Thread(t, act) =>
      ThreadFrame(c, t, act);
      NotLostThread(c, t, NextThread(c, t, act).value);
    case _ =>
      if Disabled(c) && c.reconnects == [] && !Reconnecting(c.worker) {
        PendingStays(c, Next(c, step).value);
      }
  }

  /** In every interleaving, a client without a connection always has a reconnect on its way. */
  lemma {:induction false} NoLostReconnect(steps: seq<Step>)
    requires After(Init(), steps).Some?
    ensures NotLost(After(Init(), steps).value)
    ensures Disabled(After(Init(), steps).value) ==> ReconnectPending(After(Init(), steps).value)
    decreases |steps|
  {
    if steps != [] {
      var before := steps[..|steps| - 1];
      NoLostReconnect(before);
      NotLostStep(After(Init(), before).value, steps[|steps| - 1]);
    }
  }

  // ---- A current connection exists ---------------------------------------------------------

  /** Places that imply a connection has been current: about to announce or to restore one. */
  predicate WorkerHolds(w: WorkerPc) {
    w.Abandoned? || w.Closed? || w.Restoring? || w.Announcing? || w.ShutNotify? || w.Declaring?
  }

  ghost predicate Unconnected(c: Client) {
    && c.status != Running && c.status != Unhealthy
    && c.events == []
    && !WorkerHolds(c.worker)
    && !c.start.BootStore? && !c.start.BootNotify?
    && (forall t :: t in c.threads ==> !c.threads[t].ShutdownNotify?)
  }

  ghost predicate Grounded(c: Client) {
    c.current.None? ==> Unconnected(c)
  }

  lemma GroundedThread(c: Client, t: nat, d: Client)
    requires Grounded(c) && ThreadEffect(c, t, d)
    ensures Grounded(d)
  {
  }

  lemma GroundedStart(c: Client, dial: Dial)
    requires Grounded(c) && Fits(c, dial) && NextStart(c, dial).Some?
    ensures Grounded(NextStart(c, dial).value)
  {
  }

  lemma GroundedWorker(c: Client, choice: Choice)
    requires Grounded(c) && NextWorker(c, choice).Some?
    ensures Grounded(NextWorker(c, choice).value)
  {
    match c.worker
    case Selecting =>
    case Dialling =>
    case Closed(_, _) =>
    case ShutNotify(_) =>
    case _ =>
  }

  lemma GroundedStep(c: Client, step: Step)
    requires Grounded(c) && Next(c, step).Some?
    ensures Grounded(Next(c, step).value)
  {
    match step
    case StartCall(dial) => GroundedStart(c, dial);
    case Worker(choice) => GroundedWorker(c, choice);
    case Thread(t, act) =>
      ThreadFrame(c, t, act);
      GroundedThread(c, t, NextThread(c, t, act).value);
    case _ =>
  }

  /** In every interleaving, RUNNING or a queued event implies that a current connection exists. */
  lemma {:induction false} CurrentExists(steps: seq<Step>)
    requires After(Init(), steps).Some?
    ensures Grounded(After(Init(), steps).value)
    ensures var c := After(Init(), steps).value;
            c.status == Running || c.events != [] ==> c.current.Some?
    decreases |steps|
  {
    if steps != [] {
      var before := steps[..|steps| - 1];
      CurrentExists(before);
      GroundedStep(After(Init(), before).value, steps[|steps| - 1]);
    }
  }

  // ---- Connections are known ---------------------------------------------------------------

  predicate HoldsConn(w: WorkerPc) {
    w.Dialled? || w.Abandoned? || w.Closed? || w.Installing?
  }

  /** A connection in the worker's hands has been dialled, was never current, and is not the one `Start` holds. */
  predicate WorkerConnKnown(c: Client) {
    HoldsConn(c.worker) ==>
      && c.worker.conn in c.conns && c.worker.conn !in c.installed
      && (c.start.Booted? ==> c.start.conn != c.worker.conn)
  }

  /** Only connections that have been current are ever abandoned or closed. */
  ghost predicate OnlyInstalledTouched(c: Client) {
    forall k :: k in c.conns && k !in c.installed ==> c.conns[k] == Connection(false, false)
  }

  ghost predicate Known(c: Client) {
    && |c.events| <= CHANNEL_CAPACITY
    && (c.start.Booted? ==> c.start.conn in c.conns && c.start.conn !in c.installed)
    && WorkerConnKnown(c)
    && c.installed <= c.conns.Keys
    && (c.current.Some? ==> c.current.value in c.installed)
    && OnlyInstalledTouched(c)
  }

  lemma KnownThread(c: Client, t: nat, d: Client)
    requires Known(c) && ThreadEffect(c, t, d)
    ensures Known(d)
  {
  }

  lemma KnownStart(c: Client, dial: Dial)
    requires Known(c) && Fits(c, dial) && NextStart(c, dial).Some?
    ensures Known(NextStart(c, dial).value)
  {
  }

  lemma KnownDial(c: Client, choice: Choice)
    requires Known(c) && c.worker.Dialling? && NextWorker(c, choice).Some?
    requires choice.DialOutcome? ==> Fits(c, choice.dial)
    ensures Known(NextWorker(c, choice).value)
  {
  }

  lemma KnownTakeDown(c: Client, choice: Choice)
    requires Known(c) && (HoldsConn(c.worker) || c.worker.ShutClosing?) && NextWorker(c, choice).Some?
    ensures Known(NextWorker(c, choice).value)
  {
    match c.worker
    case Dialled(_) =>
    case Abandoned(_) =>
    case Closed(_, _) =>
    case Installing(_) =>
    case ShutClosing =>
  }

  /** A worker step that touches no connection. */
  ghost predicate WorkerEffect(c: Client, d: Client) {
    && d == c.(status := d.status, reconnects := d.reconnects, events := d.events, worker := d.worker)
    && !HoldsConn(d.worker)
    && (d.events == c.events || |d.events| <= CHANNEL_CAPACITY)
  }

  lemma ElsewhereFrame(c: Client, choice: Choice)
    requires !c.worker.Dialling? && !HoldsConn(c.worker) && !c.worker.ShutClosing? && NextWorker(c, choice).Some?
    ensures WorkerEffect(c, NextWorker(c, choice).value)
  {
    match c.worker
    case Selecting =>
    case Announcing =>
    case ShutNotify(_) =>
    case Switching =>
    case _ =>
  }

  lemma KnownEffect(c: Client, d: Client)
    requires Known(c) && WorkerEffect(c, d)
    ensures Known(d)
  {
  }

  lemma KnownWorker(c: Client, choice: Choice)
    requires Known(c) && NextWorker(c, choice).Some?
    requires choice.DialOutcome? ==> Fits(c, choice.dial)
    ensures Known(NextWorker(c, choice).value)
  {
    if c.worker.Dialling? {
      KnownDial(c, choice);
    } else if HoldsConn(c.worker) || c.worker.ShutClosing? {
      KnownTakeDown(c, choice);
    } else {
      ElsewhereFrame(c, choice);
      KnownEffect(c, NextWorker(c, choice).value);
    }
  }

  lemma KnownStep(c: Client, step: Step)
    requires Known(c) && Next(c, step).Some?
    ensures Known(Next(c, step).value)
  {
    match step
    case StartCall(dial) => KnownStart(c, dial);
    case Worker(choice) => KnownWorker(c, choice);
    case Thread(t, act) =>
      ThreadFrame(c, t, act);
      KnownThread(c, t, NextThread(c, t, act).value);
    case _ =>
  }

  /** In every interleaving, a connection that has never been current is neither abandoned nor closed. */
  lemma {:induction false} NeverCurrentNeverAbandoned(steps: seq<Step>)
    requires After(Init(), steps).Some?
    ensures Known(After(Init(), steps).value)
    ensures var c := After(Init(), steps).value;
            forall k :: k in c.conns && k !in c.installed ==> c.conns[k] == Connection(false, false)
    decreases |steps|
  {
    if steps != [] {
      var before := steps[..|steps| - 1];
      NeverCurrentNeverAbandoned(before);
      KnownStep(After(Init(), before).value, steps[|steps| - 1]);
    }
  }

  // ---- Replaced connections ----------------------------------------------------------------

  /** `Start` may still install a connection. */
  predicate StartPending(c: Client) {
    c.start.NotStarted? || c.start.Booted? || (c.start.Booting? && c.start.retries > 0)
  }

  /**
  The worker takes a server-list signal of a client that is not shut down while `Start` has a
  connection or a dial left.
   */
  predicate SignalDuringStart(c: Client, step: Step) {
    c.worker.Selecting? && step.Worker? && step.choice.ServerListChanged? && StartPending(c) && c.status != Shutdown
  }

  /** A run without such a signal. */
  ghost predicate QuietRun(steps: seq<Step>)
    decreases |steps|
  {
    steps == [] ||
    var before := steps[..|steps| - 1];
    && QuietRun(before)
    && After(Init(), before).Some?
    && !SignalDuringStart(After(Init(), before).value, steps[|steps| - 1])
  }

  predicate Gone(c: Client, k: nat) {
    k in c.conns && c.conns[k].abandon && c.conns[k].closed
  }

  /** How far the worker has taken the current connection down. */
  predicate WorkerTakesDown(c: Client) {
    match c.worker
    case Abandoned(_) => c.current.Some? && c.current.value in c.conns && c.conns[c.current.value].abandon
    case Closed(_, down) => c.current == Some(down) && Gone(c, down)
    case Installing(_) => c.current.Some? ==> Gone(c, c.current.value)
    case _ => true
  }

  ghost predicate Replaced(c: Client) {
    forall k :: k in c.installed ==> c.current == Some(k) || Gone(c, k)
  }

  /** Where the worker can be while `Start` may still install a connection. */
  predicate WorkerIdles(c: Client) {
    || c.worker.NotSpawned? || c.worker.Selecting? || c.worker.HealthFailed?
    || (c.status == Shutdown && (c.worker.Switching? || c.worker.Taken? || c.worker.LoopHead?))
  }

  ghost predicate Untouched(c: Client) {
    && c.current.None? && c.installed == {}
    && c.status != Running && c.status != Unhealthy
    && (c.status != Shutdown ==> c.reconnects == [])
    && WorkerIdles(c) && (c.start.NotStarted? ==> c.worker.NotSpawned?)
    && (forall t :: t in c.threads ==> !AboutToSend(c.threads[t]))
  }

  ghost predicate Pending(c: Client) {
    StartPending(c) ==> Untouched(c)
  }

  ghost predicate QuietInv(c: Client) {
    Known(c) && Pending(c) && WorkerTakesDown(c) && Replaced(c)
  }

  lemma QuietThread(c: Client, t: nat, d: Client)
    requires QuietInv(c) && ThreadEffect(c, t, d)
    ensures QuietInv(d)
  {
    KnownThread(c, t, d);
    assert forall k :: Gone(c, k) ==> Gone(d, k);
  }

  lemma PendingBoot(c: Client, dial: Dial)
    requires Pending(c) && Fits(c, dial) && NextStart(c, dial).Some?
    ensures Pending(NextStart(c, dial).value)
  {
  }

  lemma ReplacedBoot(c: Client, dial: Dial)
    requires QuietInv(c) && Fits(c, dial) && NextStart(c, dial).Some?
    ensures WorkerTakesDown(NextStart(c, dial).value) && Replaced(NextStart(c, dial).value)
  {
    match c.start
    case Booting(_) => assert forall k :: Gone(c, k) ==> Gone(NextStart(c, dial).value, k);
    case Booted(_) =>
    case _ =>
  }

  lemma PendingWorker(c: Client, choice: Choice)
    requires Pending(c) && !SignalDuringStart(c, Worker(choice)) && NextWorker(c, choice).Some?
    ensures Pending(NextWorker(c, choice).value)
  {
    match c.worker
    case Selecting =>
    case Dialling =>
    case _ =>
  }

  lemma ReplacedWorker(c: Client, choice: Choice)
    requires Known(c) && WorkerTakesDown(c) && Replaced(c) && NextWorker(c, choice).Some?
    requires choice.DialOutcome? ==> Fits(c, choice.dial)
    ensures WorkerTakesDown(NextWorker(c, choice).value) && Replaced(NextWorker(c, choice).value)
  {
    var d := NextWorker(c, choice).value;
    match c.worker
    case Dialling => assert forall k :: Gone(c, k) ==> Gone(d, k);
    case Dialled(_) => assert forall k :: Gone(c, k) ==> Gone(d, k);
    case Abandoned(_) => assert forall k :: Gone(c, k) ==> Gone(d, k);
    case Closed(_, _) =>
    case Installing(_) =>
    case ShutClosing => assert forall k :: Gone(c, k) ==> Gone(d, k);
    case _ =>
  }

  lemma QuietStep(c: Client, step: Step)
    requires QuietInv(c) && !SignalDuringStart(c, step) && Next(c, step).Some?
    ensures QuietInv(Next(c, step).value)
  {
    KnownStep(c, step);
    match step
    case StartCall(dial) =>
      PendingBoot(c, dial);
      ReplacedBoot(c, dial);
    case Worker(choice) =>
      PendingWorker(c, choice);
      ReplacedWorker(c, choice);
    case Thread(t, act) =>
      ThreadFrame(c, t, act);
      QuietThread(c, t, NextThread(c, t, act).value);
    case _ =>
  }

  /** Unless a signal is taken during `Start`, every formerly current connection is abandoned and closed. */
  lemma {:induction false} ReplacedConnectionsAreGone(steps: seq<Step>)
    requires QuietRun(steps) && After(Init(), steps).Some?
    ensures QuietInv(After(Init(), steps).value)
    ensures var c := After(Init(), steps).value;
            forall k :: k in c.installed && c.current != Some(k) ==> c.conns[k] == Connection(true, true)
    decreases |steps|
  {
    if steps != [] {
      var before := steps[..|steps| - 1];
      ReplacedConnectionsAreGone(before);
      QuietStep(After(Init(), before).value, steps[|steps| - 1]);
    }
  }

  lemma {:induction false} AfterConcat(c: Client, a: seq<Step>, b: seq<Step>)
    requires After(c, a).Some?
    ensures After(c, a + b) == After(After(c, a).value, b)
    decreases |b|
  {
    if b == [] {
      assert a + b == a;
    } else {
      var n := |b| - 1;
      AfterConcat(c, a, b[..n]);
      assert (a + b)[..|a + b| - 1] == a + b[..n] && (a + b)[|a + b| - 1] == b[n];
    }
  }

  lemma {:induction false} Fresh(s: set<nat>) returns (n: nat)
    ensures forall x :: x in s ==> x < n
    decreases |s|
  {
    if s == {} {
      n := 0;
    } else {
      var x :| x in s;
      n := Fresh(s - {x});
      assert forall y :: y in s ==> y == x || y in s - {x};
      n := if n <= x then x + 1 else n;
    }
  }

  /** The worker takes a signal, sends to its own channel, takes the message and starts to reconnect. */
  function Overtaking(gone: bool): seq<Step> {
    [Worker(ServerListChanged(gone)), Worker(Go), Worker(TakeMessage), Worker(Go), Worker(Go)]
  }

  /** A signal with no connection, or whose server is gone, lets the worker go on to dial. */
  lemma WorkerOvertakesStart(c: Client, gone: bool)
    requires c.worker.Selecting? && (c.current.None? || gone) && c.reconnects == [] && c.status != Shutdown
    ensures After(c, Overtaking(gone)) == Some(c.(worker := Dialling))
  {
    var rc := Reconnect(false);
    var steps := Extend(c, [], c, Worker(ServerListChanged(gone)));
    steps := Extend(c, steps, c.(worker := Switching), Worker(Go));
    steps := Extend(c, steps, c.(reconnects := [] + [rc]), Worker(TakeMessage));
    assert ([] + [rc])[1..] == [];
    steps := Extend(c, steps, c.(worker := Taken(rc)), Worker(Go));
    steps := Extend(c, steps, c.(worker := LoopHead), Worker(Go));
    assert steps == Overtaking(gone);
  }

  lemma WorkerInstalls(c: Client, k: nat, r: nat) returns (steps: seq<Step>)
    requires c.worker.Dialling? && c.current.None? && k !in c.conns && r !in c.threads
    ensures After(c, steps) ==
      Some(Bound(c, Open(k, r)).(current := Some(k), installed := c.installed + {k}, worker := Restoring))
  {
    var d := Bound(c, Open(k, r));
    assert Next(c, Worker(DialOutcome(Open(k, r)))) == Some(d.(worker := Dialled(k)));
    assert Next(d.(worker := Dialled(k)), Worker(Go)) == Some(d.(worker := Installing(k)));
    steps := Extend(c, [], c, Worker(DialOutcome(Open(k, r))));
    steps := Extend(c, steps, d.(worker := Dialled(k)), Worker(Go));
    steps := Extend(c, steps, d.(worker := Installing(k)), Worker(Go));
  }

  /** `Start` installs its connection over whatever is current. */
  lemma StartInstalls(c: Client, k: nat, r: nat) returns (steps: seq<Step>)
    requires c.start.Booted? || (c.start.Booting? && c.start.retries > 0)
    requires k !in c.conns && r !in c.threads
    ensures After(c, steps).Some?
    ensures var d := After(c, steps).value;
            && d.current == Some(if c.start.Booted? then c.start.conn else k)
            && c.installed <= d.installed
            && forall j :: j in c.conns ==> j in d.conns && d.conns[j] == c.conns[j]
  {
    if c.start.Booted? {
      steps := Extend(c, [], c, StartCall(Refused));
    } else {
      steps := Extend(c, [], c, StartCall(Open(k, r)));
      steps := Extend(c, steps, Bound(c, Open(k, r)).(start := Booted(k)), StartCall(Refused));
    }
  }

  /**
  The condition is exact: after any quiet run, taking a signal during `Start` lets the worker
  install a connection that `Start` then overwrites without abandoning it.
   */
  lemma SignalDuringStartLeaks(steps: seq<Step>, gone: bool) returns (run: seq<Step>)
    requires QuietRun(steps) && After(Init(), steps).Some?
    requires SignalDuringStart(After(Init(), steps).value, Worker(ServerListChanged(gone)))
    ensures |run| > 0 && run[0] == Worker(ServerListChanged(gone))
    ensures var leaked := After(After(Init(), steps).value, run);
            leaked.Some? && !Replaced(leaked.value)
  {
    ReplacedConnectionsAreGone(steps);
    var c := After(Init(), steps).value;
    var n := Fresh(c.conns.Keys + c.threads.Keys);
    assert forall x :: x in c.conns.Keys ==> x < n;
    assert forall x :: x in c.threads.Keys ==> x < n;
    WorkerOvertakesStart(c, gone);
    var first := Overtaking(gone);
    var c1 := c.(worker := Dialling);
    var second := WorkerInstalls(c1, n, n);
    AfterConcat(c, first, second);
    var c2 := After(c1, second).value;
    var third := StartInstalls(c2, n + 1, n + 1);
    AfterConcat(c, first + second, third);
    run := (first + second) + third;
    assert n in After(c2, third).value.installed;
  }

  /** Such a signal can come: the property fails without the condition. */
  lemma OverlappingStartLeaksConnection() returns (steps: seq<Step>)
    ensures After(Init(), steps).Some? && !Replaced(After(Init(), steps).value)
  {
    var boot, _ := StartDials();
    steps := LeaksAfter(boot);
  }

  lemma LeaksAfter(boot: seq<Step>) returns (steps: seq<Step>)
    requires QuietRun(boot) && After(Init(), boot).Some?
    requires SignalDuringStart(After(Init(), boot).value, Worker(ServerListChanged(false)))
    ensures After(Init(), steps).Some? && !Replaced(After(Init(), steps).value)
  {
    var run := SignalDuringStartLeaks(boot, false);
    AfterConcat(Init(), boot, run);
    steps := boot + run;
  }

  // ---- Stream errors of replaced connections -----------------------------------------------

  /** No stream reader is between its flag read and its swap when its connection is abandoned. */
  ghost predicate AtomicReader(c: Client, step: Step) {
    step.Worker? && c.worker.Dialled? && c.current.Some? ==>
      forall t :: t in c.threads ==> !Trusting(c.threads[t], c.current.value)
  }

  ghost predicate AtomicRun(steps: seq<Step>)
    decreases |steps|
  {
    steps == [] ||
    var before := steps[..|steps| - 1];
    && AtomicRun(before)
    && After(Init(), before).Some?
    && AtomicReader(After(Init(), before).value, steps[|steps| - 1])
  }

  ghost predicate FlagInv(c: Client) {
    forall t, k :: t in c.threads && Trusting(c.threads[t], k) && k in c.conns ==> !c.conns[k].abandon
  }

  lemma FlagThread(c: Client, t: nat, d: Client)
    requires FlagInv(c) && ThreadEffect(c, t, d)
    ensures FlagInv(d)
  {
  }

  lemma FlagStart(c: Client, dial: Dial)
    requires FlagInv(c) && Fits(c, dial) && NextStart(c, dial).Some?
    ensures FlagInv(NextStart(c, dial).value)
  {
  }

  lemma FlagWorker(c: Client, choice: Choice)
    requires FlagInv(c) && AtomicReader(c, Worker(choice)) && NextWorker(c, choice).Some?
    requires choice.DialOutcome? ==> Fits(c, choice.dial)
    ensures FlagInv(NextWorker(c, choice).value)
  {
    match c.worker
    case Dialling =>
    case Dialled(_) =>
    case Abandoned(_) =>
    case ShutClosing =>
    case _ =>
  }

  lemma FlagStep(c: Client, step: Step)
    requires FlagInv(c) && AtomicReader(c, step) && Next(c, step).Some?
    ensures FlagInv(Next(c, step).value)
  {
    match step
    case StartCall(dial) => FlagStart(c, dial);
    case Worker(choice) => FlagWorker(c, choice);
    case Thread(t, act) =>
      ThreadFrame(c, t, act);
      FlagThread(c, t, NextThread(c, t, act).value);
    case _ =>
  }

  /** When readers check and swap atomically, a reader that may still swap has a connection that is not abandoned. */
  lemma {:induction false} FlagRun(steps: seq<Step>)
    requires AtomicRun(steps) && After(Init(), steps).Some?
    ensures FlagInv(After(Init(), steps).value)
    decreases |steps|
  {
    if steps != [] {
      var before := steps[..|steps| - 1];
      FlagRun(before);
      FlagStep(After(Init(), before).value, steps[|steps| - 1]);
    }
  }

  /** Then a replaced connection's stream never changes the status. */
  lemma ReplacedStreamIsHarmless(steps: seq<Step>, t: nat, act: Act, k: nat)
    requires QuietRun(steps) && AtomicRun(steps) && After(Init(), steps).Some?
    requires var c := After(Init(), steps).value;
             && t in c.threads && ReaderOf(c.threads[t], k) && NextThread(c, t, act).Some?
             && k in c.installed && c.current != Some(k)
    ensures var c := After(Init(), steps).value;
            NextThread(c, t, act).value.status == c.status
  {
    FlagRun(steps);
    ReplacedConnectionsAreGone(steps);
    var c := After(Init(), steps).value;
    assert Gone(c, k);
    ThreadFrame(c, t, act);
  }

  /** From `Dialled` the worker can always go on to the point where it installs its connection. */
  lemma WorkerAbandons(c: Client, k: nat) returns (steps: seq<Step>, d: Client)
    requires c.worker.Dialled? && c.current == Some(k) && k in c.conns
    requires |c.events| <= CHANNEL_CAPACITY
    ensures After(c, steps) == Some(d)
    ensures d.worker == Installing(c.worker.conn) && d.threads == c.threads && Gone(d, k)
  {
    var n := c.worker.conn;
    var c1 := Mark(c, k, Connection(true, c.conns[k].closed)).(worker := Abandoned(n));
    assert Next(c, Worker(Go)) == Some(c1);
    steps := Extend(c, [], c, Worker(Go));
    var c2 := Mark(c1, k, Connection(true, true)).(worker := Closed(n, k));
    assert Next(c1, Worker(Go)) == Some(c2);
    steps := Extend(c, steps, c1, Worker(Go));
    var c3 := c2;
    if c.events != [] {
      assert c2.events[1..] == [];
      steps := Extend(c, steps, c2, Notifier);
      c3 := c2.(events := [], delivered := c2.delivered + [c2.events[0]]);
    }
    d := c3.(events := [] + [Disconnected(k)], worker := Installing(n));
    assert Next(c3, Worker(Go)) == Some(d);
    steps := Extend(c, steps, c3, Worker(Go));
  }

  lemma WorkerReplaces(c: Client, k: nat) returns (steps: seq<Step>, d: Client)
    requires c.worker.Dialled? && c.worker.conn != k && c.current == Some(k) && k in c.conns
    requires |c.events| <= CHANNEL_CAPACITY
    ensures After(c, steps) == Some(d)
    ensures d.status == Running && d.current == Some(c.worker.conn) && d.threads == c.threads && Gone(d, k)
  {
    steps, d := WorkerAbandons(c, k);
    steps := Extend(c, steps, d, Worker(Go));
    d := d.(current := Some(c.worker.conn), installed := d.installed + {c.worker.conn}, worker := Restoring);
    steps := Extend(c, steps, d, Worker(Go));
    d := d.(status := Running, worker := Announcing);
  }

  /** The last step of `run` is a step of `t` that turns a running client unhealthy. */
  ghost predicate FlippedBy(c: Client, run: seq<Step>, t: nat) {
    && run != [] && run[|run| - 1] == Thread(t, Continue)
    && After(c, run[..|run| - 1]).Some? && After(c, run[..|run| - 1]).value.status == Running
    && After(c, run).Some? && After(c, run).value.status == Unhealthy
  }

  /**
  The atomicity condition is exact: in every reachable state that violates it, some continuation
  lets the stream of the replaced connection turn a healthy client unhealthy.
   */
  lemma StaleReaderFlipsStatus(steps: seq<Step>) returns (run: seq<Step>, t: nat, k: nat)
    requires After(Init(), steps).Some? && !AtomicReader(After(Init(), steps).value, Worker(Go))
    ensures var c := After(Init(), steps).value;
            && c.current == Some(k) && t in c.threads && Trusting(c.threads[t], k)
            && FlippedBy(c, run, t)
            && Gone(After(c, run).value, k) && After(c, run).value.current != Some(k)
  {
    NeverCurrentNeverAbandoned(steps);
    var c := After(Init(), steps).value;
    k := c.current.value;
    t :| t in c.threads && Trusting(c.threads[t], k);
    var d;
    run, d := WorkerReplaces(c, k);
    if d.threads[t].FlagRead? {
      run := Extend(c, run, d, Thread(t, Continue));
      d := Move(d, t, WillSwap(k));
    }
    run := Extend(c, run, d, Thread(t, Continue));
  }

  lemma ExtendQuiet(steps: seq<Step>, d: Client, step: Step) returns (more: seq<Step>)
    requires QuietRun(steps) && After(Init(), steps) == Some(d) && !SignalDuringStart(d, step)
    ensures more == steps + [step] && QuietRun(more) && After(Init(), more) == Next(d, step)
  {
    more := Extend(Init(), steps, d, step);
  }

  lemma StartDials() returns (steps: seq<Step>, d: Client)
    ensures QuietRun(steps) && After(Init(), steps) == Some(d)
    ensures d == Init().(status := Starting, start := Booting(START_RETRIES), worker := Selecting)
  {
    steps := ExtendQuiet([], Init(), StartCall(Refused));
    d := Init().(status := Starting, start := Booting(START_RETRIES), worker := Selecting);
  }

  /** A successful dial of `Start`, up to its store of RUNNING. */
  lemma StartSucceeds(run: seq<Step>, c: Client, k: nat, r: nat) returns (steps: seq<Step>)
    requires QuietRun(run) && After(Init(), run) == Some(c)
    requires c.start.Booting? && c.start.retries > 0 && k !in c.conns && r !in c.threads
    ensures QuietRun(steps)
    ensures After(Init(), steps) == Some(Bound(c, Open(k, r)).(
      status := Running, current := Some(k), installed := c.installed + {k}, start := BootNotify))
  {
    steps := ExtendQuiet(run, c, StartCall(Open(k, r)));
    var d := Bound(c, Open(k, r)).(start := Booted(k));
    steps := ExtendQuiet(steps, d, StartCall(Refused));
    d := d.(current := Some(k), installed := d.installed + {k}, start := BootStore);
    steps := ExtendQuiet(steps, d, StartCall(Refused));
  }

  /** The violation is reached: a reader reads its flag, the health check fails and the worker dials. */
  lemma StaleReaderIsReached() returns (steps: seq<Step>)
    ensures QuietRun(steps) && After(Init(), steps).Some? && !AtomicReader(After(Init(), steps).value, Worker(Go))
  {
    var d;
    steps, d := StartDials();
    steps := StartSucceeds(steps, d, 0, 0);
    d := Bound(d, Open(0, 0)).(status := Running, current := Some(0), installed := d.installed + {0},
                               start := BootNotify);
    steps := ReaderReadsFlag(steps, d, 0, 0);
    d := Move(Move(d, 0, StreamFailed(0)), 0, FlagRead(0, false));
    steps := WorkerRedials(steps, d, 1, 1);
    d := Bound(d, Open(1, 1)).(status := Unhealthy, worker := Dialled(1));
    assert 0 in d.threads && Trusting(d.threads[0], 0);
  }

  lemma ReaderReadsFlag(run: seq<Step>, c: Client, t: nat, k: nat) returns (steps: seq<Step>)
    requires QuietRun(run) && After(Init(), run) == Some(c)
    requires t in c.threads && c.threads[t] == Receiving(k) && k in c.conns && !c.conns[k].abandon
    ensures QuietRun(steps)
    ensures After(Init(), steps) == Some(Move(Move(c, t, StreamFailed(k)), t, FlagRead(k, false)))
  {
    steps := ExtendQuiet(run, c, Thread(t, RecvError));
    steps := ExtendQuiet(steps, Move(c, t, StreamFailed(k)), Thread(t, Continue));
  }

  lemma WorkerRedials(run: seq<Step>, c: Client, k: nat, r: nat) returns (steps: seq<Step>)
    requires QuietRun(run) && After(Init(), run) == Some(c)
    requires c.worker.Selecting? && c.current.Some? && c.status == Running && k !in c.conns && r !in c.threads
    ensures QuietRun(steps)
    ensures After(Init(), steps) == Some(Bound(c, Open(k, r)).(status := Unhealthy, worker := Dialled(k)))
  {
    steps := WorkerDeclares(run, c);
    steps := WorkerDials(steps, c.(status := Unhealthy, worker := Taken(Reconnect(false))), k, r);
  }

  /** A failed health check makes the worker declare the client unhealthy and reconnect. */
  lemma WorkerDeclares(run: seq<Step>, c: Client) returns (steps: seq<Step>)
    requires QuietRun(run) && After(Init(), run) == Some(c)
    requires c.worker.Selecting? && c.current.Some? && c.status == Running
    ensures QuietRun(steps)
    ensures After(Init(), steps) == Some(c.(status := Unhealthy, worker := Taken(Reconnect(false))))
  {
    steps := ExtendQuiet(run, c, Worker(Timer(false, false)));
    steps := WorkerReconnects(steps, c.(worker := HealthFailed));
  }

  lemma WorkerReconnects(run: seq<Step>, c: Client) returns (steps: seq<Step>)
    requires QuietRun(run) && After(Init(), run) == Some(c)
    requires c.worker == HealthFailed && c.current.Some? && c.status == Running
    ensures QuietRun(steps)
    ensures After(Init(), steps) == Some(c.(status := Unhealthy, worker := Taken(Reconnect(false))))
  {
    steps := ExtendQuiet(run, c, Worker(Go));
    steps := WorkerSwaps(steps, c.(worker := Declaring));
  }

  lemma WorkerSwaps(run: seq<Step>, c: Client) returns (steps: seq<Step>)
    requires QuietRun(run) && After(Init(), run) == Some(c)
    requires c.worker == Declaring && c.current.Some? && c.status == Running
    ensures QuietRun(steps)
    ensures After(Init(), steps) == Some(c.(status := Unhealthy, worker := Taken(Reconnect(false))))
  {
    steps := ExtendQuiet(run, c, Worker(Go));
  }

  lemma WorkerDials(run: seq<Step>, c: Client, k: nat, r: nat) returns (steps: seq<Step>)
    requires QuietRun(run) && After(Init(), run) == Some(c)
    requires c.worker == Taken(Reconnect(false)) && c.status == Unhealthy && k !in c.conns && r !in c.threads
    ensures QuietRun(steps)
    ensures After(Init(), steps) == Some(Bound(c, Open(k, r)).(worker := Dialled(k)))
  {
    steps := ExtendQuiet(run, c, Worker(Go));
    steps := ExtendQuiet(steps, c.(worker := LoopHead), Worker(Go));
    steps := ExtendQuiet(steps, c.(worker := Dialling), Worker(DialOutcome(Open(k, r))));
  }

  // ---- Half-open connections ---------------------------------------------------------------

  /**
  A dial that fails after binding its stream leaves a connection that is never abandoned: from
  every reachable running state its reader alone can turn the client unhealthy.
   */
  lemma HalfOpenReaderFlipsStatus(steps: seq<Step>, t: nat, k: nat) returns (run: seq<Step>)
    requires After(Init(), steps).Some?
    requires var c := After(Init(), steps).value;
             c.status == Running && t in c.threads && c.threads[t] == Receiving(k) && k !in c.installed
    ensures FlippedBy(After(Init(), steps).value, run, t)
    ensures run == [Thread(t, RecvError), Thread(t, Continue), Thread(t, Continue), Thread(t, Continue)]
  {
    NeverCurrentNeverAbandoned(steps);
    var c := After(Init(), steps).value;
    var before, d := ReaderGoesOn(c, t, k);
    run := ReaderSwaps(c, before, d, t, k);
  }

  /** The reader of a connection that is not abandoned goes on from a stream error to its swap. */
  lemma ReaderGoesOn(c: Client, t: nat, k: nat) returns (run: seq<Step>, d: Client)
    requires c.status == Running && t in c.threads && c.threads[t] == Receiving(k)
    requires k in c.conns ==> !c.conns[k].abandon
    ensures run == [Thread(t, RecvError), Thread(t, Continue), Thread(t, Continue)] && After(c, run) == Some(d)
    ensures d.status == c.status && t in d.threads && d.threads[t] == WillSwap(k)
  {
    run := Extend(c, [], c, Thread(t, RecvError));
    d := Move(c, t, StreamFailed(k));
    run := Extend(c, run, d, Thread(t, Continue));
    d := Move(d, t, FlagRead(k, false));
    run := ReaderTrusts(c, run, d, t, k);
    d := Move(d, t, WillSwap(k));
  }

  lemma ReaderTrusts(c: Client, before: seq<Step>, b: Client, t: nat, k: nat) returns (run: seq<Step>)
    requires After(c, before) == Some(b) && b.status == Running && t in b.threads && b.threads[t] == FlagRead(k, false)
    ensures run == before + [Thread(t, Continue)] && After(c, run) == Some(Move(b, t, WillSwap(k)))
  {
    run := Extend(c, before, b, Thread(t, Continue));
  }

  lemma ReaderSwaps(c: Client, before: seq<Step>, d: Client, t: nat, k: nat) returns (run: seq<Step>)
    requires After(c, before) == Some(d) && d.status == Running && t in d.threads && d.threads[t] == WillSwap(k)
    ensures run == before + [Thread(t, Continue)] && FlippedBy(c, run, t)
  {
    run := Extend(c, before, d, Thread(t, Continue));
    assert run[..|run| - 1] == before;
  }

  /** Such a state is reached when the first dial of `Start` fails late and the second succeeds. */
  lemma HalfOpenIsReached() returns (steps: seq<Step>)
    ensures QuietRun(steps) && After(Init(), steps).Some?
    ensures var c := After(Init(), steps).value;
            c.status == Running && 0 in c.threads && c.threads[0] == Receiving(0) && 0 !in c.installed
  {
    var d;
    steps, d := StartDials();
    steps := ExtendQuiet(steps, d, StartCall(HalfOpen(0, 0)));
    d := Bound(d, HalfOpen(0, 0)).(start := Booting(START_RETRIES - 1));
    steps := StartSucceeds(steps, d, 1, 1);
  }
}
