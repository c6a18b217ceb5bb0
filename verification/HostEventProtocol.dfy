/** The host event gateway under interleaving.

    Native host threads store into `pending_` at any moment.  On the single FreeRTOS core run the
    gateway task, tasks inside `connect` and `disconnect`, and the tick hook, which no task
    interrupts.  `connect` is one critical section, in which a host thread can meet only its store
    to `pending_`.  Endpoints are nonzero identifiers; zero is the null pointer.  `log` records
    the run. */
module HostEventProtocol {

  const CAPACITY: nat := 32
  const NULL: nat := 0
  const NO_SLOT: int := -1

  /** A handler function and its context; a zero handler is null. */
  datatype Routine = Routine(handler: nat, context: nat)

  const NO_ROUTINE := Routine(0, 0)

  datatype Endpoint = Endpoint(pending: bool, routine: Routine, slot: int)

  datatype Entry =
    | Notified(e: nat)
    | Connected(e: nat, routine: Routine)
    | Disconnected(e: nat)
    | Began(e: nat, routine: Routine)
    | Ended(e: nat)

  datatype Log = Start | Then(before: Log, last: Entry)

  /** The gateway task.  `start` is the log at the moment the pass took the mutex. */
  datatype Gateway =
    | NotStarted
    | Idle
    | Woken
    | Scan(next: nat, start: Log)
    | Loaded(i: nat, e: nat, start: Log)
    | Claimed(i: nat, e: nat, start: Log)
    | InHandler(i: nat, e: nat, start: Log)

  datatype Owner = Free | ByGateway | ByTask(task: nat)

  /** A task inside `disconnect`. */
  datatype Disconnecting = Waiting(e: nat) | Holding(e: nat) | Cleared(e: nat)

  /** What the core is doing; `start` is the log at the moment the tick began. */
  datatype Core = Tasks | Tick(next: nat, start: Log)

  datatype State = State(
    table: seq<nat>,
    endpoints: map<nat, Endpoint>,
    gateway: Gateway,
    latch: bool,
    mutex: Owner,
    tasks: map<nat, Disconnecting>,
    core: Core,
    log: Log)

  datatype ConnectResult = IsConnected | AlreadyConnected | NoCapacity | WrongContext

  datatype Event =
    | Notify(e: nat)
    | Connect(e: nat, routine: Routine, inTask: bool, canStart: bool)
    | Disconnect(t: nat, e: nat, inTask: bool)
    | TakeMutex(t: nat)
    | Clear(t: nat)
    | GiveMutex(t: nat)
    | TickBegins
    | TickStep
    | GatewayStep

  function PowerOn(ids: set<nat>): State {
    State(seq(CAPACITY, _ => NULL), map e | e in ids :: Endpoint(false, NO_ROUTINE, NO_SLOT),
          NotStarted, false, Free, map[], Tasks, Start)
  }

  // ---------- Steps ----------

  /** The first free place of the table, or its length. */
  function FirstFree(table: seq<nat>): (k: nat)
    ensures k <= |table| && (k < |table| ==> table[k] == NULL)
    ensures forall j :: 0 <= j < k ==> table[j] != NULL
  {
    if |table| == 0 || table[0] == NULL then 0 else 1 + FirstFree(table[1..])
  }

  function NotifyStep(s: State, e: nat): State
    requires e in s.endpoints
  {
    s.(endpoints := s.endpoints[e := s.endpoints[e].(pending := true)], log := Then(s.log, Notified(e)))
  }

  /** The answer of `connect`. */
  function ConnectAnswer(s: State, e: nat, routine: Routine, inTask: bool, canStart: bool): ConnectResult
    requires e in s.endpoints
  {
    if !inTask || routine.handler == 0 then WrongContext
    else if s.endpoints[e].slot >= 0 then AlreadyConnected
    else if s.gateway.NotStarted? && !canStart then NoCapacity
    else if FirstFree(s.table) < |s.table| then IsConnected
    else NoCapacity
  }

  function StartIfNeeded(s: State): State {
    if s.gateway.NotStarted? then s.(gateway := Idle) else s
  }

  function ConnectStep(s: State, e: nat, routine: Routine, inTask: bool, canStart: bool): State
    requires e in s.endpoints
  {
    if !inTask || routine.handler == 0 || s.endpoints[e].slot >= 0 || (s.gateway.NotStarted? && !canStart) then s
    else
      var k := FirstFree(s.table);
      if k < |s.table| then
        StartIfNeeded(s).(table := s.table[k := e],
                          endpoints := s.endpoints[e := Endpoint(false, routine, k)],
                          log := Then(s.log, Connected(e, routine)))
      else StartIfNeeded(s)
  }

  function DisconnectStep(s: State, t: nat, e: nat, inTask: bool): State
    requires e in s.endpoints
  {
    if !inTask || s.endpoints[e].slot < 0 then s
    else s.(tasks := s.tasks[t := Waiting(e)])
  }

  function TakeStep(s: State, t: nat): State
    requires t in s.tasks
  {
    s.(mutex := ByTask(t), tasks := s.tasks[t := Holding(s.tasks[t].e)])
  }

  function ClearStep(s: State, t: nat): State
    requires t in s.tasks && s.tasks[t].e in s.endpoints
  {
    var e := s.tasks[t].e;
    var r := s.(tasks := s.tasks[t := Cleared(e)]);
    var k := s.endpoints[e].slot;
    if 0 <= k < |s.table| then
      r.(table := s.table[k := NULL], endpoints := s.endpoints[e := Endpoint(false, NO_ROUTINE, NO_SLOT)],
         log := Then(s.log, Disconnected(e)))
    else r
  }

  function GiveStep(s: State, t: nat): State {
    s.(mutex := Free, tasks := s.tasks - {t})
  }

  /** One place of the tick hook's scan. */
  function TickScan(s: State): State
    requires s.core.Tick?
  {
    var i := s.core.next;
    if s.gateway.NotStarted? || i >= |s.table| then s.(core := Tasks)
    else if s.table[i] in s.endpoints && s.endpoints[s.table[i]].pending then s.(core := Tasks, latch := true)
    else s.(core := Tick(i + 1, s.core.start))
  }

  predicate GatewayReady(s: State) {
    match s.gateway
    case NotStarted => false
    case Idle => s.latch
    case Woken => s.mutex.Free?
    case Scan(_, _) => true
    case Loaded(_, e, _) => e in s.endpoints
    case Claimed(_, e, _) => e in s.endpoints
    case InHandler(_, _, _) => true
  }

  /** One step of the gateway's loop. */
  function GatewayRun(s: State): State
    requires GatewayReady(s)
  {
    match s.gateway
    case Idle => s.(latch := false, gateway := Woken)
    case Woken => s.(mutex := ByGateway, gateway := Scan(0, s.log))
    case Scan(i, start) =>
      if i >= |s.table| then s.(mutex := Free, gateway := Idle)
      else if s.table[i] == NULL then s.(gateway := Scan(i + 1, start))
      else s.(gateway := Loaded(i, s.table[i], start))
    case Loaded(i, e, start) =>
      if s.endpoints[e].pending then
        s.(endpoints := s.endpoints[e := s.endpoints[e].(pending := false)], gateway := Claimed(i, e, start))
      else s.(gateway := Scan(i + 1, start))
    case Claimed(i, e, start) =>
      s.(gateway := InHandler(i, e, start), log := Then(s.log, Began(e, s.endpoints[e].routine)))
    case InHandler(i, e, start) => s.(gateway := Scan(i + 1, start), log := Then(s.log, Ended(e)))
  }

  predicate Enabled(s: State, ev: Event) {
    match ev
    case Notify(e) => e in s.endpoints
    case Connect(e, _, _, _) => s.core.Tasks? && e in s.endpoints
    case Disconnect(t, e, _) => s.core.Tasks? && e in s.endpoints && t !in s.tasks
    case TakeMutex(t) => s.core.Tasks? && t in s.tasks && s.tasks[t].Waiting? && s.mutex.Free?
    case Clear(t) => s.core.Tasks? && t in s.tasks && s.tasks[t].Holding? && s.tasks[t].e in s.endpoints
    case GiveMutex(t) => s.core.Tasks? && t in s.tasks && s.tasks[t].Cleared?
    case TickBegins => s.core.Tasks?
    case TickStep => s.core.Tick?
    case GatewayStep => s.core.Tasks? && GatewayReady(s)
  }

  function Step(s: State, ev: Event): State
    requires Enabled(s, ev)
  {
    match ev
    case Notify(e) => NotifyStep(s, e)
    case Connect(e, routine, inTask, canStart) => ConnectStep(s, e, routine, inTask, canStart)
    case Disconnect(t, e, inTask) => DisconnectStep(s, t, e, inTask)
    case TakeMutex(t) => TakeStep(s, t)
    case Clear(t) => ClearStep(s, t)
    case GiveMutex(t) => GiveStep(s, t)
    case TickBegins => s.(core := Tick(0, s.log))
    case TickStep => TickScan(s)
    case GatewayStep => GatewayRun(s)
  }

  predicate Runs(s: State, run: seq<Event>)
    decreases |run|
  {
    |run| == 0 || (Enabled(s, run[0]) && Runs(Step(s, run[0]), run[1..]))
  }

  function After(s: State, run: seq<Event>): State
    requires Runs(s, run)
    decreases |run|
  {
    if |run| == 0 then s else After(Step(s, run[0]), run[1..])
  }

  // ---------- What a log says ----------

  datatype Attachment = Detached | Attached(routine: Routine)

  /** Whether the endpoint is connected, and with what. */
  function AttachmentOf(log: Log, e: nat): Attachment {
    match log
    case Start => Detached
    case Then(before, Connected(x, r)) => if x == e then Attached(r) else AttachmentOf(before, e)
    case Then(before, Disconnected(x)) => if x == e then Detached else AttachmentOf(before, e)
    case Then(before, _) => AttachmentOf(before, e)
  }

  /** A notification arrived, and no handler call of this connection has begun since. */
  predicate Owed(log: Log, e: nat) {
    match log
    case Start => false
    case Then(before, x) =>
      if x.e != e || x.Ended? then Owed(before, e) else x.Notified?
  }

  function Notifications(log: Log, e: nat): nat {
    match log
    case Start => 0
    case Then(before, x) => Notifications(before, e) + if x == Notified(e) then 1 else 0
  }

  function Calls(log: Log, e: nat): nat {
    match log
    case Start => 0
    case Then(before, x) => Calls(before, e) + if x.Began? && x.e == e then 1 else 0
  }

  /** The endpoint whose handler is running, or `NULL`. */
  function Running(log: Log): nat {
    match log
    case Start => NULL
    case Then(before, x) => if x.Began? then x.e else if x.Ended? then NULL else Running(before)
  }

  /** What may happen next: a handler runs only while its endpoint is connected and is the one
      given to that connection, handlers do not overlap, and no disconnect happens inside one. */
  predicate Allowed(log: Log, x: Entry) {
    match x
    case Notified(_) => true
    case Connected(e, _) => AttachmentOf(log, e) == Detached
    case Disconnected(e) => AttachmentOf(log, e) != Detached && Running(log) == NULL
    case Began(e, r) => e != NULL && AttachmentOf(log, e) == Attached(r) && Running(log) == NULL
    case Ended(e) => Running(log) == e
  }

  predicate Proper(log: Log) {
    match log
    case Start => true
    case Then(before, x) => Proper(before) && Allowed(before, x)
  }

  function Size(log: Log): nat {
    match log
    case Start => 0
    case Then(before, _) => 1 + Size(before)
  }

  /** A handler call of `e` began after the first `n` entries. */
  predicate ServedSince(log: Log, n: nat, e: nat) {
    Size(log) > n && ((log.last.Began? && log.last.e == e) || ServedSince(log.before, n, e))
  }

  predicate DetachedSince(log: Log, n: nat, e: nat) {
    Size(log) > n && (log.last == Disconnected(e) || DetachedSince(log.before, n, e))
  }
}
