/** The alarm service under interleaving: threads, a background worker and shutdown.

    One step is one section under the mutation lock, one `NotifyAlarmWorker`, or one unlocked
    read or test.  Each thread has a stack of frames, so that a callback can call the service.
    The fields from `owner` on record the run and are read by no step. */
module AlarmProtocol {
  import opened Int64
  import opened AlarmQueue

  type Alarm = Entry<()>

  /** Where a thread stands in a service call.  `ticket` is the number of the delay that a
      delivery belongs to, or -1 for a pump. */
  datatype Frame =
    | NotifyOwed
    | PumpChecked
    | Entering(limitNs: int, advance: bool, ticket: int)
    | Draining(limitNs: int, advance: bool, ticket: int)
    | Releasing(ticket: int)
    | ClaimNotify(id: nat)
    | InCallback(id: nat)
    | Joining
    | WorkerLoop
    | WorkerCheck(seen: nat, timed: bool, deadline: int)
    | WorkerParked(seen: nat, timed: bool, deadline: int)

  datatype Delay = Delay(durationNs: nat, targetNs: int, completed: bool)

  datatype State = State(
    uptimeNs: int,
    reservedNs: int,
    alarms: seq<Alarm>,
    nextId: nat,
    active: bool,
    service: Service,
    workerStarted: bool,
    generation: nat,
    autoSync: bool,
    threads: map<nat, seq<Frame>>,
    owner: nat,
    depth: nat,
    claimed: seq<nat>,
    called: seq<nat>,
    cancelled: set<nat>,
    discarded: set<nat>,
    delays: seq<Delay>)

  const WORKER: nat := 0

  datatype Op =
    | Schedule(deadlineUs: int)
    | Cancel(id: nat)
    | Lag(ns: nat, hostNs: int)
    | DelayFor(us: nat)
    | Process
    | BeginShutdown
    | FinishShutdown

  /** Thread `t` makes a service call, takes its next step, or wakes from its wait; or a passive
      read publishes host time.  `hostNs` is what a second read in the same locked section finds. */
  datatype Event = Call(t: nat, op: Op) | Move(t: nat, hostNs: int) | Wake(t: nat) | HostTime(uptimeNs: int)

  function PowerOn(autoSync: bool): State {
    State(0, 0, [], 1, false, Running, false, 0, autoSync, map[], 0, 0, [], [], {}, {}, [])
  }

  function Stack(s: State, t: nat): seq<Frame> {
    if t in s.threads then s.threads[t] else []
  }

  function Top(st: seq<Frame>): Frame
    requires |st| > 0
  {
    st[|st| - 1]
  }

  function Push(s: State, t: nat, f: Frame): State {
    s.(threads := s.threads[t := Stack(s, t) + [f]])
  }

  function Pop(s: State, t: nat): State
    requires |Stack(s, t)| > 0
  {
    s.(threads := s.threads[t := Stack(s, t)[..|Stack(s, t)| - 1]])
  }

  function Replace(s: State, t: nat, f: Frame): State
    requires |Stack(s, t)| > 0
  {
    s.(threads := s.threads[t := Stack(s, t)[..|Stack(s, t)| - 1] + [f]])
  }

  /** A thread calls the service when it is outside it, or from the callback it is running. */
  predicate CanCall(s: State, t: nat) {
    var st := Stack(s, t);
    if |st| == 0 then t != WORKER else Top(st).InCallback?
  }

  /** `read()` follows the host clock in auto-sync mode and nothing else in manual mode. */
  function Reread(s: State, hostNs: int): State {
    if s.autoSync && hostNs <= INT64_MAX then s.(uptimeNs := Max(s.uptimeNs, hostNs)) else s
  }

  // ---------- Calls: the first locked section of each operation ----------

  predicate CallEnabled(s: State, t: nat, op: Op) {
    && CanCall(s, t)
    && match op
       case Schedule(d) => s.service.Running? && s.nextId != 0 && MIN_ALARM_US <= d <= MAX_ALARM_US
       case Lag(ns, _) => s.service.Running? && ns <= INT64_MAX - s.uptimeNs
       case DelayFor(us) =>
         && us <= MAX_ALARM_US && s.service.Running?
         && us * NANOS_PER_MICRO <= INT64_MAX - Max(s.uptimeNs, s.reservedNs)
       case FinishShutdown => s.service.Closing?
       case _ => true
  }

  function DoSchedule(s: State, t: nat, deadlineUs: int): State {
    var r := s.(alarms := Insert(s.alarms, Entry(deadlineUs, s.nextId, ())), nextId := NextId(s.nextId));
    var started := if s.autoSync && !s.workerStarted then
                     r.(workerStarted := true, threads := r.threads[WORKER := [WorkerLoop]])
                   else r;
    Push(started, t, NotifyOwed)
  }

  function DoCancel(s: State, t: nat, id: nat): State {
    var k := Find(s.alarms, id);
    if id == 0 || k == |s.alarms| then s
    else Push(s.(alarms := RemoveAt(s.alarms, k), cancelled := s.cancelled + {id}), t, NotifyOwed)
  }

  function DoLag(s: State, t: nat, ns: nat, hostNs: int): State {
    var r := Reread(s.(uptimeNs := s.uptimeNs + ns), hostNs);
    Push(r.(reservedNs := Max(r.reservedNs, r.uptimeNs)), t, NotifyOwed)
  }

  function DoDelay(s: State, t: nat, us: nat): State {
    var duration := us * NANOS_PER_MICRO;
    var target := Max(s.uptimeNs, s.reservedNs) + duration;
    Push(s.(reservedNs := target, delays := s.delays + [Delay(duration, target, false)]), t,
         Entering(target, true, |s.delays|))
  }

  function CallStep(s: State, t: nat, op: Op): State
    requires CallEnabled(s, t, op)
  {
    match op
    case Schedule(d) => DoSchedule(s, t, d)
    case Cancel(id) => DoCancel(s, t, id)
    case Lag(ns, hostNs) => DoLag(s, t, ns, hostNs)
    case DelayFor(us) => DoDelay(s, t, us)
    case Process => if s.service.Running? then Push(s, t, PumpChecked) else s
    case BeginShutdown =>
      if s.active || !s.service.Running? then s else Push(s.(service := Closing), t, NotifyOwed)
    case FinishShutdown => Push(s, t, Joining)
  }

  // ---------- Moves: the next step of the top frame ----------

  predicate MoveEnabled(s: State, t: nat) {
    var st := Stack(s, t);
    && |st| > 0 && !Top(st).WorkerParked?
    && (Top(st).Joining? && s.workerStarted ==> |Stack(s, WORKER)| == 0)
  }

  function Complete(s: State, ticket: int): State {
    if 0 <= ticket < |s.delays| then
      s.(delays := s.delays[ticket := s.delays[ticket].(completed := true)])
    else s
  }

  predicate HeadDue(s: State) {
    |s.alarms| > 0 && s.alarms[0].deadline * NANOS_PER_MICRO <= s.uptimeNs
  }

  function Advance(s: State, limitNs: int, advance: bool, hostNs: int): State {
    if !advance || limitNs <= s.uptimeNs then s
    else if |s.alarms| > 0 && s.uptimeNs < s.alarms[0].deadline * NANOS_PER_MICRO <= limitNs then
      Reread(s.(uptimeNs := s.alarms[0].deadline * NANOS_PER_MICRO), hostNs)
    else Reread(s.(uptimeNs := limitNs), hostNs)
  }

  /** The entry section of `DeliverAlarmsThrough`. */
  function EnterStep(s: State, t: nat): State
    requires |Stack(s, t)| > 0 && Top(Stack(s, t)).Entering?
  {
    var f := Top(Stack(s, t));
    if !s.service.Running? then Pop(s, t)
    else if s.active then
      Pop(Complete(if f.advance then s.(uptimeNs := Max(s.uptimeNs, f.limitNs)) else s, f.ticket), t)
    else
      Replace(s.(active := true, owner := t, depth := |Stack(s, t)| - 1), t, Draining(f.limitNs, f.advance, f.ticket))
  }

  /** The locked section at the top of the drain loop.  It does not look at the service state. */
  function DrainStep(s: State, t: nat, hostNs: int): State
    requires |Stack(s, t)| > 0 && Top(Stack(s, t)).Draining?
  {
    var f := Top(Stack(s, t));
    var now := Advance(s, f.limitNs, f.advance, hostNs);
    if HeadDue(now) then
      var id := now.alarms[0].id;
      Push(now.(alarms := now.alarms[1..], claimed := now.claimed + [id]), t, ClaimNotify(id))
    else Replace(now, t, Releasing(f.ticket))
  }

  function ReleaseStep(s: State, t: nat): State
    requires |Stack(s, t)| > 0 && Top(Stack(s, t)).Releasing?
  {
    Replace(Complete(s.(active := false), Top(Stack(s, t)).ticket), t, NotifyOwed)
  }

  function NotifyStep(s: State, t: nat): State
    requires |Stack(s, t)| > 0 && Owing(Top(Stack(s, t)))
  {
    var f := Top(Stack(s, t));
    var r := s.(generation := s.generation + 1);
    if f.NotifyOwed? then Pop(r, t) else Replace(r.(called := r.called + [f.id]), t, InCallback(f.id))
  }

  /** The worker's locked snapshot, and its test of the generation before it waits. */
  function WorkerStep(s: State, t: nat): State
    requires |Stack(s, t)| > 0 && (Top(Stack(s, t)).WorkerLoop? || Top(Stack(s, t)).WorkerCheck?)
  {
    var f := Top(Stack(s, t));
    if f.WorkerCheck? then
      Replace(s, t, if s.generation == f.seen then WorkerParked(f.seen, f.timed, f.deadline) else WorkerLoop)
    else if !s.service.Running? then Pop(s, t)
    else if |s.alarms| == 0 then Replace(s, t, WorkerCheck(s.generation, false, 0))
    else if HeadDue(s) && !s.active then Push(s, t, PumpChecked)
    else Replace(s, t, WorkerCheck(s.generation, !s.active, s.alarms[0].deadline))
  }

  function JoinStep(s: State, t: nat): State
    requires |Stack(s, t)| > 0
  {
    Pop(s.(alarms := [], discarded := s.discarded + Ids(s.alarms), service := Stopped), t)
  }

  predicate Owing(f: Frame) { f.NotifyOwed? || f.ClaimNotify? }

  function MoveStep(s: State, t: nat, hostNs: int): State
    requires MoveEnabled(s, t)
  {
    var f := Top(Stack(s, t));
    if Owing(f) then NotifyStep(s, t)
    else if f.PumpChecked? then Replace(s, t, Entering(s.uptimeNs, false, -1))
    else if f.Entering? then EnterStep(s, t)
    else if f.Draining? then DrainStep(s, t, hostNs)
    else if f.Releasing? then ReleaseStep(s, t)
    else if f.InCallback? then Pop(s, t)
    else if f.Joining? then JoinStep(s, t)
    else WorkerStep(s, t)
  }

  predicate Enabled(s: State, e: Event) {
    match e
    case Call(t, op) => CallEnabled(s, t, op)
    case Move(t, _) => MoveEnabled(s, t)
    case Wake(t) => |Stack(s, t)| > 0 && Top(Stack(s, t)).WorkerParked?
    case HostTime(uptimeNs) => s.autoSync && s.uptimeNs <= uptimeNs <= INT64_MAX
  }

  function Step(s: State, e: Event): State
    requires Enabled(s, e)
  {
    match e
    case Call(t, op) => CallStep(s, t, op)
    case Move(t, hostNs) => MoveStep(s, t, hostNs)
    case Wake(t) => Replace(s, t, WorkerLoop)
    case HostTime(uptimeNs) => s.(uptimeNs := uptimeNs)
  }

  ghost predicate Runs(s: State, run: seq<Event>)
    decreases |run|
  {
    |run| == 0 || (Enabled(s, run[0]) && Runs(Step(s, run[0]), run[1..]))
  }

  ghost function After(s: State, run: seq<Event>): State
    requires Runs(s, run)
    decreases |run|
  {
    if |run| == 0 then s else After(Step(s, run[0]), run[1..])
  }

  /** The state `r` is where the run leads. */
  ghost predicate Reaches(s: State, run: seq<Event>, r: State) {
    Runs(s, run) && After(s, run) == r
  }

  lemma ReachesFirst(s: State, run: seq<Event>, r: State)
    requires |run| > 0
    ensures Reaches(s, run, r) <==> Enabled(s, run[0]) && Reaches(Step(s, run[0]), run[1..], r)
  {
  }

  lemma ReachesNothing(s: State, run: seq<Event>, r: State)
    requires |run| == 0
    ensures Reaches(s, run, r) <==> s == r
  {
  }

  /** Running one run after another. */
  lemma {:induction false} ReachesAppend(s: State, run: seq<Event>, m: State, more: seq<Event>, r: State)
    requires Reaches(s, run, m) && Reaches(m, more, r)
    ensures Reaches(s, run + more, r)
    decreases |run|, 1
  {
    if |run| == 0 {
      ReachesNothing(s, run, m);
      assert run + more == more;
    } else {
      ReachesFirst(s, run, m);
      ReachesRest(s, run[0], run[1..], m, more, r);
      assert run + more == [run[0]] + (run[1..] + more);
    }
  }

  lemma {:induction false} ReachesRest(s: State, e: Event, tail: seq<Event>, m: State, more: seq<Event>, r: State)
    requires Enabled(s, e) && Reaches(Step(s, e), tail, m) && Reaches(m, more, r)
    ensures Reaches(s, [e] + (tail + more), r)
    decreases |tail| + 1, 0
  {
    ReachesAppend(Step(s, e), tail, m, more, r);
    ReachesFrom(s, e, tail + more, r);
  }

  lemma ReachesFrom(s: State, e: Event, rest: seq<Event>, r: State)
    requires Enabled(s, e) && Reaches(Step(s, e), rest, r)
    ensures Reaches(s, [e] + rest, r)
  {
    assert ([e] + rest)[1..] == rest;
    ReachesFirst(s, [e] + rest, r);
  }

  lemma OneStep(s: State, e: Event)
    requires Enabled(s, e)
    ensures Runs(s, [e]) && After(s, [e]) == Step(s, e)
  {
    assert [e][1..] == [];
    ReachesNothing(Step(s, e), [e][1..], Step(s, e));
    ReachesFirst(s, [e], Step(s, e));
  }
}
