/** What the alarm service does for one thread in manual mode, as a function on values.

    A callback is data: a finite script of service calls that the drain interprets, so that
    re-entrant scheduling, cancelling, delaying and pumping really happen.  A failed `CHECK`
    ends the process; here it sets `aborted`, and nothing happens after it. */
module AlarmDelivery {
  import opened Int64
  import opened AlarmQueue

  datatype Script = Done | Then(first: Action, rest: Script)

  datatype Action =
    | Schedule(deadlineUs: int, callback: Script)
    | Cancel(id: nat)
    | Lag(ns: nat)
    | Delay(us: nat)
    | Process
    | BeginShutdown
    | FinishShutdown

  type Alarm = Entry<Script>

  /** One callback invocation: the alarm and the uptime its callback saw. */
  datatype Firing = Firing(id: nat, deadlineUs: int, uptimeNs: int)

  datatype Time = Time(
    uptimeNs: int,
    reservedNs: int,
    alarms: seq<Alarm>,
    nextId: nat,
    active: bool,
    service: Service,
    fired: seq<Firing>,
    delayedNs: nat,
    aborted: bool)

  const POWER_ON := Time(0, 0, [], 1, false, Running, [], 0, false)

  // ---------- Sizes, for termination ----------

  function Size(c: Script): nat {
    match c
    case Done => 0
    case Then(a, rest) => 1 + ActionSize(a) + Size(rest)
  }

  function ActionSize(a: Action): nat {
    if a.Schedule? then 1 + Size(a.callback) else 0
  }

  function Cost(e: Alarm): nat {
    1 + Size(e.payload)
  }

  function Total(q: seq<Alarm>): nat {
    Sum(q, Cost)
  }

  // ---------- The operations ----------

  function Abort(s: Time): Time {
    s.(aborted := true)
  }

  function PublishAtLeast(s: Time, candidateNs: int): Time {
    s.(uptimeNs := Max(s.uptimeNs, candidateNs))
  }

  function DoSchedule(s: Time, deadlineUs: int, callback: Script): (r: Time)
    ensures Total(r.alarms) <= Total(s.alarms) + 1 + Size(callback)
  {
    if !(MIN_ALARM_US <= deadlineUs <= MAX_ALARM_US) || !s.service.Running? || s.nextId == 0 then
      Abort(s)
    else
      var e := Entry(deadlineUs, s.nextId, callback);
      SumInsert(s.alarms, e, Cost);
      s.(alarms := Insert(s.alarms, e), nextId := NextId(s.nextId))
  }

  function DoCancel(s: Time, id: nat): (r: Time)
    ensures Total(r.alarms) <= Total(s.alarms)
  {
    var k := Find(s.alarms, id);
    if id == 0 || k == |s.alarms| then s
    else
      SumRemove(s.alarms, k, Cost);
      s.(alarms := RemoveAt(s.alarms, k))
  }

  function DoLag(s: Time, ns: nat): Time {
    if ns > INT64_MAX || !s.service.Running? || ns > INT64_MAX - s.uptimeNs then
      Abort(s)
    else
      var now := s.uptimeNs + ns;
      s.(uptimeNs := now, reservedNs := Max(s.reservedNs, now))
  }

  /** Reserves the target of an explicit delay before anything is delivered. */
  function Reserve(s: Time, us: nat): Time {
    var base := Max(s.uptimeNs, s.reservedNs);
    if us > MAX_ALARM_US || !s.service.Running? || us * NANOS_PER_MICRO > INT64_MAX - base then
      Abort(s)
    else
      s.(reservedNs := base + us * NANOS_PER_MICRO, delayedNs := s.delayedNs + us * NANOS_PER_MICRO)
  }

  predicate HeadDue(s: Time) {
    |s.alarms| > 0 && s.alarms[0].deadline * NANOS_PER_MICRO <= s.uptimeNs
  }

  /** The time movement at the top of one drain iteration: to the head deadline when it lies
      strictly ahead and within the limit, otherwise straight to the limit. */
  function Advance(s: Time, limitNs: int, advanceTime: bool): Time {
    if !advanceTime || limitNs <= s.uptimeNs then s
    else if |s.alarms| > 0 && s.uptimeNs < s.alarms[0].deadline * NANOS_PER_MICRO <= limitNs then
      PublishAtLeast(s, s.alarms[0].deadline * NANOS_PER_MICRO)
    else
      PublishAtLeast(s, limitNs)
  }

  function Claim(s: Time): (r: Time)
    requires |s.alarms| > 0
    ensures Total(s.alarms) == Total(r.alarms) + Cost(s.alarms[0])
  {
    var head := s.alarms[0];
    s.(alarms := s.alarms[1..], fired := s.fired + [Firing(head.id, head.deadline, s.uptimeNs)])
  }

  function Drain(s: Time, limitNs: int, advanceTime: bool): (r: Time)
    ensures Total(r.alarms) <= Total(s.alarms)
    decreases Total(s.alarms), 0
  {
    if s.aborted then s
    else
      var now := Advance(s, limitNs, advanceTime);
      if !HeadDue(now) then now.(active := false)
      else Drain(Run(Claim(now), now.alarms[0].payload), limitNs, advanceTime)
  }

  function Deliver(s: Time, limitNs: int, advanceTime: bool): (r: Time)
    ensures Total(r.alarms) <= Total(s.alarms)
    decreases Total(s.alarms), 1
  {
    if !s.service.Running? then s
    else if s.active then (if advanceTime then PublishAtLeast(s, limitNs) else s)
    else Drain(s.(active := true), limitNs, advanceTime)
  }

  function Act(s: Time, a: Action): (r: Time)
    ensures Total(r.alarms) <= Total(s.alarms) + ActionSize(a)
    decreases Total(s.alarms) + ActionSize(a), 2
  {
    match a
    case Schedule(deadlineUs, callback) => DoSchedule(s, deadlineUs, callback)
    case Cancel(id) => DoCancel(s, id)
    case Lag(ns) => DoLag(s, ns)
    case Delay(us) =>
      var t := Reserve(s, us);
      if t.aborted then t else Deliver(t, t.reservedNs, true)
    case Process => if s.service.Running? then Deliver(s, s.uptimeNs, false) else s
    case BeginShutdown => if s.active || !s.service.Running? then s else s.(service := Closing)
    case FinishShutdown =>
      if !s.service.Closing? then Abort(s) else s.(alarms := [], service := Stopped)
  }

  function Run(s: Time, c: Script): (r: Time)
    ensures Total(r.alarms) <= Total(s.alarms) + Size(c)
    decreases Total(s.alarms) + Size(c), 3
  {
    if s.aborted || c.Done? then s else Run(Act(s, c.first), c.rest)
  }

  // ---------- Invariant of every run ----------

  predicate Registered(e: Alarm, bound: nat) {
    0 < e.id < bound && MIN_ALARM_US <= e.deadline <= MAX_ALARM_US
  }

  ghost predicate GoodAlarms(q: seq<Alarm>, bound: nat) {
    Sorted(q) && DistinctIds(q) && forall e :: e in q ==> Registered(e, bound)
  }

  /** No callback ever ran before its deadline. */
  ghost predicate NeverEarly(fired: seq<Firing>, uptimeNs: int) {
    forall f :: f in fired ==> f.deadlineUs * NANOS_PER_MICRO <= f.uptimeNs <= uptimeNs
  }

  ghost predicate GoodTimes(s: Time) {
    && 0 <= s.uptimeNs <= s.reservedNs <= INT64_MAX
    && s.delayedNs <= s.reservedNs
    && s.nextId < UINT64_SPAN
    && (s.active ==> s.service.Running?)
    && (s.service.Stopped? ==> s.alarms == [])
  }

  ghost predicate Good(s: Time) {
    GoodTimes(s) && GoodAlarms(s.alarms, IdBound(s.nextId)) && NeverEarly(s.fired, s.uptimeNs)
  }

  ghost predicate Follows(s: Time, r: Time) {
    && s.uptimeNs <= r.uptimeNs
    && s.reservedNs <= r.reservedNs
    && s.delayedNs <= r.delayedNs
    && IdBound(s.nextId) <= IdBound(r.nextId)
    && s.fired <= r.fired
    && (s.active ==> r.service == s.service)
    && (!r.aborted ==> r.active == s.active)
    && (!s.service.Running? ==> !r.service.Running? && r.fired == s.fired && r.uptimeNs == s.uptimeNs)
  }

  lemma ActKeeps(s: Time, a: Action)
    requires Good(s) && !s.aborted
    ensures Good(Act(s, a)) && Follows(s, Act(s, a))
    decreases Total(s.alarms) + ActionSize(a), 2
  {
    match a
    case Schedule(deadlineUs, callback) =>
      ScheduleKeeps(s, deadlineUs, callback);
    case Cancel(id) =>
      CancelKeeps(s, id);
    case Lag(ns) =>
      LagKeeps(s, ns);
    case Delay(us) =>
      var t := Reserve(s, us);
      if !t.aborted { DeliverKeeps(t, t.reservedNs, true); }
    case Process =>
      if s.service.Running? { DeliverKeeps(s, s.uptimeNs, false); }
    case BeginShutdown =>
    case FinishShutdown =>
  }

  lemma RegisteredInOrder(q: seq<Alarm>, e: Alarm)
    requires GoodAlarms(q, e.id) && Registered(e, e.id + 1)
    ensures GoodAlarms(Insert(q, e), e.id + 1)
  {
    forall i | 0 <= i < |q| ensures q[i].id < e.id {
      assert q[i] in q;
    }
    InsertKeepsOrder(q, e);
    var r := Insert(q, e);
    forall x | x in r ensures Registered(x, e.id + 1) {
      assert x != e ==> Registered(x, e.id);
    }
  }

  lemma ScheduleKeeps(s: Time, deadlineUs: int, callback: Script)
    requires Good(s) && !s.aborted
    ensures Good(DoSchedule(s, deadlineUs, callback)) && Follows(s, DoSchedule(s, deadlineUs, callback))
  {
    if !DoSchedule(s, deadlineUs, callback).aborted {
      RegisteredInOrder(s.alarms, Entry(deadlineUs, s.nextId, callback));
    }
  }

  lemma CancelKeeps(s: Time, id: nat)
    requires Good(s) && !s.aborted
    ensures Good(DoCancel(s, id)) && Follows(s, DoCancel(s, id))
  {
    var k := Find(s.alarms, id);
    if k < |s.alarms| {
      RemoveKeepsOrder(s.alarms, k);
      var r := RemoveAt(s.alarms, k);
      assert forall x :: x in r ==> Registered(x, IdBound(s.nextId));
    }
  }

  lemma LagKeeps(s: Time, ns: nat)
    requires Good(s) && !s.aborted
    ensures Good(DoLag(s, ns)) && Follows(s, DoLag(s, ns))
  {
  }

  lemma DeliverKeeps(s: Time, limitNs: int, advanceTime: bool)
    requires Good(s) && !s.aborted && limitNs <= s.reservedNs
    ensures Good(Deliver(s, limitNs, advanceTime)) && Follows(s, Deliver(s, limitNs, advanceTime))
    decreases Total(s.alarms), 1
  {
    if s.service.Running? && !s.active {
      DrainKeeps(s.(active := true), limitNs, advanceTime);
    }
  }

  lemma DrainKeeps(s: Time, limitNs: int, advanceTime: bool)
    requires Good(s) && s.active && limitNs <= s.reservedNs
    ensures Good(Drain(s, limitNs, advanceTime))
    ensures Follows(s.(active := false), Drain(s, limitNs, advanceTime))
    decreases Total(s.alarms), 0
  {
    if !s.aborted {
      AdvanceKeeps(s, limitNs, advanceTime);
      var now := Advance(s, limitNs, advanceTime);
      if HeadDue(now) {
        ClaimIsGood(now);
        var t := Run(Claim(now), now.alarms[0].payload);
        RunKeeps(Claim(now), now.alarms[0].payload);
        FollowsTransitive(s, now, Claim(now));
        FollowsTransitive(s, Claim(now), t);
        if t.aborted {} else {
          DrainKeeps(t, limitNs, advanceTime);
          FollowsTransitive(s.(active := false), t.(active := false), Drain(t, limitNs, advanceTime));
        }
      }
    }
  }

  lemma FollowsTransitive(a: Time, b: Time, c: Time)
    requires Follows(a, b) && Follows(b, c) && !b.aborted
    ensures Follows(a, c)
  {
  }

  lemma AdvanceKeeps(s: Time, limitNs: int, advanceTime: bool)
    requires Good(s) && s.active && limitNs <= s.reservedNs
    ensures Good(Advance(s, limitNs, advanceTime)) && Follows(s, Advance(s, limitNs, advanceTime))
  {
  }

  lemma ClaimIsGood(s: Time)
    requires Good(s) && HeadDue(s) && s.active
    ensures Good(Claim(s)) && Follows(s, Claim(s))
  {
    var q := s.alarms;
    assert GoodAlarms(q[1..], IdBound(s.nextId));
  }

  lemma RunKeeps(s: Time, c: Script)
    requires Good(s)
    ensures Good(Run(s, c)) && Follows(s, Run(s, c))
    decreases Total(s.alarms) + Size(c), 3
  {
    if !s.aborted && c.Then? {
      ActKeeps(s, c.first);
      RunKeeps(Act(s, c.first), c.rest);
    }
  }
}
