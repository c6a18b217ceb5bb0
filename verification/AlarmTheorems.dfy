/** What every program of service calls gets from the drain: full reservation of delays, and a
    bound on the work of one drain. */
module AlarmTheorems {
  import opened Int64
  import opened AlarmQueue
  import opened AlarmDelivery

  // ---------- Re-entrant delays ----------

  /** Inside a drain with this limit, every reserved target beyond the limit is already published. */
  predicate Level(s: Time, limitNs: int) {
    s.reservedNs == Max(limitNs, s.uptimeNs)
  }

  /** Between top-level calls, the uptime has reached every reserved target. */
  predicate Settled(s: Time) {
    !s.active && s.uptimeNs == s.reservedNs
  }

  /** A pump or delay made while delivery is active never drains: it only publishes its target. */
  lemma NestedDeliver(s: Time, limitNs: int, advanceTime: bool)
    requires s.active && s.service.Running?
    ensures Deliver(s, limitNs, advanceTime) == if advanceTime then PublishAtLeast(s, limitNs) else s
  {
  }

  /** A callback, whatever delays, lags, pumps and registrations it nests, leaves no reserved
      target above both the drain limit and the uptime. */
  lemma CallbackKeepsLevel(s: Time, c: Script, limitNs: int)
    requires Good(s) && s.active && Level(s, limitNs)
    ensures Run(s, c).aborted || (Run(s, c).active && Level(Run(s, c), limitNs))
    decreases c
  {
    if !s.aborted && c.Then? {
      ActKeeps(s, c.first);
      var t := Act(s, c.first);
      if t.aborted {
      } else {
        match c.first {
          case Process => NestedDeliver(s, s.uptimeNs, false);
          case Delay(us) => NestedDeliver(Reserve(s, us), Reserve(s, us).reservedNs, true);
          case _ =>
        }
        assert Level(t, limitNs);
        CallbackKeepsLevel(t, c.rest, limitNs);
      }
    }
  }

  lemma DrainSettles(s: Time, limitNs: int, advanceTime: bool)
    requires Good(s) && s.active && Level(s, limitNs) && (advanceTime || limitNs <= s.uptimeNs)
    ensures var r := Drain(s, limitNs, advanceTime);
            r.aborted || (Settled(r) && limitNs <= r.uptimeNs && !HeadDue(r))
    decreases Total(s.alarms)
  {
    if !s.aborted {
      var now := Advance(s, limitNs, advanceTime);
      if HeadDue(now) {
        ClaimIsGood(now);
        var t := Run(Claim(now), now.alarms[0].payload);
        RunKeeps(Claim(now), now.alarms[0].payload);
        CallbackKeepsLevel(Claim(now), now.alarms[0].payload, limitNs);
        if !t.aborted { DrainSettles(t, limitNs, advanceTime); }
      }
    }
  }

  lemma ActSettles(s: Time, a: Action)
    requires Good(s) && Settled(s) && !s.aborted
    ensures Act(s, a).aborted || Settled(Act(s, a))
    ensures a.Delay? && !Act(s, a).aborted ==>
              s.uptimeNs + a.us * NANOS_PER_MICRO <= Act(s, a).uptimeNs && !HeadDue(Act(s, a))
    ensures a.Process? && s.service.Running? && !Act(s, a).aborted ==> !HeadDue(Act(s, a))
  {
    match a
    case Delay(us) =>
      var t := Reserve(s, us);
      if !t.aborted { DrainSettles(t.(active := true), t.reservedNs, true); }
    case Process =>
      if s.service.Running? { DrainSettles(s.(active := true), s.uptimeNs, false); }
    case _ =>
  }

  /** Re-entrant delays, over every program: whenever a top-level call returns, the uptime has
      reached every target reserved by any delay at any nesting depth, it is at least the sum of
      all those delays, no callback ever ran early, and delivery is idle. */
  lemma {:induction false} EveryProgramSettles(s: Time, program: Script)
    requires Good(s) && Settled(s) && !s.aborted
    ensures var r := Run(s, program);
            Good(r) && (r.aborted || (Settled(r) && r.delayedNs <= r.uptimeNs))
    decreases program
  {
    RunKeeps(s, program);
    if program.Then? {
      ActKeeps(s, program.first);
      ActSettles(s, program.first);
      if !Act(s, program.first).aborted {
        EveryProgramSettles(Act(s, program.first), program.rest);
      }
    }
  }

  // ---------- Delays made at the top level ----------

  function Target(s: Time, us: nat): int {
    s.uptimeNs + us * NANOS_PER_MICRO
  }

  /** The service is idle and running, and the delay is within 64 bits. */
  ghost predicate CanDelay(s: Time, us: nat) {
    Good(s) && Settled(s) && s.service.Running? && !s.aborted && us <= MAX_ALARM_US && Target(s, us) <= INT64_MAX
  }

  /** What a delay hands to the drain. */
  function Reserved(s: Time, us: nat): Time {
    s.(reservedNs := Target(s, us), delayedNs := s.delayedNs + us * NANOS_PER_MICRO, active := true)
  }

  lemma ReserveIsGood(s: Time, us: nat)
    requires CanDelay(s, us)
    ensures Reserve(s, us) == Reserved(s, us).(active := false) && Good(Reserved(s, us))
  {
  }

  /** A delay is a drain to its target. */
  lemma DelayIsDrain(s: Time, us: nat)
    requires CanDelay(s, us)
    ensures Act(s, Delay(us)) == Drain(Reserved(s, us), Target(s, us), true)
  {
    ReserveIsGood(s, us);
    var t := Reserve(s, us);
    assert Act(s, Delay(us)) == Deliver(t, t.reservedNs, true);
    assert Reserved(s, us) == t.(active := true);
  }

  // ---------- A bound on the work of one drain ----------

  /** A callback of an alarm due at `d` that does not move time and re-arms at most one alarm,
      strictly later than `d`, whose callback is of the same kind. */
  predicate Tame(d: int, c: Script, mayArm: bool)
    decreases c
  {
    match c
    case Done => true
    case Then(a, rest) =>
      match a
      case Schedule(later, callback) =>
        mayArm && d < later && Tame(later, callback, true) && Tame(d, rest, false)
      case Lag(_) => false
      case Delay(_) => false
      case FinishShutdown => false
      case _ => Tame(d, rest, mayArm)
  }

  ghost predicate AllTame(q: seq<Alarm>) {
    forall e :: e in q ==> Tame(e.deadline, e.payload, true)
  }

  function Slack(limitUs: int): Alarm -> nat {
    (e: Alarm) => Max(0, limitUs - e.deadline + 1)
  }

  /** The sum over pending alarms of `max(0, limit - deadline + 1)`. */
  function Work(q: seq<Alarm>, limitUs: int): nat {
    Sum(q, Slack(limitUs))
  }

  lemma TameCallbackWork(s: Time, c: Script, d: int, mayArm: bool, limitUs: int)
    requires Good(s) && s.active && AllTame(s.alarms) && Tame(d, c, mayArm)
    ensures var r := Run(s, c);
            && r.uptimeNs == s.uptimeNs && r.fired == s.fired && AllTame(r.alarms)
            && Work(r.alarms, limitUs) <= Work(s.alarms, limitUs) + if mayArm then Max(0, limitUs - d) else 0
    decreases c
  {
    if !s.aborted && c.Then? {
      ActKeeps(s, c.first);
      var t := Act(s, c.first);
      if c.first.Schedule? {
        if !t.aborted {
          TameSchedule(s.alarms, Entry(c.first.deadlineUs, s.nextId, c.first.callback), limitUs);
          TameCallbackWork(t, c.rest, d, false, limitUs);
        }
      } else {
        if c.first.Cancel? { TameCancel(s, c.first.id, limitUs); } else { NestedDeliver(s, s.uptimeNs, false); }
        TameCallbackWork(t, c.rest, d, mayArm, limitUs);
      }
    }
  }

  lemma TameSchedule(q: seq<Alarm>, e: Alarm, limitUs: int)
    requires AllTame(q) && Tame(e.deadline, e.payload, true)
    ensures AllTame(Insert(q, e))
    ensures Work(Insert(q, e), limitUs) == Work(q, limitUs) + Max(0, limitUs - e.deadline + 1)
  {
    SumInsert(q, e, Slack(limitUs));
    InsertAtAddsOne(q, UpperBound(q, e.deadline), e);
  }

  lemma TameCancel(s: Time, id: nat, limitUs: int)
    requires Good(s) && AllTame(s.alarms)
    ensures AllTame(DoCancel(s, id).alarms)
    ensures Work(DoCancel(s, id).alarms, limitUs) <= Work(s.alarms, limitUs)
  {
    var k := Find(s.alarms, id);
    if k < |s.alarms| {
      SumRemove(s.alarms, k, Slack(limitUs));
      RemoveKeepsOrder(s.alarms, k);
    }
  }

  /** Drain termination, for callbacks of any depth: the number of callbacks one drain invokes is
      at most the work measure of the alarms pending at its start, also after the jump to the
      limit at a tie or an overdue alarm. */
  lemma {:induction false} DrainWorkBound(s: Time, limitNs: int, advanceTime: bool)
    requires Good(s) && s.active && limitNs <= s.reservedNs && AllTame(s.alarms)
    ensures |Drain(s, limitNs, advanceTime).fired| <=
              |s.fired| + Work(s.alarms, Max(limitNs, s.uptimeNs) / NANOS_PER_MICRO)
    decreases Total(s.alarms)
  {
    if !s.aborted {
      var limitUs := Max(limitNs, s.uptimeNs) / NANOS_PER_MICRO;
      var now := Advance(s, limitNs, advanceTime);
      AdvanceKeeps(s, limitNs, advanceTime);
      if HeadDue(now) {
        ClaimIsGood(now);
        var c, head := Claim(now), now.alarms[0];
        assert head in s.alarms;
        RunKeeps(c, head.payload);
        TameCallbackWork(c, head.payload, head.deadline, true, limitUs);
        assert Work(s.alarms, limitUs) == Work(c.alarms, limitUs) + (limitUs - head.deadline + 1);
        var t := Run(c, head.payload);
        if !t.aborted { DrainWorkBound(t, limitNs, advanceTime); }
      }
    }
  }
}
