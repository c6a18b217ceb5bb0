/** The service calls that a program really makes, callbacks included, read off its scripts: what
    the delays among them add up to is what the uptime must cover. */
module AlarmTrace {
  import opened Int64
  import opened AlarmQueue
  import opened AlarmDelivery
  import opened AlarmTheorems

  // ---------- The calls made ----------

  function TraceDrain(s: Time, limitNs: int, advanceTime: bool): seq<Action>
    decreases Total(s.alarms), 0
  {
    if s.aborted then []
    else
      var now := Advance(s, limitNs, advanceTime);
      if !HeadDue(now) then []
      else
        var c, callback := Claim(now), now.alarms[0].payload;
        TraceRun(c, callback) + TraceDrain(Run(c, callback), limitNs, advanceTime)
  }

  function TraceDeliver(s: Time, limitNs: int, advanceTime: bool): seq<Action>
    decreases Total(s.alarms), 1
  {
    if !s.service.Running? || s.active then [] else TraceDrain(s.(active := true), limitNs, advanceTime)
  }

  /** The call, and then the calls of the callbacks that it delivers. */
  function TraceAct(s: Time, a: Action): seq<Action>
    decreases Total(s.alarms) + ActionSize(a), 2
  {
    match a
    case Delay(us) =>
      var t := Reserve(s, us);
      if t.aborted then [a] else [a] + TraceDeliver(t, t.reservedNs, true)
    case Process => [a] + TraceDeliver(s, s.uptimeNs, false)
    case _ => [a]
  }

  /** The calls of a program, in the order in which they are made. */
  function TraceRun(s: Time, c: Script): seq<Action>
    decreases Total(s.alarms) + Size(c), 3
  {
    if s.aborted || c.Done? then [] else TraceAct(s, c.first) + TraceRun(Act(s, c.first), c.rest)
  }

  /** The durations of the delays among some calls. */
  function DelaySum(calls: seq<Action>): nat {
    if |calls| == 0 then 0
    else (if calls[0].Delay? then calls[0].us * NANOS_PER_MICRO else 0) + DelaySum(calls[1..])
  }

  lemma {:induction false} DelaySumConcat(a: seq<Action>, b: seq<Action>)
    ensures DelaySum(a + b) == DelaySum(a) + DelaySum(b)
    decreases |a|
  {
    if |a| == 0 {
      assert a + b == b;
    } else {
      assert (a + b)[1..] == a[1..] + b;
      DelaySumConcat(a[1..], b);
    }
  }

  // ---------- Nested delays and pumps ----------

  /** A delay made while delivery is active takes its full time at once, on top of everything
      reserved before it. */
  lemma NestedDelayElapses(s: Time, us: nat)
    requires Good(s) && s.active && !s.aborted
    ensures var r, target := Act(s, Delay(us)), Max(s.uptimeNs, s.reservedNs) + us * NANOS_PER_MICRO;
      if us <= MAX_ALARM_US && target <= INT64_MAX then
        !r.aborted && r.uptimeNs == target && r.reservedNs == target && r.alarms == s.alarms && r.fired == s.fired
      else r.aborted
  {
    NestedDeliver(Reserve(s, us), Reserve(s, us).reservedNs, true);
  }

  /** A pump made while delivery is active, or after shutdown began, does nothing. */
  lemma IdlePump(s: Time)
    requires s.active || !s.service.Running?
    ensures Act(s, Process) == s
  {
  }

  /** A lag moves the uptime by exactly its amount, or aborts. */
  lemma LagAdds(s: Time, ns: nat)
    requires Good(s) && !s.aborted
    ensures var r := Act(s, Lag(ns));
      if s.service.Running? && s.uptimeNs + ns <= INT64_MAX then
        r == s.(uptimeNs := s.uptimeNs + ns, reservedNs := Max(s.reservedNs, s.uptimeNs + ns))
      else r.aborted
  {
  }

  // ---------- Every delay elapses ----------

  lemma {:induction false} DrainCovers(s: Time, limitNs: int, advanceTime: bool)
    requires Good(s) && s.active && limitNs <= s.reservedNs && !Drain(s, limitNs, advanceTime).aborted
    ensures s.reservedNs + DelaySum(TraceDrain(s, limitNs, advanceTime)) <= Drain(s, limitNs, advanceTime).reservedNs
    decreases Total(s.alarms), 0
  {
    var now := Advance(s, limitNs, advanceTime);
    AdvanceKeeps(s, limitNs, advanceTime);
    if HeadDue(now) {
      ClaimIsGood(now);
      var c, callback := Claim(now), now.alarms[0].payload;
      var t := Run(c, callback);
      RunKeeps(c, callback);
      NoAbortBefore(t, limitNs, advanceTime);
      RunCovers(c, callback);
      DrainCovers(t, limitNs, advanceTime);
      DelaySumConcat(TraceRun(c, callback), TraceDrain(t, limitNs, advanceTime));
    }
  }

  lemma NoAbortBefore(t: Time, limitNs: int, advanceTime: bool)
    requires !Drain(t, limitNs, advanceTime).aborted
    ensures !t.aborted
  {
  }

  lemma {:induction false} DeliverCovers(s: Time, limitNs: int, advanceTime: bool)
    requires Good(s) && limitNs <= s.reservedNs && !Deliver(s, limitNs, advanceTime).aborted
    ensures s.reservedNs + DelaySum(TraceDeliver(s, limitNs, advanceTime))
         <= Deliver(s, limitNs, advanceTime).reservedNs
    decreases Total(s.alarms), 1
  {
    if s.service.Running? && !s.active { DrainCovers(s.(active := true), limitNs, advanceTime); }
  }

  lemma {:induction false} ActCovers(s: Time, a: Action)
    requires Good(s) && !s.aborted && !Act(s, a).aborted
    ensures s.reservedNs + DelaySum(TraceAct(s, a)) <= Act(s, a).reservedNs
    decreases Total(s.alarms) + ActionSize(a), 2
  {
    match a
    case Delay(us) =>
      var t := Reserve(s, us);
      DeliverCovers(t, t.reservedNs, true);
      DelaySumConcat([a], TraceDeliver(t, t.reservedNs, true));
    case Process =>
      DeliverCovers(s, s.uptimeNs, false);
      DelaySumConcat([a], TraceDeliver(s, s.uptimeNs, false));
    case _ => ActKeeps(s, a);
  }

  lemma {:induction false} RunCovers(s: Time, c: Script)
    requires Good(s) && !Run(s, c).aborted
    ensures s.reservedNs + DelaySum(TraceRun(s, c)) <= Run(s, c).reservedNs
    decreases Total(s.alarms) + Size(c), 3
  {
    if c.Then? && !s.aborted {
      var t := Act(s, c.first);
      ActKeeps(s, c.first);
      NoAbortInRun(t, c.rest);
      ActCovers(s, c.first);
      RunCovers(t, c.rest);
      DelaySumConcat(TraceAct(s, c.first), TraceRun(t, c.rest));
    }
  }

  lemma NoAbortInRun(t: Time, c: Script)
    requires !Run(t, c).aborted
    ensures !t.aborted
  {
  }

  /** Over every program, at return to the top level: the uptime has moved by at least the sum of
      all the delays that the program and its callbacks called for, at any depth. */
  lemma EveryDelayElapses(s: Time, program: Script)
    requires Good(s) && Settled(s) && !s.aborted
    ensures var r := Run(s, program); r.aborted || s.uptimeNs + DelaySum(TraceRun(s, program)) <= r.uptimeNs
  {
    EveryProgramSettles(s, program);
    if !Run(s, program).aborted { RunCovers(s, program); }
  }

  // ---------- Shutdown ----------

  /** A shutdown begins exactly when the service is running and nobody delivers. */
  lemma ShutdownBeginsIff(s: Time)
    ensures Act(s, BeginShutdown) == if s.service.Running? && !s.active then s.(service := Closing) else s
  {
  }

  /** From any idle running service: shutting down stops it with nothing pending and nothing run. */
  lemma ShutdownStops(s: Time)
    requires Good(s) && s.service.Running? && !s.active && !s.aborted
    ensures var r := Run(s, Then(BeginShutdown, Then(FinishShutdown, Done)));
      !r.aborted && r.service == Stopped && r.alarms == [] && r.fired == s.fired && r.uptimeNs == s.uptimeNs
  {
    var a := Act(s, BeginShutdown);
    var b := Act(a, FinishShutdown);
    assert Run(b, Done) == b && Run(a, Then(FinishShutdown, Done)) == Run(b, Done);
  }
}
