/** An alarm that its callback re-arms at a fixed period. */
module AlarmPeriodic {
  import opened Int64
  import opened AlarmQueue
  import opened AlarmDelivery
  import opened AlarmTheorems

  /** The callback of an alarm due at `d` that re-arms itself `p` later, `n` more times. */
  function Periodic(d: int, p: nat, n: nat): Script
    decreases n
  {
    if n == 0 then Done else Then(Schedule(d + p, Periodic(d + p, p, n - 1)), Done)
  }

  /** How many of `d, d + p, ...` (at most `n + 1` of them) lie within the limit. */
  function FireCount(d: int, p: nat, n: nat, limitUs: int): nat
    requires p > 0
    decreases n
  {
    if limitUs < d then 0
    else if n == 0 then 1
    else 1 + FireCount(d + p, p, n - 1, limitUs)
  }

  /** `FireCount` in closed form: with enough re-arms left it is the number of multiples. */
  lemma {:induction false} FireCountIs(d: int, p: nat, n: nat, limitUs: int)
    requires p > 0
    ensures FireCount(d, p, n, limitUs) <= n + 1
    ensures forall i: nat :: i < FireCount(d, p, n, limitUs) ==> d + i * p <= limitUs
    ensures FireCount(d, p, n, limitUs) <= n ==> limitUs < d + FireCount(d, p, n, limitUs) * p
    decreases n
  {
    if d <= limitUs && n > 0 {
      FireCountIs(d + p, p, n - 1, limitUs);
      var m := FireCount(d + p, p, n - 1, limitUs);
      forall i: nat | i < m + 1 ensures d + i * p <= limitUs {
        if i > 0 {
          assert (d + p) + (i - 1) * p <= limitUs;
          assert (d + p) + (i - 1) * p == d + i * p by { Shift(d, p, i - 1); }
        }
      }
      Shift(d, p, m);
    }
  }

  lemma Shift(d: int, p: nat, i: nat)
    ensures (d + p) + i * p == d + (i + 1) * p
  {
  }

  /** The firings at `d, d + p, ...`: the first has the registered id, the others fresh ones. */
  ghost function PeriodicFirings(id: nat, next: nat, d: int, p: nat, m: nat): (f: seq<Firing>)
    ensures |f| == m
  {
    seq(m, i requires 0 <= i < m =>
      Firing(if i == 0 then id else (next + i - 1) % UINT64_SPAN, d + i * p, (d + i * p) * NANOS_PER_MICRO))
  }

  lemma PeriodicFiringsTail(id: nat, next: nat, d: int, p: nat, m: nat)
    requires next < UINT64_SPAN
    ensures PeriodicFirings(id, next, d, p, m + 1)
         == [Firing(id, d, d * NANOS_PER_MICRO)] + PeriodicFirings(next, NextId(next), d + p, p, m)
  {
    var f := PeriodicFirings(id, next, d, p, m + 1);
    var g := PeriodicFirings(next, NextId(next), d + p, p, m);
    forall i | 0 < i < m + 1 ensures f[i] == g[i - 1] {
      Shift(d, p, i - 1);
    }
  }

  ghost predicate FiredPeriodically(s: Time, r: Time, limitNs: int, d: int, p: nat, n: nat)
    requires |s.alarms| == 1 && 0 < p
  {
    var m := FireCount(d, p, n, limitNs / NANOS_PER_MICRO);
    && r.fired == s.fired + PeriodicFirings(s.alarms[0].id, s.nextId, d, p, m)
    && r.uptimeNs == limitNs && !r.active
    && (m <= n ==> |r.alarms| == 1 && r.alarms[0].deadline == d + m * p)
    && (m == n + 1 ==> r.alarms == [])
  }

  /** Exact periodic firing: a drain to the limit over one alarm, first due strictly ahead at `d`
      and re-armed every `p` microseconds, invokes it once at each `d, d + p, ...` within the
      limit, each time at exactly that uptime, and ends at the limit. */
  lemma {:induction false} FiresPeriodically(s: Time, limitNs: int, d: int, p: nat, n: nat)
    requires Good(s) && s.active && !s.aborted && 0 < p
    requires |s.alarms| == 1 && s.alarms[0].deadline == d && s.alarms[0].payload == Periodic(d, p, n)
    requires s.uptimeNs < d * NANOS_PER_MICRO && s.uptimeNs <= limitNs <= s.reservedNs
    ensures Drain(s, limitNs, true).aborted || FiredPeriodically(s, Drain(s, limitNs, true), limitNs, d, p, n)
    decreases n, 1
  {
    if limitNs < d * NANOS_PER_MICRO {
      PeriodicRests(s, limitNs, d, p, n);
    } else {
      PeriodicClaims(s, limitNs, d);
      if n == 0 {
        LastFiring(s, Fired(s, d), limitNs, d, p);
      } else {
        FiresAgain(s, limitNs, d, p, n);
      }
    }
  }

  lemma {:induction false} FiresAgain(s: Time, limitNs: int, d: int, p: nat, n: nat)
    requires |s.alarms| == 1 && Good(Fired(s, d)) && s.active && !s.aborted && 0 < p && 0 < n && s.nextId < UINT64_SPAN
    requires d * NANOS_PER_MICRO <= limitNs <= s.reservedNs
    ensures var r := Drain(Run(Fired(s, d), Periodic(d, p, n)), limitNs, true);
            r.aborted || FiredPeriodically(s, r, limitNs, d, p, n)
    decreases n, 0
  {
    var c := Fired(s, d);
    Rearms(c, d, p, n);
    var t := Run(c, Periodic(d, p, n));
    if t.aborted {
      assert Drain(t, limitNs, true) == t;
    } else {
      FiresPeriodically(t, limitNs, d + p, p, n - 1);
      if !Drain(t, limitNs, true).aborted { PeriodicStep(s, t, Drain(t, limitNs, true), limitNs, d, p, n); }
    }
  }

  /** The state after the only alarm, due at `d`, was claimed at its deadline. */
  function Fired(s: Time, d: int): Time
    requires |s.alarms| == 1
  {
    var now := d * NANOS_PER_MICRO;
    s.(uptimeNs := now, alarms := [], fired := s.fired + [Firing(s.alarms[0].id, d, now)])
  }

  lemma PeriodicClaims(s: Time, limitNs: int, d: int)
    requires Good(s) && s.active && !s.aborted && |s.alarms| == 1 && s.alarms[0].deadline == d
    requires s.uptimeNs < d * NANOS_PER_MICRO <= limitNs <= s.reservedNs
    ensures Good(Fired(s, d))
    ensures Drain(s, limitNs, true) == Drain(Run(Fired(s, d), s.alarms[0].payload), limitNs, true)
  {
    var now := Advance(s, limitNs, true);
    AdvanceKeeps(s, limitNs, true);
    ClaimIsGood(now);
    assert Claim(now) == Fired(s, d);
  }

  lemma PeriodicRests(s: Time, limitNs: int, d: int, p: nat, n: nat)
    requires Good(s) && s.active && !s.aborted && |s.alarms| == 1 && s.alarms[0].deadline == d
    requires s.uptimeNs <= limitNs < d * NANOS_PER_MICRO && 0 < p
    ensures FiredPeriodically(s, Drain(s, limitNs, true), limitNs, d, p, n)
  {
    assert Drain(s, limitNs, true) == s.(uptimeNs := limitNs, active := false);
    assert FireCount(d, p, n, limitNs / NANOS_PER_MICRO) == 0;
    assert s.fired + PeriodicFirings(s.alarms[0].id, s.nextId, d, p, 0) == s.fired;
  }

  /** The state after a claimed periodic alarm re-armed itself. */
  function Rearmed(c: Time, d: int, p: nat, n: nat): Time
    requires n > 0
  {
    c.(alarms := [Entry(d + p, c.nextId, Periodic(d + p, p, n - 1))], nextId := NextId(c.nextId))
  }

  lemma Rearms(c: Time, d: int, p: nat, n: nat)
    requires Good(c) && c.active && !c.aborted && c.alarms == [] && n > 0
    ensures var r := Run(c, Periodic(d, p, n));
      && (r.aborted || (r == Rearmed(c, d, p, n) && Good(r)))
      && (r.aborted <==> !(MIN_ALARM_US <= d + p <= MAX_ALARM_US) || c.nextId == 0)
  {
    var a := Schedule(d + p, Periodic(d + p, p, n - 1));
    RunOne(c, a);
    ActKeeps(c, a);
    InsertFirst(Entry(d + p, c.nextId, Periodic(d + p, p, n - 1)));
  }

  lemma InsertFirst(e: Alarm)
    ensures Insert([], e) == [e]
  {
  }

  lemma RunOne(s: Time, a: Action)
    requires !s.aborted
    ensures Run(s, Then(a, Done)) == Act(s, a)
  {
  }

  lemma LastFiring(s: Time, c: Time, limitNs: int, d: int, p: nat)
    requires |s.alarms| == 1 && 0 < p && !c.aborted && d <= limitNs / NANOS_PER_MICRO
    requires c.alarms == [] && c.uptimeNs <= limitNs
    requires c.fired == s.fired + [Firing(s.alarms[0].id, d, d * NANOS_PER_MICRO)]
    ensures FiredPeriodically(s, Drain(Run(c, Done), limitNs, true), limitNs, d, p, 0)
  {
    assert [Firing(s.alarms[0].id, d, d * NANOS_PER_MICRO)] == PeriodicFirings(s.alarms[0].id, s.nextId, d, p, 1);
  }

  lemma PeriodicStep(s: Time, t: Time, r: Time, limitNs: int, d: int, p: nat, n: nat)
    requires 0 < p && 0 < n && d <= limitNs / NANOS_PER_MICRO
    requires |s.alarms| == 1 && |t.alarms| == 1 && t.alarms[0].id == s.nextId < UINT64_SPAN
    requires t.nextId == NextId(s.nextId)
    requires t.fired == s.fired + [Firing(s.alarms[0].id, d, d * NANOS_PER_MICRO)]
    requires FiredPeriodically(t, r, limitNs, d + p, p, n - 1)
    ensures FiredPeriodically(s, r, limitNs, d, p, n)
  {
    var m := FireCount(d + p, p, n - 1, limitNs / NANOS_PER_MICRO);
    Shift(d, p, m);
    PeriodicFiringsTail(s.alarms[0].id, s.nextId, d, p, m);
    var first := [Firing(s.alarms[0].id, d, d * NANOS_PER_MICRO)];
    var later := PeriodicFirings(s.nextId, t.nextId, d + p, p, m);
    assert s.fired + first + later == s.fired + (first + later);
  }

  /** How many times the callback re-arms the alarm on the way to the limit. */
  function RearmCount(d: int, p: nat, n: nat, limitUs: int): nat
    requires p > 0
  {
    if FireCount(d, p, n, limitUs) < n then FireCount(d, p, n, limitUs) else n
  }

  /** Ids and representable deadlines last for so many re-arms. */
  predicate CanRearm(nextId: nat, d: int, p: nat, count: nat) {
    count == 0 || (0 < nextId && nextId + count <= UINT64_SPAN && d + count * p <= MAX_ALARM_US)
  }

  lemma RearmOnce(nextId: nat, d: int, p: nat, count: nat)
    requires nextId < UINT64_SPAN && 0 < p && 0 < count
    ensures CanRearm(nextId, d, p, count)
       <==> nextId != 0 && d + p <= MAX_ALARM_US && CanRearm(NextId(nextId), d + p, p, count - 1)
  {
    Shift(d, p, count - 1);
    assert 0 <= (count - 1) * p;
    if count > 1 { assert p <= (count - 1) * p; }
  }

  /** The drain aborts exactly when ids or representable deadlines do not last for the re-arms that
      the callback makes on the way to the limit. */
  lemma {:induction false} PeriodicCompletesIff(s: Time, limitNs: int, d: int, p: nat, n: nat)
    requires Good(s) && s.active && !s.aborted && 0 < p
    requires |s.alarms| == 1 && s.alarms[0].deadline == d && s.alarms[0].payload == Periodic(d, p, n)
    requires s.uptimeNs < d * NANOS_PER_MICRO && s.uptimeNs <= limitNs <= s.reservedNs
    ensures !Drain(s, limitNs, true).aborted
       <==> CanRearm(s.nextId, d, p, RearmCount(d, p, n, limitNs / NANOS_PER_MICRO))
    decreases n, 1
  {
    if limitNs < d * NANOS_PER_MICRO {
      PeriodicRests(s, limitNs, d, p, n);
    } else {
      PeriodicClaims(s, limitNs, d);
      if n == 0 {
        LastFiring(s, Fired(s, d), limitNs, d, p);
      } else {
        CompletesAgainIff(s, limitNs, d, p, n);
      }
    }
  }

  lemma {:induction false} CompletesAgainIff(s: Time, limitNs: int, d: int, p: nat, n: nat)
    requires |s.alarms| == 1 && Good(Fired(s, d)) && s.active && !s.aborted && 0 < p && 0 < n
    requires MIN_ALARM_US <= d && d * NANOS_PER_MICRO <= limitNs <= s.reservedNs
    ensures !Drain(Run(Fired(s, d), Periodic(d, p, n)), limitNs, true).aborted
       <==> CanRearm(s.nextId, d, p, RearmCount(d, p, n, limitNs / NANOS_PER_MICRO))
    decreases n, 0
  {
    var c, limitUs := Fired(s, d), limitNs / NANOS_PER_MICRO;
    assert RearmCount(d, p, n, limitUs) == 1 + RearmCount(d + p, p, n - 1, limitUs);
    RearmOnce(s.nextId, d, p, RearmCount(d, p, n, limitUs));
    Rearms(c, d, p, n);
    var t := Run(c, Periodic(d, p, n));
    if t.aborted {
      assert Drain(t, limitNs, true) == t;
    } else {
      PeriodicCompletesIff(t, limitNs, d + p, p, n - 1);
    }
  }

  // ---------- Delays made at the top level ----------

  /** Every delay over one alarm first due strictly ahead and re-armed every `p` microseconds fires
      it once at each `d, d + p, ...` up to its target; it aborts exactly when ids or representable
      deadlines run out before. */
  lemma DelayFiresPeriodically(s: Time, us: nat, d: int, p: nat, n: nat)
    requires CanDelay(s, us) && 0 < p
    requires |s.alarms| == 1 && s.alarms[0].deadline == d && s.alarms[0].payload == Periodic(d, p, n)
    requires s.uptimeNs < d * NANOS_PER_MICRO
    ensures var r, count := Act(s, Delay(us)), RearmCount(d, p, n, Target(s, us) / NANOS_PER_MICRO);
      if CanRearm(s.nextId, d, p, count) then !r.aborted && FiredPeriodically(s, r, Target(s, us), d, p, n)
      else r.aborted
  {
    ReserveIsGood(s, us);
    DelayIsDrain(s, us);
    ReservedFires(s, Reserved(s, us), Target(s, us), d, p, n);
  }

  lemma ReservedFires(s: Time, t: Time, limitNs: int, d: int, p: nat, n: nat)
    requires Good(t) && t.active && !t.aborted && 0 < p && t.uptimeNs <= limitNs <= t.reservedNs
    requires |t.alarms| == 1 && t.alarms[0].deadline == d && t.alarms[0].payload == Periodic(d, p, n)
    requires t.uptimeNs < d * NANOS_PER_MICRO
    requires s.alarms == t.alarms && s.nextId == t.nextId && s.fired == t.fired
    ensures var r, count := Drain(t, limitNs, true), RearmCount(d, p, n, limitNs / NANOS_PER_MICRO);
      if CanRearm(s.nextId, d, p, count) then !r.aborted && FiredPeriodically(s, r, limitNs, d, p, n)
      else r.aborted
  {
    FiresPeriodically(t, limitNs, d, p, n);
    PeriodicCompletesIff(t, limitNs, d, p, n);
  }
}
