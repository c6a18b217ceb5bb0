/** Reservation accounting over every interleaving of the alarm service. */
module AlarmReservations {
  import opened Int64
  import opened AlarmProtocol

  /** The durations of the first `k` delays, in reservation order. */
  function SumTo(d: seq<Delay>, k: nat): nat
    requires k <= |d|
  {
    if k == 0 then 0 else SumTo(d, k - 1) + d[k - 1].durationNs
  }

  lemma {:induction false} SumToSame(d: seq<Delay>, e: seq<Delay>, k: nat)
    requires k <= |d| && k <= |e| && forall i :: 0 <= i < k ==> d[i].durationNs == e[i].durationNs
    ensures SumTo(d, k) == SumTo(e, k)
  {
    if k > 0 { SumToSame(d, e, k - 1); }
  }

  predicate DelayFits(s: State, k: nat)
    requires k < |s.delays|
  {
    var d := s.delays[k];
    && SumTo(s.delays, k + 1) <= d.targetNs <= s.reservedNs
    && (k + 1 < |s.delays| ==> d.targetNs <= s.delays[k + 1].targetNs)
    && (d.completed ==> d.targetNs <= s.uptimeNs)
  }

  predicate FrameFits(s: State, f: Frame) {
    match f
    case Entering(l, a, k) => LimitFits(s, l, a, k)
    case Draining(l, a, k) => LimitFits(s, l, a, k)
    case Releasing(k) => k < |s.delays| && (k >= 0 ==> s.delays[k].targetNs <= s.uptimeNs)
    case _ => true
  }

  predicate LimitFits(s: State, limitNs: int, advance: bool, ticket: int) {
    && limitNs <= INT64_MAX
    && (advance ==> limitNs <= s.reservedNs)
    && ticket < |s.delays|
    && (ticket >= 0 ==> advance && s.delays[ticket].targetNs == limitNs)
  }

  ghost predicate StackFits(s: State, st: seq<Frame>) {
    forall i :: 0 <= i < |st| ==> FrameFits(s, st[i])
  }

  ghost predicate ClockFits(s: State) {
    && 0 <= s.uptimeNs <= INT64_MAX
    && 0 <= s.reservedNs <= INT64_MAX
    && (!s.autoSync ==> s.uptimeNs <= s.reservedNs)
  }

  ghost predicate DelaysFit(s: State) {
    && SumTo(s.delays, |s.delays|) <= s.reservedNs
    && forall k :: 0 <= k < |s.delays| ==> DelayFits(s, k)
  }

  ghost predicate ResInv(s: State) {
    ClockFits(s) && DelaysFit(s) && forall t :: StackFits(s, Stack(s, t))
  }

  /** Clocks only grow, and reserved targets stay as they are. */
  ghost predicate Grows(s: State, r: State) {
    && s.uptimeNs <= r.uptimeNs
    && s.reservedNs <= r.reservedNs
    && |s.delays| <= |r.delays|
    && forall k :: 0 <= k < |s.delays| ==> r.delays[k].targetNs == s.delays[k].targetNs
  }

  lemma StackStays(s: State, r: State, st: seq<Frame>)
    requires StackFits(s, st) && Grows(s, r)
    ensures StackFits(r, st)
  {
    forall i | 0 <= i < |st| ensures FrameFits(r, st[i]) {
      assert FrameFits(s, st[i]);
    }
  }

  /** The stacks of a step that pops, pushes or replaces a frame of `t`. */
  ghost predicate StacksFrom(s: State, r: State, t: nat) {
    && (forall u :: u != t ==> Stack(r, u) == Stack(s, u) || Stack(r, u) == [WorkerLoop])
    && (forall i :: 0 <= i < |Stack(r, t)| ==>
          (i < |Stack(s, t)| && Stack(r, t)[i] == Stack(s, t)[i]) || FrameFits(r, Stack(r, t)[i]))
  }

  lemma PushFrom(s: State, r: State, t: nat, f: Frame)
    requires r.threads == s.threads[t := Stack(s, t) + [f]] && FrameFits(r, f)
    ensures StacksFrom(s, r, t)
  {
  }

  lemma PopFrom(s: State, r: State, t: nat)
    requires |Stack(s, t)| > 0 && r.threads == s.threads[t := Stack(s, t)[..|Stack(s, t)| - 1]]
    ensures StacksFrom(s, r, t)
  {
  }

  lemma ReplaceFrom(s: State, r: State, t: nat, f: Frame)
    requires |Stack(s, t)| > 0 && r.threads == s.threads[t := Stack(s, t)[..|Stack(s, t)| - 1] + [f]] && FrameFits(r, f)
    ensures StacksFrom(s, r, t)
  {
  }

  lemma StacksKeep(s: State, r: State, t: nat)
    requires ResInv(s) && Grows(s, r) && StacksFrom(s, r, t) && ClockFits(r) && DelaysFit(r)
    ensures ResInv(r)
  {
    forall u ensures StackFits(r, Stack(r, u)) {
      StackStays(s, r, Stack(s, u));
      if u == t {
        forall i | 0 <= i < |Stack(r, t)| ensures FrameFits(r, Stack(r, t)[i]) {
          assert i < |Stack(s, t)| && Stack(r, t)[i] == Stack(s, t)[i] ==> FrameFits(r, Stack(s, t)[i]);
        }
      }
    }
  }

  /** Only the clocks changed. */
  lemma DelaysStay(s: State, r: State)
    requires ResInv(s) && Grows(s, r) && r.delays == s.delays
    ensures DelaysFit(r)
  {
    forall k | 0 <= k < |r.delays| ensures DelayFits(r, k) { assert DelayFits(s, k); }
  }

  lemma DelayKeeps(s: State, t: nat, us: nat)
    requires ResInv(s) && CallEnabled(s, t, DelayFor(us))
    ensures ResInv(DoDelay(s, t, us)) && Grows(s, DoDelay(s, t, us))
  {
    var r, n := DoDelay(s, t, us), |s.delays|;
    SumToSame(s.delays, r.delays, n);
    forall k | 0 <= k < |r.delays| ensures DelayFits(r, k) {
      if k < n {
        assert DelayFits(s, k);
        SumToSame(s.delays, r.delays, k + 1);
      }
    }
    StacksKeep(s, r, t);
  }

  lemma ScheduleKeeps(s: State, t: nat, deadlineUs: int)
    requires ResInv(s) && CallEnabled(s, t, Schedule(deadlineUs))
    ensures ResInv(DoSchedule(s, t, deadlineUs)) && Grows(s, DoSchedule(s, t, deadlineUs))
  {
    var r := DoSchedule(s, t, deadlineUs);
    if s.autoSync && !s.workerStarted {
      var m := s.(threads := s.threads[WORKER := [WorkerLoop]]);
      assert StacksFrom(s, m, WORKER);
      FrameOnly(s, m, WORKER);
      PushFrom(m, r, t, NotifyOwed);
      FrameOnly(m, r, t);
    } else {
      PushFrom(s, r, t, NotifyOwed);
      FrameOnly(s, r, t);
    }
  }

  lemma LagKeeps(s: State, t: nat, ns: nat, hostNs: int)
    requires ResInv(s) && CallEnabled(s, t, Lag(ns, hostNs))
    ensures ResInv(DoLag(s, t, ns, hostNs)) && Grows(s, DoLag(s, t, ns, hostNs))
  {
    var r := DoLag(s, t, ns, hostNs);
    DelaysStay(s, r);
    PushFrom(s, r, t, NotifyOwed);
    StacksKeep(s, r, t);
  }

  lemma CallKeeps(s: State, t: nat, op: Op)
    requires ResInv(s) && CallEnabled(s, t, op)
    ensures ResInv(CallStep(s, t, op)) && Grows(s, CallStep(s, t, op))
  {
    match op
    case DelayFor(us) => DelayKeeps(s, t, us);
    case Schedule(d) => ScheduleKeeps(s, t, d);
    case Lag(ns, hostNs) => LagKeeps(s, t, ns, hostNs);
    case _ =>
      var r := CallStep(s, t, op);
      if r != s {
        PushFrom(s, r, t, Top(Stack(r, t)));
        FrameOnly(s, r, t);
      }
  }

  lemma CompleteKeeps(s: State, ticket: int)
    requires ResInv(s) && ticket < |s.delays| && (ticket >= 0 ==> s.delays[ticket].targetNs <= s.uptimeNs)
    ensures ResInv(Complete(s, ticket)) && Grows(s, Complete(s, ticket))
  {
    var r := Complete(s, ticket);
    SumToSame(s.delays, r.delays, |s.delays|);
    forall k | 0 <= k < |r.delays| ensures DelayFits(r, k) {
      assert DelayFits(s, k);
      SumToSame(s.delays, r.delays, k + 1);
    }
    StacksKeep(s, r, 0);
  }

  /** Raising the uptime to something reserved. */
  lemma RaiseKeeps(s: State, uptimeNs: int)
    requires ResInv(s) && s.uptimeNs <= uptimeNs <= INT64_MAX && (s.autoSync || uptimeNs <= s.reservedNs)
    ensures ResInv(s.(uptimeNs := uptimeNs)) && Grows(s, s.(uptimeNs := uptimeNs))
  {
    var r := s.(uptimeNs := uptimeNs);
    DelaysStay(s, r);
    StacksKeep(s, r, 0);
  }

  /** A step that touches neither clocks nor delays, only the top of one stack. */
  lemma FrameOnly(s: State, r: State, t: nat)
    requires ResInv(s) && StacksFrom(s, r, t) && r.delays == s.delays && r.autoSync == s.autoSync
    requires r.uptimeNs == s.uptimeNs && r.reservedNs == s.reservedNs
    ensures ResInv(r) && Grows(s, r)
  {
    DelaysStay(s, r);
    StacksKeep(s, r, t);
  }

  lemma EnterKeeps(s: State, t: nat)
    requires ResInv(s) && |Stack(s, t)| > 0 && Top(Stack(s, t)).Entering?
    ensures ResInv(EnterStep(s, t)) && Grows(s, EnterStep(s, t))
  {
    var f := Top(Stack(s, t));
    assert FrameFits(s, f);
    if s.service.Running? && s.active {
      var up := if f.advance then s.(uptimeNs := Max(s.uptimeNs, f.limitNs)) else s;
      RaiseKeeps(s, up.uptimeNs);
      CompleteKeeps(up, f.ticket);
      var r := Complete(up, f.ticket);
      PopFrom(r, Pop(r, t), t);
      FrameOnly(r, Pop(r, t), t);
    } else if s.service.Running? {
      ReplaceFrom(s, EnterStep(s, t), t, Draining(f.limitNs, f.advance, f.ticket));
      FrameOnly(s, EnterStep(s, t), t);
    } else {
      PopFrom(s, Pop(s, t), t);
      FrameOnly(s, Pop(s, t), t);
    }
  }

  /** The time movement of one drain iteration, and why a drain that finds no due work has
      reached its limit. */
  lemma AdvanceKeeps(s: State, limitNs: int, advance: bool, hostNs: int)
    requires ResInv(s) && limitNs <= INT64_MAX && (advance ==> limitNs <= s.reservedNs)
    ensures var now := Advance(s, limitNs, advance, hostNs);
            && ResInv(now) && Grows(s, now) && now == s.(uptimeNs := now.uptimeNs)
            && (advance && !HeadDue(now) ==> limitNs <= now.uptimeNs)
  {
    var now := Advance(s, limitNs, advance, hostNs);
    RaiseKeeps(s, now.uptimeNs);
  }

  lemma DrainKeeps(s: State, t: nat, hostNs: int)
    requires ResInv(s) && |Stack(s, t)| > 0 && Top(Stack(s, t)).Draining?
    ensures ResInv(DrainStep(s, t, hostNs)) && Grows(s, DrainStep(s, t, hostNs))
  {
    var f := Top(Stack(s, t));
    assert FrameFits(s, f);
    AdvanceKeeps(s, f.limitNs, f.advance, hostNs);
    var now := Advance(s, f.limitNs, f.advance, hostNs);
    var r := DrainStep(s, t, hostNs);
    if HeadDue(now) {
      PushFrom(now, r, t, ClaimNotify(now.alarms[0].id));
    } else {
      ReplaceFrom(now, r, t, Releasing(f.ticket));
    }
    FrameOnly(now, r, t);
  }

  lemma ReleaseKeeps(s: State, t: nat)
    requires ResInv(s) && |Stack(s, t)| > 0 && Top(Stack(s, t)).Releasing?
    ensures ResInv(ReleaseStep(s, t)) && Grows(s, ReleaseStep(s, t))
  {
    var f := Top(Stack(s, t));
    assert FrameFits(s, f);
    var m := s.(active := false);
    FrameOnly(s, m, t);
    CompleteKeeps(m, f.ticket);
    var c := Complete(m, f.ticket);
    ReplaceFrom(c, Replace(c, t, NotifyOwed), t, NotifyOwed);
    FrameOnly(c, Replace(c, t, NotifyOwed), t);
  }

  /** Steps of the remaining frames: they push, pop or replace frames without a limit. */
  lemma PlainMove(s: State, t: nat, hostNs: int)
    requires ResInv(s) && MoveEnabled(s, t)
    requires var f := Top(Stack(s, t)); !f.Entering? && !f.Draining? && !f.Releasing?
    ensures ResInv(MoveStep(s, t, hostNs)) && Grows(s, MoveStep(s, t, hostNs))
  {
    var r, f := MoveStep(s, t, hostNs), Top(Stack(s, t));
    if Owing(f) {
      if f.NotifyOwed? { PopFrom(s, r, t); } else { ReplaceFrom(s, r, t, InCallback(f.id)); }
    } else if f.PumpChecked? {
      ReplaceFrom(s, r, t, Entering(s.uptimeNs, false, -1));
    } else if f.InCallback? || f.Joining? {
      PopFrom(s, r, t);
    } else {
      WorkerFrom(s, t);
    }
    FrameOnly(s, r, t);
  }

  lemma WorkerFrom(s: State, t: nat)
    requires |Stack(s, t)| > 0 && (Top(Stack(s, t)).WorkerLoop? || Top(Stack(s, t)).WorkerCheck?)
    ensures StacksFrom(s, WorkerStep(s, t), t)
  {
  }

  lemma MoveKeeps(s: State, t: nat, hostNs: int)
    requires ResInv(s) && MoveEnabled(s, t)
    ensures ResInv(MoveStep(s, t, hostNs)) && Grows(s, MoveStep(s, t, hostNs))
  {
    var f := Top(Stack(s, t));
    if f.Entering? { EnterKeeps(s, t); }
    else if f.Draining? { DrainKeeps(s, t, hostNs); }
    else if f.Releasing? { ReleaseKeeps(s, t); }
    else { PlainMove(s, t, hostNs); }
  }

  lemma StepKeeps(s: State, e: Event)
    requires ResInv(s) && Enabled(s, e)
    ensures ResInv(Step(s, e)) && Grows(s, Step(s, e))
  {
    match e
    case Call(t, op) => CallKeeps(s, t, op);
    case Move(t, hostNs) => MoveKeeps(s, t, hostNs);
    case Wake(t) => FrameOnly(s, Step(s, e), t);
    case HostTime(uptimeNs) => RaiseKeeps(s, uptimeNs);
  }

  lemma PowerOnReserved(autoSync: bool)
    ensures ResInv(PowerOn(autoSync))
  {
  }

  lemma {:induction false} RunKeeps(s: State, run: seq<Event>)
    requires ResInv(s) && Runs(s, run)
    ensures ResInv(After(s, run)) && Grows(s, After(s, run))
    decreases |run|
  {
    if |run| > 0 {
      StepKeeps(s, run[0]);
      RunKeeps(Step(s, run[0]), run[1..]);
    }
  }

  /** The durations of the completed delays among the first `n`. */
  function CompletedTo(d: seq<Delay>, n: nat): nat
    requires n <= |d|
  {
    if n == 0 then 0 else CompletedTo(d, n - 1) + if d[n - 1].completed then d[n - 1].durationNs else 0
  }

  lemma {:induction false} CompletedAtMost(d: seq<Delay>, n: nat)
    requires n <= |d|
    ensures CompletedTo(d, n) <= SumTo(d, n)
  {
    if n > 0 { CompletedAtMost(d, n - 1); }
  }

  /** Reservation accounting: whatever delays, owned or concurrent, have completed while the
      service was running, the uptime has covered the sum of all their durations. */
  lemma {:induction false} CompletedDelaysElapsed(s: State, n: nat)
    requires ResInv(s) && n <= |s.delays|
    ensures CompletedTo(s.delays, n) <= s.uptimeNs
  {
    if n > 0 {
      assert DelayFits(s, n - 1);
      if s.delays[n - 1].completed {
        CompletedAtMost(s.delays, n);
      } else {
        CompletedDelaysElapsed(s, n - 1);
      }
    }
  }

  // ---------- Delays from any point of a run ----------

  /** What the next delay is added to. */
  function Base(s: State): int {
    Max(s.uptimeNs, s.reservedNs)
  }

  /** Delays reserved since `s` follow one another: each target lies beyond the base of `s` by the
      durations of all delays reserved since, up to its own. */
  ghost predicate AddsUp(s: State, r: State) {
    var m, n := |s.delays|, |r.delays|;
    && m <= n
    && (forall k :: 0 <= k < m ==> r.delays[k].durationNs == s.delays[k].durationNs)
    && Base(s) + SumTo(r.delays, n) - SumTo(r.delays, m) <= Base(r)
    && forall k :: m <= k < n ==> Base(s) + SumTo(r.delays, k + 1) - SumTo(r.delays, m) <= r.delays[k].targetNs
  }

  ghost predicate SameDurations(s: State, r: State) {
    |r.delays| == |s.delays| && forall k :: 0 <= k < |s.delays| ==> r.delays[k].durationNs == s.delays[k].durationNs
  }

  lemma DrainReservesNothing(s: State, t: nat, hostNs: int)
    requires |Stack(s, t)| > 0 && Top(Stack(s, t)).Draining?
    ensures DrainStep(s, t, hostNs).delays == s.delays
  {
    var f := Top(Stack(s, t));
    var now := Advance(s, f.limitNs, f.advance, hostNs);
    assert now.delays == s.delays;
  }

  lemma EnterReservesNothing(s: State, t: nat)
    requires |Stack(s, t)| > 0 && Top(Stack(s, t)).Entering?
    ensures SameDurations(s, EnterStep(s, t))
  {
  }

  lemma ReleaseReservesNothing(s: State, t: nat)
    requires |Stack(s, t)| > 0 && Top(Stack(s, t)).Releasing?
    ensures SameDurations(s, ReleaseStep(s, t))
  {
  }

  lemma WorkerReservesNothing(s: State, t: nat)
    requires |Stack(s, t)| > 0 && (Top(Stack(s, t)).WorkerLoop? || Top(Stack(s, t)).WorkerCheck?)
    ensures WorkerStep(s, t).delays == s.delays
  {
  }

  lemma MoveReservesNothing(s: State, t: nat, hostNs: int)
    requires MoveEnabled(s, t)
    ensures SameDurations(s, MoveStep(s, t, hostNs))
  {
    match Top(Stack(s, t))
    case Draining(_, _, _) => DrainReservesNothing(s, t, hostNs);
    case Entering(_, _, _) => EnterReservesNothing(s, t);
    case Releasing(_) => ReleaseReservesNothing(s, t);
    case WorkerLoop => WorkerReservesNothing(s, t);
    case WorkerCheck(_, _, _) => WorkerReservesNothing(s, t);
    case NotifyOwed =>
    case ClaimNotify(_) =>
    case PumpChecked =>
    case InCallback(_) =>
    case Joining =>
  }

  lemma CallReserves(s: State, t: nat, op: Op)
    requires CallEnabled(s, t, op)
    ensures op.DelayFor? || CallStep(s, t, op).delays == s.delays
  {
  }

  lemma SameDurationsAddUp(s: State, r: State)
    requires Grows(s, r) && SameDurations(s, r)
    ensures AddsUp(s, r)
  {
  }

  lemma DelayAddsUp(s: State, t: nat, us: nat)
    ensures AddsUp(s, DoDelay(s, t, us))
  {
  }

  lemma StepAddsUp(s: State, e: Event)
    requires ResInv(s) && Enabled(s, e)
    ensures AddsUp(s, Step(s, e))
  {
    StepKeeps(s, e);
    match e
    case Call(t, op) =>
      if op.DelayFor? {
        DelayAddsUp(s, t, op.us);
      } else {
        CallReserves(s, t, op);
        SameDurationsAddUp(s, Step(s, e));
      }
    case Move(t, hostNs) =>
      MoveReservesNothing(s, t, hostNs);
      SameDurationsAddUp(s, Step(s, e));
    case Wake(_) => SameDurationsAddUp(s, Step(s, e));
    case HostTime(_) => SameDurationsAddUp(s, Step(s, e));
  }

  lemma AddsUpTransitive(s: State, m: State, r: State)
    requires AddsUp(s, m) && AddsUp(m, r) && Grows(m, r)
    ensures AddsUp(s, r)
  {
    SumToSame(m.delays, r.delays, |s.delays|);
    SumToSame(m.delays, r.delays, |m.delays|);
    forall k | |s.delays| <= k < |r.delays|
      ensures Base(s) + SumTo(r.delays, k + 1) - SumTo(r.delays, |s.delays|) <= r.delays[k].targetNs
    {
      if k < |m.delays| { SumToSame(m.delays, r.delays, k + 1); }
    }
  }

  lemma {:induction false} RunAddsUp(s: State, run: seq<Event>)
    requires ResInv(s) && Runs(s, run)
    ensures AddsUp(s, After(s, run))
    decreases |run|
  {
    if |run| > 0 {
      var m := Step(s, run[0]);
      StepKeeps(s, run[0]);
      StepAddsUp(s, run[0]);
      RunAddsUp(m, run[1..]);
      RunKeeps(m, run[1..]);
      AddsUpTransitive(s, m, After(s, run));
    }
  }

  lemma {:induction false} CompletedBetween(d: seq<Delay>, m: nat, n: nat)
    requires m <= n <= |d|
    ensures CompletedTo(d, m) <= CompletedTo(d, n)
    ensures CompletedTo(d, n) - CompletedTo(d, m) <= SumTo(d, n) - SumTo(d, m)
  {
    if m < n { CompletedBetween(d, m, n - 1); }
  }

  /** From any point of any run: the uptime is at least the uptime at that point plus the
      durations of all delays that were reserved since and have completed. */
  lemma DelaysElapseSince(s: State, run: seq<Event>, n: nat)
    requires ResInv(s) && Runs(s, run) && |s.delays| <= n <= |After(s, run).delays|
    ensures var r := After(s, run);
      && |s.delays| <= |r.delays|
      && s.uptimeNs + CompletedTo(r.delays, n) - CompletedTo(r.delays, |s.delays|) <= r.uptimeNs
  {
    RunKeeps(s, run);
    RunAddsUp(s, run);
    CompletedSince(s, After(s, run), n);
  }

  lemma {:induction false} CompletedSince(s: State, r: State, n: nat)
    requires ResInv(r) && Grows(s, r) && AddsUp(s, r) && |s.delays| <= n <= |r.delays|
    ensures s.uptimeNs + CompletedTo(r.delays, n) - CompletedTo(r.delays, |s.delays|) <= r.uptimeNs
    decreases n
  {
    if n > |s.delays| {
      assert DelayFits(r, n - 1);
      if r.delays[n - 1].completed {
        CompletedBetween(r.delays, |s.delays|, n);
      } else {
        CompletedSince(s, r, n - 1);
      }
    }
  }

  // ---------- The delays are the calls ----------

  /** The delays that a run calls for, in order. */
  function DelayCalls(run: seq<Event>): seq<nat> {
    if |run| == 0 then []
    else (if run[0].Call? && run[0].op.DelayFor? then [run[0].op.us] else []) + DelayCalls(run[1..])
  }

  lemma StepReserves(s: State, e: Event)
    requires ResInv(s) && Enabled(s, e)
    ensures var r := Step(s, e);
      if e.Call? && e.op.DelayFor? then
        |r.delays| == |s.delays| + 1 && r.delays[|s.delays|].durationNs == e.op.us * NANOS_PER_MICRO
      else SameDurations(s, r)
  {
    match e
    case Call(t, op) => CallReserves(s, t, op);
    case Move(t, hostNs) => MoveReservesNothing(s, t, hostNs);
    case Wake(_) =>
    case HostTime(_) =>
  }

  /** The delays of `r` after those of `s` have these durations, and those of `s` have kept theirs. */
  ghost predicate Called(s: State, r: State, calls: seq<nat>) {
    && |r.delays| == |s.delays| + |calls|
    && (forall k :: 0 <= k < |s.delays| ==> r.delays[k].durationNs == s.delays[k].durationNs)
    && forall k :: |s.delays| <= k < |r.delays| ==>
         r.delays[k].durationNs == calls[k - |s.delays|] * NANOS_PER_MICRO
  }

  lemma CalledOn(s: State, m: State, r: State, first: seq<nat>, rest: seq<nat>)
    requires Called(s, m, first) && Called(m, r, rest)
    ensures Called(s, r, first + rest)
  {
  }

  /** The delays reserved in a run are the delay calls that the run makes, in order, each with the
      duration it was called with. */
  lemma {:induction false} DelaysAreCalls(s: State, run: seq<Event>)
    requires ResInv(s) && Runs(s, run)
    ensures Called(s, After(s, run), DelayCalls(run))
    decreases |run|
  {
    if |run| > 0 {
      var m, e := Step(s, run[0]), run[0];
      StepKeeps(s, e);
      StepReserves(s, e);
      StepAddsUp(s, e);
      DelaysAreCalls(m, run[1..]);
      CalledOn(s, m, After(s, run), if e.Call? && e.op.DelayFor? then [e.op.us] else [], DelayCalls(run[1..]));
    }
  }
}
