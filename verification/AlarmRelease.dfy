/** Work that becomes due while delivery is being released.

    A drain that finds nothing due gives up delivery in a second lock section.  Between the two
    sections other threads still see delivery active, so their pumps return without delivering.
    Here is exactly when the release leaves due work behind. */
module AlarmRelease {
  import opened Int64
  import opened AlarmQueue
  import opened AlarmProtocol
  import opened AlarmOwnership
  import AlarmLedger
  import opened AlarmThread

  // ---------- What is due ----------

  predicate DueAt(e: Alarm, uptimeNs: int) {
    e.deadline * NANOS_PER_MICRO <= uptimeNs
  }

  /** The alarms pending and due. */
  function DueIds(q: seq<Alarm>, uptimeNs: int): set<nat> {
    set e | e in q && DueAt(e, uptimeNs) :: e.id
  }

  function Due(s: State): set<nat> {
    DueIds(s.alarms, s.uptimeNs)
  }

  lemma HeadDueIff(s: State)
    requires Sorted(s.alarms)
    ensures HeadDue(s) <==> Due(s) != {}
  {
    if HeadDue(s) {
      assert s.alarms[0] in s.alarms && s.alarms[0].id in Due(s);
    }
    forall e | e in s.alarms && DueAt(e, s.uptimeNs) ensures HeadDue(s) {
      var i :| 0 <= i < |s.alarms| && s.alarms[i] == e;
      assert i == 0 || Before(s.alarms[0], s.alarms[i]);
    }
  }

  // ---------- The window ----------

  /** The owner has found nothing due and has not yet released delivery. */
  predicate InWindow(s: State) {
    s.active && |Stack(s, s.owner)| > 0 && Top(Stack(s, s.owner)).Releasing?
  }

  /** Anything but the owner's release. */
  predicate ByOthers(owner: nat, e: Event) {
    e.Move? ==> e.t != owner
  }

  /** Another thread's delay arrives while delivery is active. */
  predicate PublishesTarget(s: State, e: Event) {
    && e.Move? && |Stack(s, e.t)| > 0 && Top(Stack(s, e.t)).Entering? && Top(Stack(s, e.t)).advance
    && s.active && s.service.Running?
  }

  /** Where the event moves the uptime to. */
  function UptimeAfter(s: State, e: Event): int {
    match e
    case Call(_, Lag(ns, hostNs)) => Reread(s.(uptimeNs := s.uptimeNs + ns), hostNs).uptimeNs
    case HostTime(uptimeNs) => uptimeNs
    case Move(t, _) => if PublishesTarget(s, e) then Max(s.uptimeNs, Top(Stack(s, t)).limitNs) else s.uptimeNs
    case _ => s.uptimeNs
  }

  /** The event registers an alarm whose deadline has been reached. */
  predicate SchedulesDue(s: State, e: Event) {
    e.Call? && e.op.Schedule? && e.op.deadlineUs * NANOS_PER_MICRO <= s.uptimeNs
  }

  /** The event moves the uptime to the head deadline or beyond. */
  predicate ReachesHead(s: State, e: Event) {
    |s.alarms| > 0 && s.alarms[0].deadline * NANOS_PER_MICRO <= UptimeAfter(s, e)
  }

  /** The alarms that the event makes due. */
  function MadeDue(s: State, e: Event): set<nat> {
    if SchedulesDue(s, e) then {s.nextId} else DueIds(s.alarms, UptimeAfter(s, e)) - Due(s)
  }

  predicate Withdraws(e: Event, id: nat) {
    e.Call? && e.op == Cancel(id)
  }

  function Withdrawn(e: Event): set<nat> {
    if e.Call? && e.op.Cancel? then {e.op.id} else {}
  }

  // ---------- One step in the window ----------

  /** What the window's steps can do to the queue and the clock. */
  ghost predicate WindowStep(s: State, e: Event, r: State) {
    && r.active && r.owner == s.owner && Stack(r, s.owner) == Stack(s, s.owner)
    && Due(r) == Due(s) - Withdrawn(e) + MadeDue(s, e)
  }

  lemma SameQueue(s: State, e: Event, r: State)
    requires r.active && r.owner == s.owner && Stack(r, s.owner) == Stack(s, s.owner)
    requires r.alarms == s.alarms && r.uptimeNs == UptimeAfter(s, e) >= s.uptimeNs
    requires !SchedulesDue(s, e) && Withdrawn(e) == {}
    ensures WindowStep(s, e, r)
  {
  }

  lemma ScheduleInWindow(s: State, t: nat, deadlineUs: int)
    requires OwnInv(s) && AlarmLedger.LedgerInv(s) && InWindow(s) && Enabled(s, Call(t, Schedule(deadlineUs)))
    ensures WindowStep(s, Call(t, Schedule(deadlineUs)), DoSchedule(s, t, deadlineUs))
  {
    var e, r := Entry(deadlineUs, s.nextId, ()), DoSchedule(s, t, deadlineUs);
    InsertAtAddsOne(s.alarms, UpperBound(s.alarms, deadlineUs), e);
    assert forall x :: x in r.alarms <==> x == e || x in s.alarms;
  }

  lemma CancelInWindow(s: State, t: nat, id: nat)
    requires OwnInv(s) && AlarmLedger.LedgerInv(s) && InWindow(s) && Enabled(s, Call(t, Cancel(id)))
    ensures WindowStep(s, Call(t, Cancel(id)), DoCancel(s, t, id))
  {
    var r, k := DoCancel(s, t, id), Find(s.alarms, id);
    assert forall x :: x in s.alarms ==> x.id in Ids(s.alarms);
    if id != 0 && k < |s.alarms| {
      RemoveKeepsOrder(s.alarms, k);
      forall x | x in s.alarms && x.id == id ensures x == s.alarms[k] {
        var i :| 0 <= i < |s.alarms| && s.alarms[i] == x;
      }
    } else {
      forall x | x in s.alarms ensures x.id != id {
        var i :| 0 <= i < |s.alarms| && s.alarms[i] == x;
      }
    }
  }

  lemma CallInWindow(s: State, t: nat, op: Op)
    requires AlarmLedger.Inv(s) && InWindow(s) && Enabled(s, Call(t, op))
    ensures WindowStep(s, Call(t, op), CallStep(s, t, op))
  {
    match op
    case Schedule(d) => ScheduleInWindow(s, t, d);
    case Cancel(id) => CancelInWindow(s, t, id);
    case Lag(_, _) => SameQueue(s, Call(t, op), CallStep(s, t, op));
    case DelayFor(_) => SameQueue(s, Call(t, op), CallStep(s, t, op));
    case Process => SameQueue(s, Call(t, op), CallStep(s, t, op));
    case BeginShutdown => SameQueue(s, Call(t, op), CallStep(s, t, op));
    case FinishShutdown =>
  }

  lemma MoveInWindow(s: State, t: nat, hostNs: int)
    requires AlarmLedger.Inv(s) && InWindow(s) && MoveEnabled(s, t) && t != s.owner
    ensures WindowStep(s, Move(t, hostNs), MoveStep(s, t, hostNs))
  {
    var f, r := Top(Stack(s, t)), MoveStep(s, t, hostNs);
    assert FrameFits(OwnershipOf(s), t, Stack(s, t), |Stack(s, t)| - 1);
    assert JoinFits(s, Stack(s, t));
    match f {
      case Entering(_, _, _) => EnterInWindow(s, t);
      case WorkerLoop => WorkerInWindow(s, t);
      case WorkerCheck(_, _, _) => WorkerInWindow(s, t);
      case _ =>
    }
    SameQueue(s, Move(t, hostNs), r);
  }

  lemma EnterInWindow(s: State, t: nat)
    requires s.active && s.service.Running? && |Stack(s, t)| > 0 && Top(Stack(s, t)).Entering? && t != s.owner
    ensures var r := EnterStep(s, t);
      && r.active && r.owner == s.owner && Stack(r, s.owner) == Stack(s, s.owner)
      && r.alarms == s.alarms && r.uptimeNs == UptimeAfter(s, Move(t, 0))
  {
  }

  lemma WorkerInWindow(s: State, t: nat)
    requires s.active && |Stack(s, t)| > 0 && (Top(Stack(s, t)).WorkerLoop? || Top(Stack(s, t)).WorkerCheck?)
    requires t != s.owner
    ensures var r := WorkerStep(s, t);
      && r.active && r.owner == s.owner && Stack(r, s.owner) == Stack(s, s.owner)
      && r.alarms == s.alarms && r.uptimeNs == s.uptimeNs
  {
  }

  /** Every step of another thread or the host leaves the window open, and changes what is due by
      exactly what it withdraws and what it makes due. */
  lemma StepInWindow(s: State, e: Event)
    requires AlarmLedger.Inv(s) && InWindow(s) && Enabled(s, e) && ByOthers(s.owner, e)
    ensures InWindow(Step(s, e)) && WindowStep(s, e, Step(s, e))
  {
    match e
    case Call(t, op) => CallInWindow(s, t, op);
    case Move(t, hostNs) => MoveInWindow(s, t, hostNs);
    case Wake(t) => SameQueue(s, e, Step(s, e));
    case HostTime(_) => SameQueue(s, e, Step(s, e));
  }

  /** One step of another thread or the host brings the first due alarm exactly when it registers
      one whose deadline is reached, or moves the uptime to the head deadline or beyond. */
  lemma BecomesDueIff(s: State, e: Event)
    requires AlarmLedger.Inv(s) && InWindow(s) && Enabled(s, e) && ByOthers(s.owner, e) && !HeadDue(s)
    ensures HeadDue(Step(s, e)) <==> SchedulesDue(s, e) || ReachesHead(s, e)
  {
    StepInWindow(s, e);
    OneStepLedger(s, e);
    HeadDueIff(s);
    HeadDueIff(Step(s, e));
    HeadDueIff(s.(uptimeNs := UptimeAfter(s, e)));
  }

  // ---------- The whole window ----------

  ghost predicate WindowRun(s: State, run: seq<Event>) {
    Runs(s, run) && forall e :: e in run ==> ByOthers(s.owner, e)
  }

  predicate WithdrawnIn(run: seq<Event>, id: nat) {
    exists i :: 0 <= i < |run| && Withdraws(run[i], id)
  }

  /** Some step of the run makes the alarm due and no later step withdraws it. */
  ghost predicate LeftDue(s: State, run: seq<Event>, id: nat)
    requires Runs(s, run)
    decreases |run|
  {
    |run| > 0 &&
    ((id in MadeDue(s, run[0]) && !WithdrawnIn(run[1..], id)) || LeftDue(Step(s, run[0]), run[1..], id))
  }

  lemma WithdrawnFirst(run: seq<Event>, id: nat)
    requires |run| > 0
    ensures WithdrawnIn(run, id) <==> Withdraws(run[0], id) || WithdrawnIn(run[1..], id)
  {
    assert forall i :: 0 < i < |run| ==> run[i] == run[1..][i - 1];
    assert forall i :: 0 <= i < |run| - 1 ==> run[1..][i] == run[i + 1];
  }

  lemma {:induction false} WindowDue(s: State, run: seq<Event>, id: nat)
    requires AlarmLedger.Inv(s) && InWindow(s) && WindowRun(s, run)
    ensures var r := After(s, run); AlarmLedger.Inv(r) && InWindow(r) && r.owner == s.owner
    ensures id in Due(After(s, run)) <==> (id in Due(s) && !WithdrawnIn(run, id)) || LeftDue(s, run, id)
    decreases |run|
  {
    if |run| > 0 {
      var e, m := run[0], Step(s, run[0]);
      StepInWindow(s, e);
      OneStepLedger(s, e);
      WindowDue(m, run[1..], id);
      WithdrawnFirst(run, id);
    }
  }

  lemma OneStepLedger(s: State, e: Event)
    requires AlarmLedger.Inv(s) && Enabled(s, e)
    ensures AlarmLedger.Inv(Step(s, e))
  {
    OneStep(s, e);
    AlarmLedger.RunKeepsLedger(s, [e]);
  }

  /** The owner's drain opens the window only when nothing is due. */
  lemma DrainOpensWindow(s: State, t: nat, hostNs: int)
    requires OwnInv(s) && |Stack(s, t)| > 0 && Top(Stack(s, t)).Draining?
    requires Top(Stack(DrainStep(s, t, hostNs), t)).Releasing?
    ensures InWindow(DrainStep(s, t, hostNs)) && DrainStep(s, t, hostNs).owner == t && !HeadDue(DrainStep(s, t, hostNs))
  {
    assert FrameFits(OwnershipOf(s), t, Stack(s, t), |Stack(s, t)| - 1);
    var f := Top(Stack(s, t));
    var now := Advance(s, f.limitNs, f.advance, hostNs);
    assert now == s.(uptimeNs := now.uptimeNs);
  }

  /** When a drain leaves due work behind, exactly: from the section that finds nothing due to the
      release, whatever other threads and the host do between, the release leaves an alarm due if
      and only if one of their steps made an alarm due that none of them cancelled afterwards.
      The release then owes the worker a notification either way. */
  lemma ReleaseLeavesDueIff(d: State, hostNs: int, run: seq<Event>)
    requires AlarmLedger.Inv(d) && d.active && |Stack(d, d.owner)| > 0 && Top(Stack(d, d.owner)).Draining?
    requires var s := DrainStep(d, d.owner, hostNs); Top(Stack(s, s.owner)).Releasing? && WindowRun(s, run)
    ensures var s := DrainStep(d, d.owner, hostNs); var m := After(s, run);
      && MoveEnabled(m, d.owner) && m.owner == d.owner && Top(Stack(m, d.owner)).Releasing?
      && var r := ReleaseStep(m, d.owner);
         && !r.active && |Stack(r, d.owner)| > 0 && Top(Stack(r, d.owner)).NotifyOwed?
         && (HeadDue(r) <==> exists id :: LeftDue(s, run, id))
  {
    var s := DrainStep(d, d.owner, hostNs);
    DrainOpensWindow(d, d.owner, hostNs);
    OneStepLedger(d, Move(d.owner, hostNs));
    WindowOutcome(s, run);
  }

  lemma WindowOutcome(s: State, run: seq<Event>)
    requires AlarmLedger.Inv(s) && InWindow(s) && !HeadDue(s) && WindowRun(s, run)
    ensures var m := After(s, run);
      && AlarmLedger.Inv(m) && InWindow(m) && m.owner == s.owner
      && var r := ReleaseStep(m, s.owner);
         && !r.active && |Stack(r, s.owner)| > 0 && Top(Stack(r, s.owner)).NotifyOwed?
         && (HeadDue(r) <==> exists id :: LeftDue(s, run, id))
  {
    WindowDue(s, run, 0);
    DueAfterWindow(s, run);
    ReleaseChangesNothing(After(s, run), s.owner);
  }

  lemma DueAfterWindow(s: State, run: seq<Event>)
    requires AlarmLedger.Inv(s) && InWindow(s) && !HeadDue(s) && WindowRun(s, run)
    ensures HeadDue(After(s, run)) <==> exists id :: LeftDue(s, run, id)
  {
    var m := After(s, run);
    WindowDue(s, run, 0);
    HeadDueIff(s);
    HeadDueIff(m);
    if HeadDue(m) {
      var id :| id in Due(m);
      WindowDue(s, run, id);
    } else if id :| LeftDue(s, run, id) {
      WindowDue(s, run, id);
    }
  }

  lemma ReleaseChangesNothing(s: State, t: nat)
    requires |Stack(s, t)| > 0 && Top(Stack(s, t)).Releasing?
    ensures var r := ReleaseStep(s, t);
      && !r.active && |Stack(r, t)| > 0 && Top(Stack(r, t)).NotifyOwed? && (HeadDue(r) <==> HeadDue(s))
  {
  }

  /** No step of the window registers due work or moves time to a pending deadline. */
  ghost predicate QuietWindow(s: State, run: seq<Event>)
    requires Runs(s, run)
    decreases |run|
  {
    |run| == 0 ||
    (!SchedulesDue(s, run[0]) && !ReachesHead(s, run[0]) && QuietWindow(Step(s, run[0]), run[1..]))
  }

  lemma {:induction false} QuietLeavesNothing(s: State, run: seq<Event>)
    requires AlarmLedger.Inv(s) && InWindow(s) && !HeadDue(s) && WindowRun(s, run) && QuietWindow(s, run)
    ensures !HeadDue(After(s, run))
    decreases |run|
  {
    if |run| > 0 {
      BecomesDueIff(s, run[0]);
      StepInWindow(s, run[0]);
      OneStepLedger(s, run[0]);
      QuietLeavesNothing(Step(s, run[0]), run[1..]);
    }
  }

  /** The owner's guarantee: when no other thread registers due work or moves the time to a pending
      deadline during the window, nothing is due at the release. */
  lemma QuietReleaseLeavesNothingDue(d: State, hostNs: int, run: seq<Event>)
    requires AlarmLedger.Inv(d) && d.active && |Stack(d, d.owner)| > 0 && Top(Stack(d, d.owner)).Draining?
    requires var s := DrainStep(d, d.owner, hostNs);
      Top(Stack(s, s.owner)).Releasing? && WindowRun(s, run) && QuietWindow(s, run)
    ensures var m := After(DrainStep(d, d.owner, hostNs), run);
      && |Stack(m, d.owner)| > 0 && Top(Stack(m, d.owner)).Releasing?
      && !HeadDue(ReleaseStep(m, d.owner))
  {
    var s := DrainStep(d, d.owner, hostNs);
    DrainOpensWindow(d, d.owner, hostNs);
    OneStepLedger(d, Move(d.owner, hostNs));
    QuietLeavesNothing(s, run);
    WindowDue(s, run, 0);
    ReleaseChangesNothing(After(s, run), d.owner);
  }

  // ---------- The run that shows it ----------

  /** Thread 1 pumps up to its release. */
  const FIRST_PUMP: seq<Event> := [Call(1, Process)] + [Move(1, 0)] + ([Move(1, 0)] + [Move(1, 0)])

  /** Thread 2 registers an alarm that is due at once, and pumps. */
  const SECOND_PUMP: seq<Event> :=
    [Call(2, Schedule(0))] + [Move(2, 0)] + ([Call(2, Process), Move(2, 0)] + [Move(2, 0)])

  /** Thread 1 releases delivery and notifies. */
  const RELEASE: seq<Event> := [Move(1, 0), Move(1, 0)]

  /** A due alarm is pending, nobody is delivering, and nobody is inside the service. */
  ghost predicate Stranded(s: State) {
    && HeadDue(s) && !s.active && s.service.Running? && !s.autoSync && s.called == []
    && forall t :: Stack(s, t) == []
  }

  lemma PumpComes(s: State, t: nat)
    requires Stack(s, t) == [] && t != WORKER && s.service.Running?
    ensures Reaches(s, [Call(t, Process)] + [Move(t, 0)], With(s, t, [] + [Entering(s.uptimeNs, false, -1)]))
  {
    FirstCall(s, t, Process, s, PumpChecked);
    PumpEnters(s, t, []);
    ReachesAppend(s, [Call(t, Process)], With(s, t, [] + [PumpChecked]), [Move(t, 0)],
                  With(s, t, [] + [Entering(s.uptimeNs, false, -1)]));
  }

  lemma PumpRests(s: State, t: nat, limitNs: int)
    requires !s.active && s.service.Running? && !HeadDue(s)
    ensures Reaches(With(s, t, [] + [Entering(limitNs, false, -1)]), [Move(t, 0)] + [Move(t, 0)],
                    With(Owned(s, t, 0), t, [] + [Releasing(-1)]))
  {
    EnterOwns(s, t, [], limitNs, false, -1);
    DrainRests(Owned(s, t, 0), t, [], limitNs, false, -1);
    ReachesAppend(With(s, t, [] + [Entering(limitNs, false, -1)]), [Move(t, 0)],
                  With(Owned(s, t, 0), t, [] + [Draining(limitNs, false, -1)]), [Move(t, 0)],
                  With(Owned(s, t, 0), t, [] + [Releasing(-1)]));
  }

  lemma ScheduleComes(s: State, t: nat, deadlineUs: int, m: State)
    requires Stack(s, t) == [] && t != WORKER && !s.autoSync && CallEnabled(s, t, Schedule(deadlineUs))
    requires m == s.(alarms := Insert(s.alarms, Entry(deadlineUs, s.nextId, ())), nextId := NextId(s.nextId))
    ensures Reaches(s, [Call(t, Schedule(deadlineUs))] + [Move(t, 0)], With(Announced(m), t, []))
  {
    FirstCall(s, t, Schedule(deadlineUs), m, NotifyOwed);
    NotifyReturns(m, t, []);
    ReachesAppend(s, [Call(t, Schedule(deadlineUs))], With(m, t, [] + [NotifyOwed]), [Move(t, 0)],
                  With(Announced(m), t, []));
  }

  /** A pump that finds delivery active comes and goes. */
  lemma PumpGoes(s: State, t: nat)
    requires t != WORKER && s.active && s.service.Running?
    ensures Reaches(With(s, t, []), [Call(t, Process), Move(t, 0)] + [Move(t, 0)], With(s, t, []))
  {
    ProcessChecks(s, t, []);
    EnterReturns(s, t, [], s.uptimeNs, false, -1);
    assert Published(s, s.uptimeNs, false, -1) == s;
    ReachesAppend(With(s, t, []), [Call(t, Process), Move(t, 0)], With(s, t, [] + [Entering(s.uptimeNs, false, -1)]),
                  [Move(t, 0)], With(s, t, []));
  }

  lemma FirstPump(s: State, run: seq<Event>)
    requires s == PowerOn(false) && run == FIRST_PUMP
    ensures Reaches(s, run, With(Owned(s, 1, 0), 1, [] + [Releasing(-1)]))
  {
    PumpComes(s, 1);
    PumpRests(s, 1, 0);
    ReachesAppend(s, [Call(1, Process)] + [Move(1, 0)], With(s, 1, [] + [Entering(0, false, -1)]),
                  [Move(1, 0)] + [Move(1, 0)], With(Owned(s, 1, 0), 1, [] + [Releasing(-1)]));
  }

  lemma SecondPump(s: State, m: State, run: seq<Event>)
    requires Stack(s, 2) == [] && s.active && s.service.Running? && !s.autoSync
    requires run == SECOND_PUMP && CallEnabled(s, 2, Schedule(0))
    requires m == s.(alarms := Insert(s.alarms, Entry(0, s.nextId, ())), nextId := NextId(s.nextId))
    ensures Reaches(s, run, With(Announced(m), 2, []))
  {
    ScheduleComes(s, 2, 0, m);
    PumpGoes(Announced(m), 2);
    ReachesAppend(s, [Call(2, Schedule(0))] + [Move(2, 0)], With(Announced(m), 2, []),
                  [Call(2, Process), Move(2, 0)] + [Move(2, 0)], With(Announced(m), 2, []));
  }

  /** Two pumps that both return, and a due alarm that neither delivered: the second pump found
      delivery active and left it to the first, which had already looked. */
  lemma ReleaseStrandsDueAlarm(s: State, run: seq<Event>)
    requires s == PowerOn(false) && run == FIRST_PUMP + SECOND_PUMP + RELEASE
    ensures Runs(s, run) && Stranded(After(s, run))
  {
    var a := With(Owned(s, 1, 0), 1, [] + [Releasing(-1)]);
    var m := a.(alarms := Insert(a.alarms, Entry(0, a.nextId, ())), nextId := NextId(a.nextId));
    var b := With(Announced(m), 2, []);
    assert m.alarms == [Entry(0, 1, ())];
    FirstPump(s, FIRST_PUMP);
    SecondPump(a, m, SECOND_PUMP);
    ReachesAppend(s, FIRST_PUMP, a, SECOND_PUMP, b);
    ReleaseReturns(b, 1, [], -1);
    assert With(b, 1, [] + [Releasing(-1)]) == b;
    ReachesAppend(s, FIRST_PUMP + SECOND_PUMP, b, RELEASE, With(Released(b, -1), 1, []));
    StrandedAtEnd(s, b, m);
  }

  lemma StrandedAtEnd(s: State, b: State, m: State)
    requires s == PowerOn(false) && b == With(Announced(m), 2, []) && m.alarms == [Entry(0, 1, ())]
    requires m == With(Owned(s, 1, 0), 1, [] + [Releasing(-1)]).(alarms := m.alarms, nextId := m.nextId)
    ensures Stranded(With(Released(b, -1), 1, []))
  {
    var r := With(Released(b, -1), 1, []);
    assert r.threads == map[1 := [], 2 := []];
    forall t ensures Stack(r, t) == [] { }
  }
}
