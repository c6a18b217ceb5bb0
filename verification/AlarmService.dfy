/** What the service's own threads accomplish: shutdown begins when it can and reaches its end, and
    in auto-sync mode a worker lives as long as it is needed and delivers what is due. */
module AlarmService {
  import opened Int64
  import opened AlarmQueue
  import opened AlarmProtocol
  import opened AlarmOwnership
  import opened AlarmThread

  // ---------- Shutdown ----------

  /** A shutdown call changes the service, to Closing, exactly when it is running and nobody is
      delivering; and nothing else ever takes a running service out of that state. */
  lemma ShutdownBeginsIff(s: State, e: Event)
    requires Enabled(s, e) && s.service.Running? && OwnInv(s)
    ensures var r := Step(s, e);
      if e.Call? && e.op.BeginShutdown? && !s.active then r.service == Closing else r.service == Running
  {
    if e.Move? {
      assert JoinFits(s, Stack(s, e.t));
      StayingMove(s, e.t, e.hostNs);
    }
  }

  lemma StayingMove(s: State, t: nat, hostNs: int)
    requires MoveEnabled(s, t) && !Top(Stack(s, t)).Joining?
    ensures MoveStep(s, t, hostNs).service == s.service
  {
    var f := Top(Stack(s, t));
    if f.Draining? {
      var now := Advance(s, f.limitNs, f.advance, hostNs);
      assert now == s.(uptimeNs := now.uptimeNs);
    }
  }

  /** The state that a shutdown leaves. */
  function Stop(s: State): State {
    Announced(s).(alarms := [], discarded := s.discarded + Ids(s.alarms), service := Stopped)
  }

  function ShutdownCalls(t: nat): seq<Event> {
    [Call(t, BeginShutdown), Move(t, 0)] + ([Call(t, FinishShutdown)] + [Move(t, 0)])
  }

  /** From any idle running service without a worker, the two shutdown calls end with the service
      stopped and every pending alarm discarded, none run. */
  lemma ShutdownIsARun(s: State, t: nat) returns (run: seq<Event>)
    requires t != WORKER && s.service.Running? && !s.active && !s.workerStarted
    ensures run == ShutdownCalls(t) && Reaches(With(s, t, []), run, With(Stop(s), t, []))
  {
    var m := s.(service := Closing);
    ReadyCalls(s, t, []);
    PushOn(m, t, [], NotifyOwed);
    CallReturns(s, m, t, [], BeginShutdown);
    FinishReturns(Announced(m), t);
    ReachesAppend(With(s, t, []), [Call(t, BeginShutdown), Move(t, 0)], With(Announced(m), t, []),
                  [Call(t, FinishShutdown)] + [Move(t, 0)], With(Stop(s), t, []));
    run := ShutdownCalls(t);
  }

  lemma FinishReturns(s: State, t: nat)
    requires t != WORKER && s.service == Closing && (s.workerStarted ==> Stack(s, WORKER) == [])
    ensures Reaches(With(s, t, []), [Call(t, FinishShutdown)] + [Move(t, 0)],
                    With(s.(alarms := [], discarded := s.discarded + Ids(s.alarms), service := Stopped), t, []))
  {
    var r := s.(alarms := [], discarded := s.discarded + Ids(s.alarms), service := Stopped);
    var mid := With(s, t, [] + [Joining]);
    ReadyCalls(s, t, []);
    PushOn(s, t, [], Joining);
    TopOf(s, t, [], Joining);
    TopOf(r, t, [], Joining);
    ByStep(With(s, t, []), Call(t, FinishShutdown), mid);
    assert MoveEnabled(mid, t);
    ByStep(mid, Move(t, 0), With(r, t, []));
    ReachesAppend(With(s, t, []), [Call(t, FinishShutdown)], mid, [Move(t, 0)], With(r, t, []));
  }

  /** From power-on: an alarm is registered and the service shut down; it ends stopped, with that
      alarm discarded and not run. */
  lemma ShutdownFromPowerOn(s: State, deadlineUs: int) returns (run: seq<Event>)
    requires s == PowerOn(false) && CallEnabled(s, 1, Schedule(deadlineUs))
    ensures Runs(s, run)
    ensures var r := After(s, run);
      && r.service == Stopped && r.alarms == [] && r.discarded == {1} && r.called == []
      && forall t :: Stack(r, t) == []
  {
    var m := s.(alarms := Insert(s.alarms, Entry(deadlineUs, s.nextId, ())), nextId := NextId(s.nextId));
    var call, go := [Call(1, Schedule(deadlineUs))], [Move(1, 0)];
    assert m.alarms == [Entry(deadlineUs, 1, ())];
    FirstCall(s, 1, Schedule(deadlineUs), m, NotifyOwed);
    NotifyReturns(m, 1, []);
    ReachesAppend(s, call, With(m, 1, [] + [NotifyOwed]), go, With(Announced(m), 1, []));
    var rest := ShutdownIsARun(Announced(m), 1);
    ReachesAppend(s, call + go, With(Announced(m), 1, []), rest, With(Stop(Announced(m)), 1, []));
    run := call + go + rest;
    OneId(m.alarms[0]);
  }

  lemma OneId(e: Alarm)
    ensures Ids([e]) == {e.id}
  {
    assert [e][0].id == e.id;
  }

  // ---------- The worker lives ----------

  /** In auto-sync mode a pending alarm means a worker, and a worker of a running service is alive. */
  ghost predicate WorkerLives(s: State) {
    && (s.autoSync && |s.alarms| > 0 ==> s.workerStarted)
    && (s.workerStarted && s.service.Running? ==> |Stack(s, WORKER)| > 0)
  }

  lemma CallLives(s: State, t: nat, op: Op)
    requires OwnInv(s) && WorkerLives(s) && CallEnabled(s, t, op)
    ensures WorkerLives(CallStep(s, t, op))
  {
    if op.Cancel? && Find(s.alarms, op.id) < |s.alarms| {
      assert |RemoveAt(s.alarms, Find(s.alarms, op.id))| < |s.alarms|;
    }
  }

  lemma MoveLives(s: State, t: nat, hostNs: int)
    requires OwnInv(s) && WorkerLives(s) && MoveEnabled(s, t)
    ensures WorkerLives(MoveStep(s, t, hostNs))
  {
    var st, f := Stack(s, t), Top(Stack(s, t));
    assert FrameFits(OwnershipOf(s), t, st, |st| - 1);
    match f
    case Draining(_, _, _) => DrainLives(s, t, hostNs);
    case WorkerLoop => WorkerStepLives(s, t);
    case WorkerCheck(_, _, _) => WorkerStepLives(s, t);
    case Entering(_, _, _) => EnterLives(s, t);
    case _ => PlainLives(s, t, hostNs);
  }

  lemma DrainLives(s: State, t: nat, hostNs: int)
    requires WorkerLives(s) && |Stack(s, t)| > 0 && Top(Stack(s, t)).Draining?
    ensures WorkerLives(DrainStep(s, t, hostNs))
  {
    var f := Top(Stack(s, t));
    var now := Advance(s, f.limitNs, f.advance, hostNs);
    assert now == s.(uptimeNs := now.uptimeNs);
  }

  lemma EnterLives(s: State, t: nat)
    requires WorkerLives(s) && |Stack(s, t)| > 0 && Top(Stack(s, t)).Entering?
    requires t == WORKER ==> |Stack(s, t)| > 1
    ensures WorkerLives(EnterStep(s, t))
  {
  }

  lemma WorkerStepLives(s: State, t: nat)
    requires WorkerLives(s) && |Stack(s, t)| > 0 && (Top(Stack(s, t)).WorkerLoop? || Top(Stack(s, t)).WorkerCheck?)
    ensures WorkerLives(WorkerStep(s, t))
  {
  }

  lemma PlainLives(s: State, t: nat, hostNs: int)
    requires WorkerLives(s) && MoveEnabled(s, t) && (t == WORKER ==> |Stack(s, t)| > 1)
    requires var f := Top(Stack(s, t)); Owing(f) || f.PumpChecked? || f.Releasing? || f.InCallback? || f.Joining?
    ensures WorkerLives(MoveStep(s, t, hostNs))
  {
  }

  lemma StepLives(s: State, e: Event)
    requires OwnInv(s) && WorkerLives(s) && Enabled(s, e)
    ensures WorkerLives(Step(s, e))
  {
    match e
    case Call(t, op) => CallLives(s, t, op);
    case Move(t, hostNs) => MoveLives(s, t, hostNs);
    case Wake(_) =>
    case HostTime(_) =>
  }

  lemma PowerOnLives(autoSync: bool)
    ensures WorkerLives(PowerOn(autoSync))
  {
  }

  /** In every run in auto-sync mode: while the service is running and an alarm is pending, the
      worker is alive. */
  lemma {:induction false} RunLives(s: State, run: seq<Event>)
    requires OwnInv(s) && WorkerLives(s) && Runs(s, run)
    ensures OwnInv(After(s, run)) && WorkerLives(After(s, run))
    decreases |run|
  {
    if |run| > 0 {
      StepKeeps(s, run[0]);
      StepLives(s, run[0]);
      RunLives(Step(s, run[0]), run[1..]);
    }
  }

  // ---------- The worker works ----------

  /** At the top of its loop, with the service running, a due head and nobody delivering, the
      worker's own next steps make it the owner, claim the head and start its callback. */
  lemma WorkerDelivers(s: State)
    requires s.service.Running? && HeadDue(s) && !s.active
    ensures var c := Owned(s, WORKER, 1); var f := Draining(s.uptimeNs, false, -1);
      Reaches(With(s, WORKER, [WorkerLoop]),
              [Move(WORKER, 0)] + [Move(WORKER, 0)] + [Move(WORKER, 0)] + [Move(WORKER, 0), Move(WORKER, 0)],
              With(Claimed(c), WORKER, [WorkerLoop] + [f] + [InCallback(s.alarms[0].id)]))
  {
    var w, go, now := [WorkerLoop], [Move(WORKER, 0)], s.uptimeNs;
    var c := Owned(s, WORKER, 1);
    var a, b := With(s, WORKER, w + [PumpChecked]), With(s, WORKER, w + [Entering(now, false, -1)]);
    var d := With(c, WORKER, w + [Draining(now, false, -1)]);
    WorkerPumps(s);
    PumpEnters(s, WORKER, w);
    EnterOwns(s, WORKER, w, now, false, -1);
    DrainClaims(c, WORKER, w, now, false, -1);
    ReachesAppend(With(s, WORKER, w), go, a, go, b);
    ReachesAppend(With(s, WORKER, w), go + go, b, go, d);
    ReachesAppend(With(s, WORKER, w), go + go + go, d, [Move(WORKER, 0), Move(WORKER, 0)],
                  With(Claimed(c), WORKER, w + [Draining(now, false, -1)] + [InCallback(s.alarms[0].id)]));
  }

  lemma WorkerPumps(s: State)
    requires s.service.Running? && HeadDue(s) && !s.active
    ensures Reaches(With(s, WORKER, [WorkerLoop]), [Move(WORKER, 0)], With(s, WORKER, [WorkerLoop] + [PumpChecked]))
  {
    PushOn(s, WORKER, [WorkerLoop], PumpChecked);
    ByStep(With(s, WORKER, [WorkerLoop]), Move(WORKER, 0), With(s, WORKER, [WorkerLoop] + [PumpChecked]));
  }

  /** Once shutdown has begun the worker leaves at the top of its loop, and a check that finds a new
      generation goes back there. */
  lemma WorkerLeaves(s: State)
    requires !s.service.Running?
    ensures Reaches(With(s, WORKER, [WorkerLoop]), [Move(WORKER, 0)], With(s, WORKER, []))
  {
    TopOf(s, WORKER, [], WorkerLoop);
    assert [] + [WorkerLoop] == [WorkerLoop];
    ByStep(With(s, WORKER, [WorkerLoop]), Move(WORKER, 0), With(s, WORKER, []));
  }

  lemma WorkerRechecks(s: State, seen: nat, timed: bool, deadline: int)
    requires s.generation != seen
    ensures Reaches(With(s, WORKER, [WorkerCheck(seen, timed, deadline)]), [Move(WORKER, 0)],
                    With(s, WORKER, [WorkerLoop]))
  {
    var f := WorkerCheck(seen, timed, deadline);
    ReplaceTop(s, WORKER, [], f, WorkerLoop);
    assert [] + [f] == [f] && [] + [WorkerLoop] == [WorkerLoop];
    ByStep(With(s, WORKER, [f]), Move(WORKER, 0), With(s, WORKER, [WorkerLoop]));
  }

  lemma WorkerWakes(s: State, seen: nat, timed: bool, deadline: int)
    ensures Reaches(With(s, WORKER, [WorkerParked(seen, timed, deadline)]), [Wake(WORKER)],
                    With(s, WORKER, [WorkerLoop]))
  {
    var f := WorkerParked(seen, timed, deadline);
    ReplaceTop(s, WORKER, [], f, WorkerLoop);
    assert [] + [f] == [f] && [] + [WorkerLoop] == [WorkerLoop];
    ByStep(With(s, WORKER, [f]), Wake(WORKER), With(s, WORKER, [WorkerLoop]));
  }

  // ---------- Time in auto-sync mode ----------

  /** A lag moves the uptime by its amount, and on to the host's time if that is further. */
  lemma LagMoves(s: State, t: nat, ns: nat, hostNs: int)
    requires CallEnabled(s, t, Lag(ns, hostNs)) && hostNs <= INT64_MAX
    ensures var r := Step(s, Call(t, Lag(ns, hostNs)));
      && r.uptimeNs == (if s.autoSync then Max(s.uptimeNs + ns, hostNs) else s.uptimeNs + ns)
      && r.reservedNs == Max(s.reservedNs, r.uptimeNs)
  {
  }

  /** A drain that may move time moves it to the head deadline if that lies strictly ahead and within
      the limit, otherwise to the limit, and in auto-sync mode on to the host's time. */
  lemma AdvanceMoves(s: State, limitNs: int, hostNs: int)
    requires s.uptimeNs < limitNs && hostNs <= INT64_MAX
    ensures var r := Advance(s, limitNs, true, hostNs);
      var ahead := |s.alarms| > 0 && s.uptimeNs < s.alarms[0].deadline * NANOS_PER_MICRO <= limitNs;
      var goal := if ahead then s.alarms[0].deadline * NANOS_PER_MICRO else limitNs;
      r.uptimeNs == (if s.autoSync then Max(goal, hostNs) else goal)
  {
  }
}
