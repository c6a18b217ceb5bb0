/** The alarm worker never goes to sleep on stale information. */
module AlarmWorker {
  import opened AlarmProtocol
  import opened AlarmOwnership

  /** Some thread has changed the service and not yet called `NotifyAlarmWorker`. */
  ghost predicate Owes(s: State) {
    exists t :: |Stack(s, t)| > 0 && Owing(Top(Stack(s, t)))
  }

  predicate Waiting(f: Frame) { f.WorkerCheck? || f.WorkerParked? }

  /** What the worker took from its snapshot is still good, or somebody will have told it: the
      wake generation has moved on, or a notification is owed, or it waits for the very deadline
      that is now at the head.  After shutdown began only the first two remain. */
  ghost predicate Fresh(s: State, f: Frame)
    requires Waiting(f)
  {
    && f.seen <= s.generation
    && (s.service.Running? && |s.alarms| > 0 && !s.active ==>
          f.seen < s.generation || Owes(s) || (f.timed && f.deadline == s.alarms[0].deadline))
    && (!s.service.Running? ==> f.seen < s.generation || Owes(s))
  }

  ghost predicate WorkInv(s: State) {
    var w := Stack(s, WORKER);
    |w| > 0 && Waiting(Top(w)) ==> Fresh(s, Top(w))
  }

  /** A step either leaves everything the worker looked at alone, and every owed notification
      owed, or it notifies, or it owes a notification, or it takes delivery. */
  ghost predicate Announced(s: State, r: State) {
    || s.generation < r.generation
    || (s.generation == r.generation && Owes(r))
    || (s.generation == r.generation && r.active && r.service.Running?)
    || (&& s.generation == r.generation && !Owes(s)
        && r.alarms == s.alarms && r.active == s.active && r.service == s.service)
  }

  /** The witness of an owed notification survives every step of every other thread. */
  lemma OwedStays(s: State, r: State, t: nat)
    requires forall u :: u != t ==> Stack(r, u) == Stack(s, u) || Stack(s, u) == []
    requires |Stack(s, t)| > 0 ==> !Owing(Top(Stack(s, t)))
    requires Owes(s)
    ensures Owes(r)
  {
    var u :| |Stack(s, u)| > 0 && Owing(Top(Stack(s, u)));
    assert Stack(r, u) == Stack(s, u);
  }

  lemma OwesNow(r: State, t: nat)
    requires |Stack(r, t)| > 0 && Owing(Top(Stack(r, t)))
    ensures Owes(r)
  {
  }

  lemma CallAnnounced(s: State, t: nat, op: Op)
    requires OwnInv(s) && CallEnabled(s, t, op)
    ensures Announced(s, CallStep(s, t, op))
  {
    var r := CallStep(s, t, op);
    CallShape(s, t, op);
    if r != s && Owing(Top(Stack(r, t))) {
      OwesNow(r, t);
    } else if Owes(s) {
      OwedStays(s, r, t);
    }
  }

  lemma MoveAnnounced(s: State, t: nat, hostNs: int)
    requires OwnInv(s) && MoveEnabled(s, t) && !Top(Stack(s, t)).Joining?
    ensures Announced(s, MoveStep(s, t, hostNs))
  {
    var r, f := MoveStep(s, t, hostNs), Top(Stack(s, t));
    if Owing(f) {
      NotifyAnnounces(s, t);
    } else if f.Releasing? {
      ReleaseAnnounces(s, t);
    } else {
      QuietMove(s, t, hostNs);
      QuietAnnounced(s, r, t);
    }
  }

  lemma QuietAnnounced(s: State, r: State, t: nat)
    requires |Stack(s, t)| > 0 && !Owing(Top(Stack(s, t)))
    requires r.generation == s.generation && r.service == s.service
    requires forall u :: u != t ==> Stack(r, u) == Stack(s, u)
    requires (r.active || (r.alarms == s.alarms && r.active == s.active)) && (r.alarms != s.alarms ==> Owes(r))
    requires r.active ==> r.service.Running?
    ensures Announced(s, r)
  {
    if Owes(s) { OwedStays(s, r, t); }
  }

  lemma NotifyAnnounces(s: State, t: nat)
    requires |Stack(s, t)| > 0 && Owing(Top(Stack(s, t)))
    ensures NotifyStep(s, t).generation == s.generation + 1
  {
  }

  lemma ReleaseAnnounces(s: State, t: nat)
    requires |Stack(s, t)| > 0 && Top(Stack(s, t)).Releasing?
    ensures Owes(ReleaseStep(s, t))
  {
    OwesNow(ReleaseStep(s, t), t);
  }

  /** The other frames: a claim owes its notification, entering takes delivery, and nothing else
      touches the queue, the ownership or the service state. */
  lemma QuietMove(s: State, t: nat, hostNs: int)
    requires MoveEnabled(s, t) && OwnInv(s)
    requires var f := Top(Stack(s, t)); !f.Joining? && !Owing(f) && !f.Releasing?
    ensures var r := MoveStep(s, t, hostNs);
            && r.generation == s.generation && r.service == s.service
            && (forall u :: u != t ==> Stack(r, u) == Stack(s, u))
            && (r.active || (r.alarms == s.alarms && r.active == s.active))
            && (r.alarms != s.alarms ==> Owes(r))
            && (r.active ==> r.service.Running?)
  {
    var r, f := MoveStep(s, t, hostNs), Top(Stack(s, t));
    if f.Draining? {
      assert AlarmOwnership.FrameFits(OwnershipOf(s), t, Stack(s, t), |Stack(s, t)| - 1);
      ClaimOwes(s, t, hostNs);
    } else if f.Entering? {
      EnterQuiet(s, t);
    } else if f.PumpChecked? {
      assert r == Replace(s, t, Entering(s.uptimeNs, false, -1));
    } else if f.InCallback? {
      assert r == Pop(s, t);
    } else {
      WorkerQuiet(s, t);
    }
  }

  lemma ClaimOwes(s: State, t: nat, hostNs: int)
    requires |Stack(s, t)| > 0 && Top(Stack(s, t)).Draining?
    ensures var r := DrainStep(s, t, hostNs);
            && r.generation == s.generation && r.service == s.service && r.active == s.active
            && (forall u :: u != t ==> Stack(r, u) == Stack(s, u))
            && (r.alarms != s.alarms ==> Owes(r))
  {
    var r, f := DrainStep(s, t, hostNs), Top(Stack(s, t));
    var now := Advance(s, f.limitNs, f.advance, hostNs);
    assert now == s.(uptimeNs := now.uptimeNs);
    if HeadDue(now) {
      assert Stack(r, t) == Stack(s, t) + [ClaimNotify(now.alarms[0].id)];
      OwesNow(r, t);
    }
  }

  lemma EnterQuiet(s: State, t: nat)
    requires |Stack(s, t)| > 0 && Top(Stack(s, t)).Entering?
    ensures var r := EnterStep(s, t);
            && r.generation == s.generation && r.service == s.service && r.alarms == s.alarms
            && (forall u :: u != t ==> Stack(r, u) == Stack(s, u))
            && (r.active == s.active || (r.active && r.service.Running?))
  {
  }

  lemma WorkerQuiet(s: State, t: nat)
    requires |Stack(s, t)| > 0 && (Top(Stack(s, t)).WorkerLoop? || Top(Stack(s, t)).WorkerCheck?)
    ensures var r := WorkerStep(s, t); r == s.(threads := r.threads)
    ensures forall u :: u != t ==> Stack(WorkerStep(s, t), u) == Stack(s, u)
  {
  }

  /** The worker's own step: a new snapshot is fresh, and testing the generation keeps it. */
  lemma WorkerStepFresh(s: State, t: nat)
    requires OwnInv(s) && WorkInv(s) && |Stack(s, t)| > 0
    requires Top(Stack(s, t)).WorkerLoop? || Top(Stack(s, t)).WorkerCheck?
    ensures WorkInv(WorkerStep(s, t))
  {
    var r, st := WorkerStep(s, t), Stack(s, t);
    assert AlarmOwnership.FrameFits(OwnershipOf(s), t, st, |st| - 1);
    assert t == WORKER && |st| == 1;
    assert forall u :: u != t ==> Stack(r, u) == Stack(s, u);
    if Owes(s) { OwedStays(s, r, t); }
  }

  /** Any announced step that is not the worker's keeps what the worker holds fresh. */
  lemma FreshStays(s: State, r: State, f: Frame)
    requires Waiting(f) && Fresh(s, f) && Announced(s, r)
    ensures Fresh(r, f)
  {
  }

  lemma JoinFresh(s: State, t: nat)
    requires OwnInv(s) && MoveEnabled(s, t) && Top(Stack(s, t)).Joining?
    ensures WorkInv(JoinStep(s, t))
  {
    assert Stack(s, WORKER) == [];
    assert t != WORKER;
    assert Stack(JoinStep(s, t), WORKER) == [];
  }

  /** A call leaves no waiting frame of the worker that was not there before. */
  lemma CallWorkerTop(s: State, t: nat, op: Op)
    requires OwnInv(s) && CallEnabled(s, t, op)
    ensures var w := Stack(CallStep(s, t, op), WORKER);
            |w| > 0 && Waiting(Top(w)) ==> Stack(s, WORKER) == w
  {
    CallShape(s, t, op);
  }

  /** Neither does a move, except the worker's own snapshot and test. */
  lemma MoveWorkerTop(s: State, t: nat, hostNs: int)
    requires OwnInv(s) && MoveEnabled(s, t)
    requires var f := Top(Stack(s, t)); !f.WorkerLoop? && !f.WorkerCheck? && !f.Joining?
    ensures var w := Stack(MoveStep(s, t, hostNs), WORKER);
            |w| > 0 && Waiting(Top(w)) ==> Stack(s, WORKER) == w
  {
    var r, f, st := MoveStep(s, t, hostNs), Top(Stack(s, t)), Stack(s, t);
    if Owing(f) || f.Releasing? {
      assert forall u :: u != t ==> Stack(r, u) == Stack(s, u);
    } else {
      QuietMove(s, t, hostNs);
    }
    if t == WORKER {
      assert |st| > 1 ==> AlarmOwnership.FrameFits(OwnershipOf(s), t, st, |st| - 2);
      TopAfterMove(s, t, hostNs);
    }
  }

  /** What lies on top after a move: the frame below, or a frame that does not wait. */
  lemma TopAfterMove(s: State, t: nat, hostNs: int)
    requires MoveEnabled(s, t)
    requires var f := Top(Stack(s, t)); !f.WorkerLoop? && !f.WorkerCheck? && !f.Joining?
    ensures var st, rt := Stack(s, t), Stack(MoveStep(s, t, hostNs), t);
            rt == st[..|st| - 1] || (|rt| > 0 && !Waiting(Top(rt)))
  {
    var f := Top(Stack(s, t));
    if f.Draining? { TopAfterDrain(s, t, hostNs); } else if f.Entering? { TopAfterEnter(s, t); }
  }

  lemma TopAfterDrain(s: State, t: nat, hostNs: int)
    requires |Stack(s, t)| > 0 && Top(Stack(s, t)).Draining?
    ensures var rt := Stack(DrainStep(s, t, hostNs), t); |rt| > 0 && !Waiting(Top(rt))
  {
  }

  lemma TopAfterEnter(s: State, t: nat)
    requires |Stack(s, t)| > 0 && Top(Stack(s, t)).Entering?
    ensures var st, rt := Stack(s, t), Stack(EnterStep(s, t), t);
            rt == st[..|st| - 1] || (|rt| > 0 && !Waiting(Top(rt)))
  {
  }

  lemma StepKeepsFresh(s: State, e: Event)
    requires OwnInv(s) && WorkInv(s) && Enabled(s, e)
    ensures WorkInv(Step(s, e))
  {
    var r, w := Step(s, e), Stack(s, WORKER);
    match e
    case Call(t, op) =>
      CallAnnounced(s, t, op);
      CallWorkerTop(s, t, op);
      if |w| > 0 && Waiting(Top(w)) { FreshStays(s, r, Top(w)); }
    case Move(t, hostNs) =>
      var f := Top(Stack(s, t));
      if f.Joining? { JoinFresh(s, t); }
      else if f.WorkerLoop? || f.WorkerCheck? { WorkerStepFresh(s, t); }
      else {
        MoveAnnounced(s, t, hostNs);
        MoveWorkerTop(s, t, hostNs);
        if |w| > 0 && Waiting(Top(w)) { FreshStays(s, r, Top(w)); }
      }
    case Wake(t) =>
      var st := Stack(s, t);
      assert AlarmOwnership.FrameFits(OwnershipOf(s), t, st, |st| - 1);
    case HostTime(_) =>
      assert forall u :: Stack(r, u) == Stack(s, u);
      if |w| > 0 && Waiting(Top(w)) {
        if Owes(s) { var u :| |Stack(s, u)| > 0 && Owing(Top(Stack(s, u))); OwesNow(r, u); }
      }
  }

  lemma PowerOnFresh(autoSync: bool)
    ensures WorkInv(PowerOn(autoSync))
  {
  }

  /** No stale wait, over every run: whenever the worker is about to wait or waiting, alarms are
      pending, the service runs and nobody delivers, the wake generation has moved past the one
      it recorded, or a notification is owed, or its timed wait ends at the head deadline. */
  lemma {:induction false} WorkerNeverStale(s: State, run: seq<Event>)
    requires OwnInv(s) && WorkInv(s) && Runs(s, run)
    ensures OwnInv(After(s, run)) && WorkInv(After(s, run))
    decreases |run|
  {
    if |run| > 0 {
      StepKeeps(s, run[0]);
      StepKeepsFresh(s, run[0]);
      WorkerNeverStale(Step(s, run[0]), run[1..]);
    }
  }
}
