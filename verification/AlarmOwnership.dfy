/** Single delivery ownership over every interleaving of the alarm service. */
module AlarmOwnership {
  import opened AlarmProtocol

  predicate IsDrain(f: Frame) { f.Draining? || f.Releasing? }

  predicate Calling(f: Frame) { f.ClaimNotify? || f.InCallback? }

  predicate WorkerFrame(f: Frame) { f.WorkerLoop? || f.WorkerCheck? || f.WorkerParked? }

  /** Who may own delivery, and at which depth of its stack. */
  datatype Ownership = Ownership(active: bool, owner: nat, depth: nat)

  function OwnershipOf(s: State): Ownership {
    Ownership(s.active, s.owner, s.depth)
  }

  /** Frame `i` of thread `t`: a drain frame is the owner's, a callback lies right above a drain
      frame, worker frames are the worker's lowest, and only callbacks, drains and the worker
      loop have anything above them. */
  predicate FrameFits(o: Ownership, t: nat, st: seq<Frame>, i: nat)
    requires i < |st|
  {
    && (IsDrain(st[i]) ==> o.active && o.owner == t && o.depth == i)
    && (Calling(st[i]) ==> i > 0 && st[i - 1].Draining?)
    && (WorkerFrame(st[i]) <==> t == WORKER && i == 0)
    && (i + 1 < |st| ==> (st[i].Draining? && Calling(st[i + 1])) || st[i].InCallback? || st[i].WorkerLoop?)
  }

  ghost predicate StackFits(o: Ownership, t: nat, st: seq<Frame>) {
    forall i :: 0 <= i < |st| ==> FrameFits(o, t, st, i)
  }

  ghost predicate OwnInv(s: State) {
    && (s.active ==> s.service.Running?)
    && (s.active ==> s.depth < |Stack(s, s.owner)| && IsDrain(Stack(s, s.owner)[s.depth]))
    && (forall t :: StackFits(OwnershipOf(s), t, Stack(s, t)))
    && (|Stack(s, WORKER)| > 0 ==> s.workerStarted)
    && (forall t :: JoinFits(s, Stack(s, t)))
  }

  /** A thread joins the worker only after shutdown began. */
  predicate JoinFits(s: State, st: seq<Frame>) {
    |st| > 0 && Top(st).Joining? ==> !s.service.Running?
  }

  // ---------- One stack ----------

  lemma PushFits(o: Ownership, t: nat, st: seq<Frame>, f: Frame)
    requires StackFits(o, t, st) && !IsDrain(f) && !WorkerFrame(f)
    requires if |st| == 0 then t != WORKER && !Calling(f)
             else if Calling(f) then Top(st).Draining? else Top(st).InCallback? || Top(st).WorkerLoop?
    ensures StackFits(o, t, st + [f])
  {
    var r := st + [f];
    forall i | 0 <= i < |r| ensures FrameFits(o, t, r, i) {
      if i < |st| {
        assert FrameFits(o, t, st, i);
        assert r[i] == st[i] && (i > 0 ==> r[i - 1] == st[i - 1]);
      }
    }
  }

  lemma PopFits(o: Ownership, t: nat, st: seq<Frame>)
    requires StackFits(o, t, st) && |st| > 0
    ensures StackFits(o, t, st[..|st| - 1])
  {
    var r := st[..|st| - 1];
    forall i | 0 <= i < |r| ensures FrameFits(o, t, r, i) {
      assert FrameFits(o, t, st, i);
    }
  }

  /** The top frame becomes another of the same kind: plain, worker, callback or drain. */
  lemma ReplaceFits(o: Ownership, t: nat, st: seq<Frame>, f: Frame)
    requires StackFits(o, t, st) && |st| > 0
    requires Calling(f) <==> Calling(Top(st))
    requires WorkerFrame(f) <==> WorkerFrame(Top(st))
    requires IsDrain(f) ==> IsDrain(Top(st)) || (o.active && o.owner == t && o.depth == |st| - 1)
    ensures StackFits(o, t, st[..|st| - 1] + [f])
  {
    var r := st[..|st| - 1] + [f];
    forall i | 0 <= i < |r| ensures FrameFits(o, t, r, i) {
      assert FrameFits(o, t, st, i);
      assert i < |st| - 1 ==> r[i] == st[i];
      assert i > 0 ==> r[i - 1] == st[i - 1];
    }
  }

  /** A stack without drain frames fits any ownership. */
  lemma Unowned(o: Ownership, p: Ownership, t: nat, st: seq<Frame>)
    requires StackFits(o, t, st)
    requires !o.active || o.owner != t || (o == p.(active := o.active) && o.depth == |st| - 1 && !IsDrain(st[|st| - 1]))
    ensures StackFits(p, t, st)
  {
    forall i | 0 <= i < |st| ensures FrameFits(p, t, st, i) {
      assert FrameFits(o, t, st, i);
    }
  }

  // ---------- Steps ----------

  /** A step that changes one stack and nothing about ownership. */
  lemma OneStack(s: State, r: State, t: nat)
    requires OwnInv(s) && OwnershipOf(r) == OwnershipOf(s)
    requires r.service == s.service || (!s.active && !r.service.Running?)
    requires r.workerStarted == s.workerStarted
    requires forall u :: u != t ==> Stack(r, u) == Stack(s, u)
    requires JoinFits(r, Stack(r, t))
    requires StackFits(OwnershipOf(s), t, Stack(r, t))
    requires t == WORKER && |Stack(r, t)| > 0 ==> s.workerStarted
    requires s.active && s.owner == t ==> s.depth < |Stack(r, t)| && IsDrain(Stack(r, t)[s.depth])
    ensures OwnInv(r)
  {
    forall u ensures JoinFits(r, Stack(r, u)) { assert u != t ==> JoinFits(s, Stack(s, u)); }
  }

  lemma CallPushKeeps(s: State, r: State, t: nat, f: Frame)
    requires OwnInv(s) && CanCall(s, t) && OwnershipOf(r) == OwnershipOf(s)
    requires r.service == s.service || (!s.active && !r.service.Running?)
    requires r.workerStarted == s.workerStarted
    requires r.threads == s.threads[t := Stack(s, t) + [f]]
    requires f.Joining? ==> !r.service.Running?
    requires !IsDrain(f) && !WorkerFrame(f) && !Calling(f)
    ensures OwnInv(r)
  {
    PushFits(OwnershipOf(s), t, Stack(s, t), f);
    OneStack(s, r, t);
  }

  lemma ScheduleKeeps(s: State, t: nat, deadlineUs: int)
    requires OwnInv(s) && CanCall(s, t)
    ensures OwnInv(DoSchedule(s, t, deadlineUs))
  {
    var r := DoSchedule(s, t, deadlineUs);
    if s.autoSync && !s.workerStarted {
      var m := s.(workerStarted := true, threads := s.threads[WORKER := [WorkerLoop]]);
      assert Stack(s, WORKER) == [];
      forall u ensures StackFits(OwnershipOf(m), u, Stack(m, u)) && JoinFits(m, Stack(m, u)) {
        assert u != WORKER ==> Stack(m, u) == Stack(s, u) && JoinFits(s, Stack(s, u));
      }
      assert t != WORKER;
      CallPushKeeps(m, r, t, NotifyOwed);
    } else {
      CallPushKeeps(s, r, t, NotifyOwed);
    }
  }

  lemma CallKeeps(s: State, t: nat, op: Op)
    requires OwnInv(s) && CallEnabled(s, t, op)
    ensures OwnInv(CallStep(s, t, op))
  {
    var r := CallStep(s, t, op);
    match op
    case Schedule(d) => ScheduleKeeps(s, t, d);
    case Cancel(id) => if r != s { CallPushKeeps(s, r, t, NotifyOwed); }
    case Lag(_, _) => CallPushKeeps(s, r, t, NotifyOwed);
    case DelayFor(us) => CallPushKeeps(s, r, t, Top(Stack(r, t)));
    case Process => if r != s { CallPushKeeps(s, r, t, PumpChecked); }
    case BeginShutdown => if r != s { CallPushKeeps(s, r, t, NotifyOwed); }
    case FinishShutdown => CallPushKeeps(s, r, t, Joining);
  }

  ghost predicate PushShape(s: State, r: State, t: nat, f: Frame) {
    && r.generation == s.generation && OwnershipOf(r) == OwnershipOf(s)
    && r.claimed == s.claimed && r.called == s.called
    && (forall u :: u != t ==> Stack(r, u) == Stack(s, u) || (Stack(s, u) == [] && Stack(r, u) == [WorkerLoop]))
    && Stack(r, t) == Stack(s, t) + [f]
    && !WorkerFrame(f) && !Calling(f)
    && (Owing(f) || (r.alarms == s.alarms && r.service == s.service))
  }

  lemma ScheduleShape(s: State, t: nat, deadlineUs: int)
    requires OwnInv(s) && CanCall(s, t)
    ensures PushShape(s, DoSchedule(s, t, deadlineUs), t, NotifyOwed)
  {
    assert s.autoSync && !s.workerStarted ==> Stack(s, WORKER) == [] && t != WORKER;
  }

  /** A call either does nothing, or pushes one frame that is neither a worker's nor a callback's;
      it changes the service only if that frame owes a notification. */
  lemma CallShape(s: State, t: nat, op: Op)
    requires OwnInv(s) && CallEnabled(s, t, op)
    ensures var r := CallStep(s, t, op);
            r == s || (|Stack(r, t)| > 0 && PushShape(s, r, t, Top(Stack(r, t))))
  {
    if op.Schedule? {
      ScheduleShape(s, t, op.deadlineUs);
    } else {
      var r := CallStep(s, t, op);
      if r != s { PlainPush(s, r, t, Top(Stack(r, t))); }
    }
  }

  lemma PlainPush(s: State, r: State, t: nat, f: Frame)
    requires r.threads == s.threads[t := Stack(s, t) + [f]] && !WorkerFrame(f) && !Calling(f)
    requires r.generation == s.generation && OwnershipOf(r) == OwnershipOf(s)
    requires r.claimed == s.claimed && r.called == s.called
    requires Owing(f) || (r.alarms == s.alarms && r.service == s.service)
    ensures PushShape(s, r, t, f)
  {
  }

  lemma ReplaceKeeps(s: State, r: State, t: nat, f: Frame)
    requires OwnInv(s) && |Stack(s, t)| > 0 && OwnershipOf(r) == OwnershipOf(s)
    requires r.service == s.service && r.workerStarted == s.workerStarted
    requires r.threads == s.threads[t := Stack(s, t)[..|Stack(s, t)| - 1] + [f]]
    requires Calling(f) <==> Calling(Top(Stack(s, t)))
    requires WorkerFrame(f) <==> WorkerFrame(Top(Stack(s, t)))
    requires IsDrain(f) <==> IsDrain(Top(Stack(s, t)))
    requires !f.Joining?
    ensures OwnInv(r)
  {
    ReplaceFits(OwnershipOf(s), t, Stack(s, t), f);
    OneStack(s, r, t);
  }

  lemma PopKeeps(s: State, r: State, t: nat)
    requires OwnInv(s) && |Stack(s, t)| > 0 && OwnershipOf(r) == OwnershipOf(s)
    requires r.service == s.service || (!s.active && !r.service.Running?)
    requires r.workerStarted == s.workerStarted
    requires r.threads == s.threads[t := Stack(s, t)[..|Stack(s, t)| - 1]]
    requires !IsDrain(Top(Stack(s, t)))
    ensures OwnInv(r)
  {
    var st := Stack(s, t);
    PopFits(OwnershipOf(s), t, st);
    assert |st| > 1 ==> FrameFits(OwnershipOf(s), t, st, |st| - 2);
    OneStack(s, r, t);
  }

  lemma EnterKeeps(s: State, t: nat)
    requires OwnInv(s) && |Stack(s, t)| > 0 && Top(Stack(s, t)).Entering?
    ensures OwnInv(EnterStep(s, t))
  {
    var r := EnterStep(s, t);
    if !s.service.Running? || s.active {
      PopKeeps(s, r, t);
    } else {
      var st, o, p := Stack(s, t), OwnershipOf(s), OwnershipOf(r);
      forall u ensures StackFits(p, u, Stack(s, u)) { Unowned(o, p, u, Stack(s, u)); }
      ReplaceFits(p, t, st, Top(Stack(r, t)));
      forall u ensures StackFits(p, u, Stack(r, u)) && JoinFits(r, Stack(r, u)) {
        assert u != t ==> Stack(r, u) == Stack(s, u) && JoinFits(s, Stack(s, u));
      }
    }
  }

  lemma ReleaseKeeps(s: State, t: nat)
    requires OwnInv(s) && |Stack(s, t)| > 0 && Top(Stack(s, t)).Releasing?
    ensures OwnInv(ReleaseStep(s, t))
  {
    var r := ReleaseStep(s, t);
    var st, o, p := Stack(s, t), OwnershipOf(s), OwnershipOf(r);
    assert FrameFits(o, t, st, |st| - 1);
    ReplaceFits(o, t, st, NotifyOwed);
    forall u ensures StackFits(p, u, Stack(r, u)) && JoinFits(r, Stack(r, u)) {
      if u == t {
        Unowned(o, p, t, Stack(r, t));
      } else {
        assert Stack(r, u) == Stack(s, u) && JoinFits(s, Stack(s, u));
        Unowned(o, p, u, Stack(s, u));
      }
    }
  }

  lemma DrainKeeps(s: State, t: nat, hostNs: int)
    requires OwnInv(s) && |Stack(s, t)| > 0 && Top(Stack(s, t)).Draining?
    ensures OwnInv(DrainStep(s, t, hostNs))
  {
    var r, f := DrainStep(s, t, hostNs), Top(Stack(s, t));
    var now := Advance(s, f.limitNs, f.advance, hostNs);
    assert now == s.(uptimeNs := now.uptimeNs);
    if HeadDue(now) {
      var g := ClaimNotify(now.alarms[0].id);
      PushFits(OwnershipOf(s), t, Stack(s, t), g);
      assert Stack(r, t) == Stack(s, t) + [g];
      OneStack(s, r, t);
    } else {
      ReplaceKeeps(s, r, t, Releasing(f.ticket));
    }
  }

  lemma WorkerKeeps(s: State, t: nat)
    requires OwnInv(s) && |Stack(s, t)| > 0 && (Top(Stack(s, t)).WorkerLoop? || Top(Stack(s, t)).WorkerCheck?)
    ensures OwnInv(WorkerStep(s, t))
  {
    var r, st := WorkerStep(s, t), Stack(s, t);
    if |Stack(r, t)| < |st| {
      PopKeeps(s, r, t);
    } else if |Stack(r, t)| > |st| {
      PushFits(OwnershipOf(s), t, st, PumpChecked);
      OneStack(s, r, t);
    } else {
      ReplaceKeeps(s, r, t, Top(Stack(r, t)));
    }
  }

  lemma NotifyKeeps(s: State, t: nat)
    requires OwnInv(s) && |Stack(s, t)| > 0 && Owing(Top(Stack(s, t)))
    ensures OwnInv(NotifyStep(s, t))
  {
    var f := Top(Stack(s, t));
    if f.NotifyOwed? { PopKeeps(s, NotifyStep(s, t), t); }
    else { ReplaceKeeps(s, NotifyStep(s, t), t, InCallback(f.id)); }
  }

  lemma MoveKeeps(s: State, t: nat, hostNs: int)
    requires OwnInv(s) && MoveEnabled(s, t)
    ensures OwnInv(MoveStep(s, t, hostNs))
  {
    var f := Top(Stack(s, t));
    if Owing(f) { NotifyKeeps(s, t); }
    else if f.PumpChecked? { ReplaceKeeps(s, MoveStep(s, t, hostNs), t, Entering(s.uptimeNs, false, -1)); }
    else if f.Entering? { EnterKeeps(s, t); }
    else if f.Draining? { DrainKeeps(s, t, hostNs); }
    else if f.Releasing? { ReleaseKeeps(s, t); }
    else if f.InCallback? { PopKeeps(s, Pop(s, t), t); }
    else if f.Joining? { assert JoinFits(s, Stack(s, t)); PopKeeps(s, JoinStep(s, t), t); }
    else { WorkerKeeps(s, t); }
  }

  lemma StepKeeps(s: State, e: Event)
    requires OwnInv(s) && Enabled(s, e)
    ensures OwnInv(Step(s, e))
  {
    match e
    case Call(t, op) => CallKeeps(s, t, op);
    case Move(t, hostNs) => MoveKeeps(s, t, hostNs);
    case Wake(t) => ReplaceKeeps(s, Step(s, e), t, WorkerLoop);
    case HostTime(_) => OneStack(s, Step(s, e), WORKER);
  }

  // ---------- Whole runs ----------

  lemma PowerOnOwned(autoSync: bool)
    ensures OwnInv(PowerOn(autoSync))
  {
  }

  lemma {:induction false} RunKeeps(s: State, run: seq<Event>)
    requires OwnInv(s) && Runs(s, run)
    ensures OwnInv(After(s, run))
    decreases |run|
  {
    if |run| > 0 {
      StepKeeps(s, run[0]);
      RunKeeps(Step(s, run[0]), run[1..]);
    }
  }

  /** Single delivery owner: in every reachable state at most one frame of one thread is inside
      the drain, and there is one exactly when delivery is marked active. */
  lemma SingleOwner(s: State, t: nat, i: nat, u: nat, j: nat)
    requires OwnInv(s) && i < |Stack(s, t)| && IsDrain(Stack(s, t)[i]) && j < |Stack(s, u)| && IsDrain(Stack(s, u)[j])
    ensures t == u && i == j && s.active && s.service.Running?
  {
    assert FrameFits(OwnershipOf(s), t, Stack(s, t), i);
    assert FrameFits(OwnershipOf(s), u, Stack(s, u), j);
  }

  /** While a callback runs or is about to, the service is running and its thread owns delivery. */
  lemma CallbackIsOwned(s: State, t: nat, i: nat)
    requires OwnInv(s) && i < |Stack(s, t)| && Calling(Stack(s, t)[i])
    ensures s.active && s.owner == t && s.depth == i - 1 && s.service.Running?
  {
    assert FrameFits(OwnershipOf(s), t, Stack(s, t), i);
    assert FrameFits(OwnershipOf(s), t, Stack(s, t), i - 1);
  }

  /** Once shutdown has begun, no step claims an alarm or starts a callback, although the drain
      loop never looks at the service state again. */
  lemma NothingAfterShutdown(s: State, e: Event)
    requires OwnInv(s) && Enabled(s, e) && !s.service.Running?
    ensures var r := Step(s, e); !r.service.Running? && r.claimed == s.claimed && r.called == s.called
  {
    if e.Move? {
      var st := Stack(s, e.t);
      assert FrameFits(OwnershipOf(s), e.t, st, |st| - 1);
      assert Top(st).ClaimNotify? ==> FrameFits(OwnershipOf(s), e.t, st, |st| - 2);
    }
  }

  lemma {:induction false} ShutdownIsFinal(s: State, run: seq<Event>)
    requires OwnInv(s) && Runs(s, run) && !s.service.Running?
    ensures var r := After(s, run); !r.service.Running? && r.claimed == s.claimed && r.called == s.called
    decreases |run|
  {
    if |run| > 0 {
      StepKeeps(s, run[0]);
      NothingAfterShutdown(s, run[0]);
      ShutdownIsFinal(Step(s, run[0]), run[1..]);
    }
  }
}
