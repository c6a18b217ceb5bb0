/** No delay is dropped: while the service runs, every delay that was called for has completed or
    its call has not returned. */
module AlarmCompletion {
  import opened Int64
  import opened AlarmProtocol
  import opened AlarmReservations
  import AlarmOwnership

  /** The delay that a frame works for, or -1. */
  function TicketOf(f: Frame): int {
    match f
    case Entering(_, _, ticket) => ticket
    case Draining(_, _, ticket) => ticket
    case Releasing(ticket) => ticket
    case _ => -1
  }

  ghost predicate HeldAt(st: seq<Frame>, i: nat, k: nat) {
    i < |st| && TicketOf(st[i]) == k
  }

  /** Some thread is inside the call of delay `k`. */
  ghost predicate Held(s: State, k: nat) {
    exists t, i: nat :: HeldAt(Stack(s, t), i, k)
  }

  ghost predicate Kept(s: State, k: nat)
    requires k < |s.delays|
  {
    s.delays[k].completed || Held(s, k)
  }

  ghost predicate NoneDropped(s: State) {
    s.service.Running? ==> forall k: nat :: k < |s.delays| ==> Kept(s, k)
  }

  /** Delay `k` stays as it is unless the top frame of thread `t` worked for it. */
  lemma HeldStays(s: State, r: State, t: nat, k: nat)
    requires Held(s, k) && (forall u :: u != t ==> Stack(r, u) == Stack(s, u) || Stack(s, u) == [])
    requires |Stack(s, t)| > 0 ==> Stack(s, t)[..|Stack(s, t)| - 1] <= Stack(r, t)
    requires |Stack(s, t)| > 0 && TicketOf(Top(Stack(s, t))) == k ==> Stack(s, t) <= Stack(r, t)
    ensures Held(r, k)
  {
    var u, i: nat :| HeldAt(Stack(s, u), i, k);
    assert u == t && i < |Stack(s, t)| - 1 ==> Stack(r, t)[i] == Stack(s, t)[i];
    assert HeldAt(Stack(r, u), i, k);
  }

  /** A step of thread `t` that neither reserves nor completes, off a frame without a ticket. */
  lemma OthersKept(s: State, r: State, t: nat)
    requires NoneDropped(s) && r.delays == s.delays && (r.service.Running? ==> s.service.Running?)
    requires forall u :: u != t ==> Stack(r, u) == Stack(s, u) || Stack(s, u) == []
    requires |Stack(s, t)| > 0 ==> Stack(s, t)[..|Stack(s, t)| - 1] <= Stack(r, t)
    requires |Stack(s, t)| > 0 && TicketOf(Top(Stack(s, t))) >= 0 ==> Stack(s, t) <= Stack(r, t)
    ensures NoneDropped(r)
  {
    if r.service.Running? {
      forall k: nat | k < |r.delays| ensures Kept(r, k) {
        assert Kept(s, k);
        if !s.delays[k].completed { HeldStays(s, r, t, k); }
      }
    }
  }

  /** A step that replaces the top frame by one for the same delay. */
  lemma HandedOn(s: State, r: State, t: nat)
    requires NoneDropped(s) && r.delays == s.delays && (r.service.Running? ==> s.service.Running?)
    requires |Stack(s, t)| > 0 && |Stack(r, t)| == |Stack(s, t)|
    requires forall u :: u != t ==> Stack(r, u) == Stack(s, u)
    requires Stack(s, t)[..|Stack(s, t)| - 1] <= Stack(r, t) && TicketOf(Top(Stack(r, t))) == TicketOf(Top(Stack(s, t)))
    ensures NoneDropped(r)
  {
    if r.service.Running? {
      forall k: nat | k < |r.delays| ensures Kept(r, k) {
        assert Kept(s, k);
        if !s.delays[k].completed {
          if TicketOf(Top(Stack(s, t))) == k {
            assert HeldAt(Stack(r, t), |Stack(r, t)| - 1, k);
          } else {
            HeldStays(s, r, t, k);
          }
        }
      }
    }
  }

  /** A step that completes the delay of the top frame. */
  lemma Completes(s: State, r: State, t: nat)
    requires NoneDropped(s) && s.service.Running? && |Stack(s, t)| > 0
    requires r.delays == Complete(s, TicketOf(Top(Stack(s, t)))).delays
    requires forall u :: u != t ==> Stack(r, u) == Stack(s, u)
    requires Stack(s, t)[..|Stack(s, t)| - 1] <= Stack(r, t)
    ensures NoneDropped(r)
  {
    forall k: nat | k < |r.delays| ensures Kept(r, k) {
      assert Kept(s, k);
      if !s.delays[k].completed && TicketOf(Top(Stack(s, t))) != k { HeldStays(s, r, t, k); }
    }
  }

  lemma EnterKept(s: State, t: nat)
    requires NoneDropped(s) && |Stack(s, t)| > 0 && Top(Stack(s, t)).Entering?
    ensures NoneDropped(EnterStep(s, t))
  {
    var r := EnterStep(s, t);
    if s.service.Running? {
      if s.active { Completes(s, r, t); } else { HandedOn(s, r, t); }
    }
  }

  lemma DrainKept(s: State, t: nat, hostNs: int)
    requires NoneDropped(s) && |Stack(s, t)| > 0 && Top(Stack(s, t)).Draining?
    ensures NoneDropped(DrainStep(s, t, hostNs))
  {
    var f, r := Top(Stack(s, t)), DrainStep(s, t, hostNs);
    var now := Advance(s, f.limitNs, f.advance, hostNs);
    assert now == s.(uptimeNs := now.uptimeNs);
    if HeadDue(now) { OthersKept(s, r, t); } else { HandedOn(s, r, t); }
  }

  lemma ReleaseKept(s: State, t: nat)
    requires NoneDropped(s) && |Stack(s, t)| > 0 && Top(Stack(s, t)).Releasing?
    ensures NoneDropped(ReleaseStep(s, t))
  {
    if s.service.Running? { Completes(s, ReleaseStep(s, t), t); }
  }

  lemma WorkerKept(s: State, t: nat)
    requires NoneDropped(s) && |Stack(s, t)| > 0 && (Top(Stack(s, t)).WorkerLoop? || Top(Stack(s, t)).WorkerCheck?)
    ensures NoneDropped(WorkerStep(s, t))
  {
    OthersKept(s, WorkerStep(s, t), t);
  }

  lemma MoveKept(s: State, t: nat, hostNs: int)
    requires NoneDropped(s) && MoveEnabled(s, t)
    ensures NoneDropped(MoveStep(s, t, hostNs))
  {
    match Top(Stack(s, t))
    case Entering(_, _, _) => EnterKept(s, t);
    case Draining(_, _, _) => DrainKept(s, t, hostNs);
    case Releasing(_) => ReleaseKept(s, t);
    case WorkerLoop => WorkerKept(s, t);
    case WorkerCheck(_, _, _) => WorkerKept(s, t);
    case NotifyOwed => PlainMoveKept(s, t, hostNs);
    case ClaimNotify(_) => PlainMoveKept(s, t, hostNs);
    case PumpChecked => PlainMoveKept(s, t, hostNs);
    case InCallback(_) => PlainMoveKept(s, t, hostNs);
    case Joining => PlainMoveKept(s, t, hostNs);
  }

  lemma PlainMoveKept(s: State, t: nat, hostNs: int)
    requires NoneDropped(s) && MoveEnabled(s, t)
    requires var f := Top(Stack(s, t)); Owing(f) || f.PumpChecked? || f.InCallback? || f.Joining?
    ensures NoneDropped(MoveStep(s, t, hostNs))
  {
    OthersKept(s, MoveStep(s, t, hostNs), t);
  }

  lemma DelayKept(s: State, t: nat, us: nat)
    requires NoneDropped(s) && CallEnabled(s, t, DelayFor(us))
    ensures NoneDropped(DoDelay(s, t, us))
  {
    var r, n := DoDelay(s, t, us), |s.delays|;
    forall k: nat | k < |r.delays| ensures Kept(r, k) {
      if k == n {
        assert HeldAt(Stack(r, t), |Stack(s, t)|, n);
      } else {
        assert Kept(s, k);
        if !s.delays[k].completed { HeldStays(s, r, t, k); }
      }
    }
  }

  lemma CallKept(s: State, t: nat, op: Op)
    requires AlarmOwnership.OwnInv(s) && NoneDropped(s) && CallEnabled(s, t, op)
    ensures NoneDropped(CallStep(s, t, op))
  {
    if op.DelayFor? { DelayKept(s, t, op.us); } else { PlainCallKept(s, t, op); }
  }

  lemma PlainCallKept(s: State, t: nat, op: Op)
    requires AlarmOwnership.OwnInv(s) && NoneDropped(s) && CallEnabled(s, t, op) && !op.DelayFor?
    ensures NoneDropped(CallStep(s, t, op))
  {
    var r := CallStep(s, t, op);
    CallReserves(s, t, op);
    if r != s { OthersKept(s, r, t); }
  }

  lemma StepKept(s: State, e: Event)
    requires AlarmOwnership.OwnInv(s) && NoneDropped(s) && Enabled(s, e)
    ensures NoneDropped(Step(s, e))
  {
    match e
    case Call(t, op) => CallKept(s, t, op);
    case Move(t, hostNs) => MoveKept(s, t, hostNs);
    case Wake(t) => OthersKept(s, Step(s, e), t);
    case HostTime(_) => OthersKept(s, Step(s, e), WORKER);
  }

  lemma PowerOnKept(autoSync: bool)
    ensures NoneDropped(PowerOn(autoSync))
  {
  }

  /** In every run, while the service is running, every delay has completed or its call has not
      returned yet. */
  lemma {:induction false} NoDelayIsDropped(s: State, run: seq<Event>)
    requires AlarmOwnership.OwnInv(s) && NoneDropped(s) && Runs(s, run)
    ensures AlarmOwnership.OwnInv(After(s, run)) && NoneDropped(After(s, run))
    decreases |run|
  {
    if |run| > 0 {
      AlarmOwnership.StepKeeps(s, run[0]);
      StepKept(s, run[0]);
      NoDelayIsDropped(Step(s, run[0]), run[1..]);
    }
  }

  lemma {:induction false} AllCompleted(s: State, n: nat)
    requires n <= |s.delays| && forall k :: 0 <= k < n ==> s.delays[k].completed
    ensures CompletedTo(s.delays, n) == SumTo(s.delays, n)
  {
    if n > 0 { AllCompleted(s, n - 1); }
  }

  /** Whenever nobody is inside a running service, the uptime covers every delay ever called for. */
  lemma IdleMeansElapsed(s: State)
    requires ResInv(s) && NoneDropped(s) && s.service.Running? && forall t :: Stack(s, t) == []
    ensures SumTo(s.delays, |s.delays|) <= s.uptimeNs
  {
    forall k: nat | k < |s.delays| ensures s.delays[k].completed { assert Kept(s, k); }
    AllCompleted(s, |s.delays|);
    CompletedDelaysElapsed(s, |s.delays|);
  }

  function Total(calls: seq<nat>): nat {
    if |calls| == 0 then 0 else Total(calls[..|calls| - 1]) + calls[|calls| - 1]
  }

  lemma {:induction false} CalledTotal(d: seq<Delay>, calls: seq<nat>)
    requires |d| == |calls| && forall k :: 0 <= k < |d| ==> d[k].durationNs == calls[k] * NANOS_PER_MICRO
    ensures SumTo(d, |d|) == Total(calls) * NANOS_PER_MICRO
    decreases |d|
  {
    if |d| > 0 {
      var n := |d| - 1;
      CalledTotal(d[..n], calls[..n]);
      SumToSame(d, d[..n], n);
    }
  }

  /** From power-on, whenever nobody is inside a running service, the uptime is at least the sum of
      all delays that the run called for, on any thread and at any nesting depth. */
  lemma EveryDelayElapses(s: State, run: seq<Event>)
    requires s == PowerOn(s.autoSync) && Runs(s, run)
    requires After(s, run).service.Running? && forall t :: Stack(After(s, run), t) == []
    ensures Total(DelayCalls(run)) * NANOS_PER_MICRO <= After(s, run).uptimeNs
  {
    var r := After(s, run);
    PowerOnReserved(s.autoSync);
    AlarmOwnership.PowerOnOwned(s.autoSync);
    AlarmReservations.RunKeeps(s, run);
    NoDelayIsDropped(s, run);
    DelaysAreCalls(s, run);
    IdleMeansElapsed(r);
    CalledTotal(r.delays, DelayCalls(run));
  }
}
