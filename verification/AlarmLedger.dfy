/** Alarm conservation over every interleaving of the alarm service. */
module AlarmLedger {
  import opened Int64
  import opened AlarmQueue
  import opened AlarmProtocol
  import opened AlarmOwnership

  function Elements(q: seq<nat>): set<nat> {
    set x | x in q
  }

  ghost predicate Distinct(q: seq<nat>) {
    forall i, j :: 0 <= i < j < |q| ==> q[i] != q[j]
  }

  /** The ids below the bound are exactly those in the four parts, each in one of them. */
  ghost predicate Partition(bound: nat, a: set<nat>, b: set<nat>, c: set<nat>, d: set<nat>) {
    && (forall x: nat :: 0 < x < bound <==> x in a || x in b || x in c || x in d)
    && a !! b && a !! c && a !! d && b !! c && b !! d && c !! d
  }

  ghost predicate QueueFits(s: State) {
    && s.nextId < UINT64_SPAN
    && Sorted(s.alarms) && DistinctIds(s.alarms)
    && forall e :: e in s.alarms ==> MIN_ALARM_US <= e.deadline <= MAX_ALARM_US
  }

  ghost predicate LedgerInv(s: State) {
    && QueueFits(s)
    && Distinct(s.claimed)
    && Partition(IdBound(s.nextId), Ids(s.alarms), Elements(s.claimed), s.cancelled, s.discarded)
  }

  // ---------- The steps that move an id ----------

  lemma InsertId(q: seq<Alarm>, e: Alarm)
    requires Sorted(q) && DistinctIds(q) && forall x :: x in Ids(q) ==> x < e.id
    ensures Sorted(Insert(q, e)) && DistinctIds(Insert(q, e))
    ensures Ids(Insert(q, e)) == Ids(q) + {e.id}
    ensures forall x :: x in Insert(q, e) ==> x == e || x in q
  {
    forall i | 0 <= i < |q| ensures q[i].id < e.id { assert q[i].id in Ids(q); }
    InsertKeepsOrder(q, e);
  }

  lemma ScheduleLedger(s: State, t: nat, deadlineUs: int)
    requires LedgerInv(s) && CallEnabled(s, t, Schedule(deadlineUs))
    ensures LedgerInv(DoSchedule(s, t, deadlineUs))
  {
    var r, e := DoSchedule(s, t, deadlineUs), Entry(deadlineUs, s.nextId, ());
    InsertId(s.alarms, e);
    assert r.alarms == Insert(s.alarms, e);
    assert s.nextId !in Ids(s.alarms) && s.nextId !in Elements(s.claimed);
    assert s.nextId !in s.cancelled && s.nextId !in s.discarded;
  }

  lemma CancelLedger(s: State, t: nat, id: nat)
    requires LedgerInv(s)
    ensures LedgerInv(DoCancel(s, t, id))
  {
    var k := Find(s.alarms, id);
    if id != 0 && k < |s.alarms| {
      RemoveKeepsOrder(s.alarms, k);
      var r := DoCancel(s, t, id);
      assert r.alarms == RemoveAt(s.alarms, k);
      assert id in Ids(s.alarms);
    }
  }

  lemma ClaimLedger(s: State, r: State)
    requires LedgerInv(s) && |s.alarms| > 0
    requires r.alarms == s.alarms[1..] && r.claimed == s.claimed + [s.alarms[0].id]
    requires r.nextId == s.nextId && r.cancelled == s.cancelled && r.discarded == s.discarded
    ensures LedgerInv(r)
  {
    var id := s.alarms[0].id;
    RemoveKeepsOrder(s.alarms, 0);
    assert RemoveAt(s.alarms, 0) == s.alarms[1..];
    assert id in Ids(s.alarms);
    assert Elements(r.claimed) == Elements(s.claimed) + {id};
    forall i | 0 <= i < |s.claimed| ensures s.claimed[i] != id { assert s.claimed[i] in Elements(s.claimed); }
  }

  /** A step that moves no id. */
  lemma SameLedger(s: State, r: State)
    requires LedgerInv(s)
    requires r.alarms == s.alarms && r.nextId == s.nextId && r.claimed == s.claimed
    requires r.cancelled == s.cancelled && r.discarded == s.discarded
    ensures LedgerInv(r)
  {
  }

  lemma DrainLedger(s: State, t: nat, hostNs: int)
    requires LedgerInv(s) && |Stack(s, t)| > 0 && Top(Stack(s, t)).Draining?
    ensures LedgerInv(DrainStep(s, t, hostNs))
  {
    var f := Top(Stack(s, t));
    var now := Advance(s, f.limitNs, f.advance, hostNs);
    assert now == s.(uptimeNs := now.uptimeNs);
    if HeadDue(now) {
      ClaimLedger(s, DrainStep(s, t, hostNs));
    } else {
      SameLedger(s, DrainStep(s, t, hostNs));
    }
  }

  lemma JoinLedger(s: State, t: nat)
    requires LedgerInv(s) && |Stack(s, t)| > 0
    ensures LedgerInv(JoinStep(s, t))
  {
    var r := JoinStep(s, t);
    assert Ids(r.alarms) == {} && r.claimed == s.claimed;
  }

  lemma StepLedger(s: State, e: Event)
    requires LedgerInv(s) && Enabled(s, e)
    ensures LedgerInv(Step(s, e))
  {
    match e
    case Call(t, op) =>
      if op.Schedule? { ScheduleLedger(s, t, op.deadlineUs); }
      else if op.Cancel? { CancelLedger(s, t, op.id); }
      else { SameLedger(s, CallStep(s, t, op)); }
    case Move(t, hostNs) =>
      var f := Top(Stack(s, t));
      if f.Draining? { DrainLedger(s, t, hostNs); }
      else if f.Joining? { JoinLedger(s, t); }
      else if f.ClaimNotify? { SameLedger(s, NotifyStep(s, t)); }
      else {
        MoveShape(s, t, hostNs);
        MoveRecorded(s, t, hostNs);
        SameLedger(s, MoveStep(s, t, hostNs));
      }
    case Wake(t) => SameLedger(s, Step(s, e));
    case HostTime(_) => SameLedger(s, Step(s, e));
  }

  // ---------- Claims and callbacks ----------

  /** At most one claimed alarm waits for its callback, and it is the last one claimed. */
  predicate CallFits(s: State, st: seq<Frame>) {
    |st| > 0 && Top(st).ClaimNotify? ==> |s.claimed| == |s.called| + 1 && Top(st).id == s.claimed[|s.called|]
  }

  ghost predicate CallInv(s: State) {
    && s.called <= s.claimed
    && |s.claimed| <= |s.called| + 1
    && (forall t :: CallFits(s, Stack(s, t)))
    && (|s.claimed| > |s.called| ==>
          s.active && s.depth + 1 < |Stack(s, s.owner)| && Stack(s, s.owner)[s.depth + 1].ClaimNotify?)
  }

  /** The thread that owes a callback can only go on to run it. */
  lemma OwedCallback(s: State)
    requires OwnInv(s) && CallInv(s) && |s.claimed| > |s.called|
    ensures var st := Stack(s, s.owner); |st| == s.depth + 2 && Top(st).ClaimNotify?
  {
    var st := Stack(s, s.owner);
    assert AlarmOwnership.FrameFits(OwnershipOf(s), s.owner, st, s.depth + 1);
  }

  /** A step of a thread that is not about to run a callback, and that claims nothing. */
  lemma OtherStep(s: State, r: State, t: nat)
    requires OwnInv(s) && CallInv(s) && r.claimed == s.claimed && r.called == s.called
    requires |Stack(s, t)| > 0 ==> !Top(Stack(s, t)).ClaimNotify?
    requires |Stack(r, t)| > 0 ==> !Top(Stack(r, t)).ClaimNotify?
    requires forall u :: u != t ==> Stack(r, u) == Stack(s, u) || (Stack(s, u) == [] && Stack(r, u) == [WorkerLoop])
    requires s.active && s.owner != t ==> OwnershipOf(r) == OwnershipOf(s)
    ensures CallInv(r)
  {
    if |s.claimed| > |s.called| {
      OwedCallback(s);
      assert s.owner != t;
    }
    forall u ensures CallFits(r, Stack(r, u)) { assert CallFits(s, Stack(s, u)); }
  }

  lemma BeginCallback(s: State, t: nat)
    requires OwnInv(s) && CallInv(s) && |Stack(s, t)| > 0 && Top(Stack(s, t)).ClaimNotify?
    ensures CallInv(NotifyStep(s, t))
  {
    var r := NotifyStep(s, t);
    assert CallFits(s, Stack(s, t));
    CallbackIsOwned(s, t, |Stack(s, t)| - 1);
    forall u ensures CallFits(r, Stack(r, u)) {
      if u != t {
        assert Stack(r, u) == Stack(s, u);
        if |Stack(s, u)| > 0 && Top(Stack(s, u)).ClaimNotify? { CallbackIsOwned(s, u, |Stack(s, u)| - 1); }
      }
    }
  }

  lemma ClaimOwesCallback(s: State, t: nat, hostNs: int)
    requires OwnInv(s) && CallInv(s) && |Stack(s, t)| > 0 && Top(Stack(s, t)).Draining?
    ensures CallInv(DrainStep(s, t, hostNs))
  {
    var r, f, st := DrainStep(s, t, hostNs), Top(Stack(s, t)), Stack(s, t);
    var now := Advance(s, f.limitNs, f.advance, hostNs);
    assert now == s.(uptimeNs := now.uptimeNs);
    assert AlarmOwnership.FrameFits(OwnershipOf(s), t, st, |st| - 1);
    if |s.claimed| > |s.called| { OwedCallback(s); }
    assert |s.claimed| == |s.called|;
    if HeadDue(now) {
      assert Stack(r, t) == st + [ClaimNotify(now.alarms[0].id)];
      forall u ensures CallFits(r, Stack(r, u)) {
        if u != t { assert Stack(r, u) == Stack(s, u) && CallFits(s, Stack(s, u)); }
      }
    } else {
      OtherStep(s, r, t);
    }
  }

  lemma CallStepCalls(s: State, t: nat, op: Op)
    requires OwnInv(s) && CallInv(s) && CallEnabled(s, t, op)
    ensures CallInv(CallStep(s, t, op))
  {
    CallShape(s, t, op);
    OtherStep(s, CallStep(s, t, op), t);
  }

  lemma PlainMoveCalls(s: State, t: nat, hostNs: int)
    requires OwnInv(s) && CallInv(s) && MoveEnabled(s, t)
    requires var f := Top(Stack(s, t)); !f.ClaimNotify? && !f.Draining?
    ensures CallInv(MoveStep(s, t, hostNs))
  {
    var r, st := MoveStep(s, t, hostNs), Stack(s, t);
    assert |st| > 1 ==> AlarmOwnership.FrameFits(OwnershipOf(s), t, st, |st| - 2);
    assert AlarmOwnership.FrameFits(OwnershipOf(s), t, st, |st| - 1);
    MoveShape(s, t, hostNs);
    OtherStep(s, r, t);
  }

  /** What a move other than a claim or the start of a callback does to stacks and ownership. */
  ghost predicate PlainShape(s: State, r: State, t: nat)
    requires |Stack(s, t)| > 0
  {
    var st := Stack(s, t);
    && r.claimed == s.claimed && r.called == s.called
    && (forall u :: u != t ==> Stack(r, u) == Stack(s, u))
    && (Stack(r, t) == st[..|st| - 1] || (|Stack(r, t)| > 0 && !Top(Stack(r, t)).ClaimNotify?))
    && (s.active && !Top(st).Releasing? ==> OwnershipOf(r) == OwnershipOf(s))
  }

  lemma MoveShape(s: State, t: nat, hostNs: int)
    requires MoveEnabled(s, t)
    requires var f := Top(Stack(s, t)); !f.ClaimNotify? && !f.Draining?
    ensures PlainShape(s, MoveStep(s, t, hostNs), t)
  {
    var r, f := MoveStep(s, t, hostNs), Top(Stack(s, t));
    if f.Entering? {
      EnterShape(s, t);
    } else if f.Releasing? {
      ReleaseShape(s, t);
    } else if f.WorkerLoop? || f.WorkerCheck? {
      WorkerShape(s, t);
    } else if f.PumpChecked? {
      assert r == Replace(s, t, Entering(s.uptimeNs, false, -1));
    } else {
      assert r.threads == Pop(s, t).threads;
    }
  }

  lemma EnterShape(s: State, t: nat)
    requires |Stack(s, t)| > 0 && Top(Stack(s, t)).Entering?
    ensures PlainShape(s, EnterStep(s, t), t)
  {
  }

  lemma ReleaseShape(s: State, t: nat)
    requires |Stack(s, t)| > 0 && Top(Stack(s, t)).Releasing?
    ensures PlainShape(s, ReleaseStep(s, t), t)
  {
  }

  lemma WorkerShape(s: State, t: nat)
    requires |Stack(s, t)| > 0 && (Top(Stack(s, t)).WorkerLoop? || Top(Stack(s, t)).WorkerCheck?)
    ensures PlainShape(s, WorkerStep(s, t), t)
  {
  }

  lemma StepCalls(s: State, e: Event)
    requires OwnInv(s) && CallInv(s) && Enabled(s, e)
    ensures CallInv(Step(s, e))
  {
    match e
    case Call(t, op) => CallStepCalls(s, t, op);
    case Move(t, hostNs) =>
      var f := Top(Stack(s, t));
      if f.ClaimNotify? { BeginCallback(s, t); }
      else if f.Draining? { ClaimOwesCallback(s, t, hostNs); }
      else { PlainMoveCalls(s, t, hostNs); }
    case Wake(t) => OtherStep(s, Step(s, e), t);
    case HostTime(_) =>
      var r := Step(s, e);
      assert forall u :: Stack(r, u) == Stack(s, u);
      forall u ensures CallFits(r, Stack(r, u)) { assert CallFits(s, Stack(s, u)); }
  }

  // ---------- Whole runs ----------

  ghost predicate Inv(s: State) {
    OwnInv(s) && LedgerInv(s) && CallInv(s)
  }

  /** History only grows. */
  ghost predicate Recorded(s: State, r: State) {
    && s.claimed <= r.claimed && s.called <= r.called
    && s.cancelled <= r.cancelled && s.discarded <= r.discarded
    && IdBound(s.nextId) <= IdBound(r.nextId)
  }

  lemma StepRecorded(s: State, e: Event)
    requires LedgerInv(s) && Enabled(s, e)
    ensures Recorded(s, Step(s, e))
  {
    if e.Move? {
      var f := Top(Stack(s, e.t));
      if f.Draining? {
        DrainRecorded(s, e.t, e.hostNs);
      } else if f.ClaimNotify? {
        assert Step(s, e) == NotifyStep(s, e.t);
      } else {
        MoveShape(s, e.t, e.hostNs);
        MoveRecorded(s, e.t, e.hostNs);
      }
    } else if e.Call? {
      CallRecorded(s, e.t, e.op);
    }
  }

  lemma CallRecorded(s: State, t: nat, op: Op)
    requires LedgerInv(s) && CallEnabled(s, t, op)
    ensures Recorded(s, CallStep(s, t, op))
  {
    if op.Schedule? {
      var r := DoSchedule(s, t, op.deadlineUs);
      assert r.claimed == s.claimed && r.called == s.called;
    } else if op.Cancel? {
      var r := DoCancel(s, t, op.id);
      assert r.claimed == s.claimed && r.called == s.called;
    }
  }

  lemma DrainRecorded(s: State, t: nat, hostNs: int)
    requires |Stack(s, t)| > 0 && Top(Stack(s, t)).Draining?
    ensures Recorded(s, DrainStep(s, t, hostNs))
  {
    var f := Top(Stack(s, t));
    var now := Advance(s, f.limitNs, f.advance, hostNs);
    assert now == s.(uptimeNs := now.uptimeNs);
  }

  lemma MoveRecorded(s: State, t: nat, hostNs: int)
    requires MoveEnabled(s, t)
    requires var f := Top(Stack(s, t)); !f.ClaimNotify? && !f.Draining?
    ensures var r := MoveStep(s, t, hostNs);
            && r.cancelled == s.cancelled && s.discarded <= r.discarded && r.nextId == s.nextId
            && (!Top(Stack(s, t)).Joining? ==> r.alarms == s.alarms && r.discarded == s.discarded)
  {
    var r, f := MoveStep(s, t, hostNs), Top(Stack(s, t));
    if f.Entering? { assert r == EnterStep(s, t); }
    else if f.Releasing? { assert r == ReleaseStep(s, t); }
    else if f.Joining? { assert r == JoinStep(s, t); }
  }

  lemma PowerOnLedger(autoSync: bool)
    ensures Inv(PowerOn(autoSync))
  {
    assert Ids(PowerOn(autoSync).alarms) == {};
  }

  /** Alarm conservation, over every run: ids never repeat, every id issued is in exactly one of
      pending, claimed, cancelled and discarded, and callbacks start in claim order, each for a
      claim of its own. */
  lemma {:induction false} RunKeepsLedger(s: State, run: seq<Event>)
    requires Inv(s) && Runs(s, run)
    ensures Inv(After(s, run)) && Recorded(s, After(s, run))
    decreases |run|
  {
    if |run| > 0 {
      StepKeeps(s, run[0]);
      StepLedger(s, run[0]);
      StepCalls(s, run[0]);
      StepRecorded(s, run[0]);
      RunKeepsLedger(Step(s, run[0]), run[1..]);
    }
  }

  /** A claim takes the earliest pending alarm, first registered first, and only once it is due. */
  lemma ClaimIsEarliest(s: State, t: nat, hostNs: int)
    requires LedgerInv(s) && |Stack(s, t)| > 0 && Top(Stack(s, t)).Draining?
    requires DrainStep(s, t, hostNs).claimed != s.claimed
    ensures var r := DrainStep(s, t, hostNs);
            exists e :: e in s.alarms && r.claimed == s.claimed + [e.id]
                        && e.deadline * NANOS_PER_MICRO <= r.uptimeNs
                        && forall x :: x in s.alarms && x != e ==> Before(e, x)
  {
    var f := Top(Stack(s, t));
    var now := Advance(s, f.limitNs, f.advance, hostNs);
    assert now == s.(uptimeNs := now.uptimeNs);
    var e := s.alarms[0];
    assert forall x :: x in s.alarms && x != e ==> Before(e, x);
  }

  /** A cancel before the claim wins for ever: the callback never runs, in any continuation. */
  lemma CancelledNeverRuns(s: State, run: seq<Event>, id: nat)
    requires Inv(s) && Runs(s, run) && id in s.cancelled
    ensures id !in After(s, run).claimed && id !in After(s, run).called
  {
    RunKeepsLedger(s, run);
    var r := After(s, run);
    assert id !in Elements(r.claimed);
    assert forall i :: 0 <= i < |r.called| ==> r.called[i] == r.claimed[i];
  }

  /** Each callback runs at most once. */
  lemma CallbackRunsOnce(s: State, run: seq<Event>, i: nat, j: nat)
    requires Inv(s) && Runs(s, run) && i < |After(s, run).called| && j < |After(s, run).called|
    requires After(s, run).called[i] == After(s, run).called[j]
    ensures i == j
  {
    RunKeepsLedger(s, run);
    var r := After(s, run);
    assert forall k :: 0 <= k < |r.called| ==> r.called[k] == r.claimed[k];
  }
}
