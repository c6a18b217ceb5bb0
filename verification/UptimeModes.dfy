/** What the mode means for the uptime register: in auto-sync mode reads follow the host clock, in
    manual mode they leave the uptime alone, and the mode query answers which of the two it is. */
module UptimeModes {
  import opened Int64
  import opened UptimePublication

  // ---------- The mode query, and reads in manual mode ----------

  ghost predicate CallFits(s: State, c: Call) {
    && (c.pc.ReloadState? ==> !s.init.Uninitialized?)
    && (!s.autoSync && c.op.Read? ==> !c.pc.SampleHost? && !RaisePc(c.pc) && Unlanded(s.log, c.no))
  }

  ghost predicate AnswerFits(s: State, n: nat)
    requires n in s.done
  {
    && (s.done[n].op.QueryMode? ==> s.done[n].result == if s.autoSync then 1 else 0)
    && (!s.autoSync && s.done[n].op.Read? ==> Unlanded(s.log, n))
  }

  ghost predicate ModeInv(s: State) {
    && (forall t :: t in s.threads ==> CallFits(s, s.threads[t]))
    && (forall n :: n in s.done ==> AnswerFits(s, n))
  }

  /** A step of thread `t` that lands nothing. */
  lemma MoveFits(s: State, r: State, t: nat)
    requires ModeInv(s) && t in s.threads && r.autoSync == s.autoSync && r.log == s.log
    requires r.init.Uninitialized? ==> s.init.Uninitialized?
    requires r.done == s.done && t in r.threads && r.threads == s.threads[t := r.threads[t]]
    requires r.threads[t].no == s.threads[t].no && r.threads[t].op == s.threads[t].op
    requires r.threads[t].pc.ReloadState? ==> !r.init.Uninitialized?
    requires !s.autoSync && s.threads[t].op.Read? ==> !r.threads[t].pc.SampleHost? && !RaisePc(r.threads[t].pc)
    ensures ModeInv(r)
  {
    forall u | u in r.threads ensures CallFits(r, r.threads[u]) { assert CallFits(s, s.threads[u]); }
    forall n | n in r.done ensures AnswerFits(r, n) { assert AnswerFits(s, n); }
  }

  lemma ReturnFits(s: State, t: nat, result: int)
    requires ModeInv(s) && t in s.threads
    requires s.threads[t].op.QueryMode? ==> result == if s.autoSync then 1 else 0
    ensures ModeInv(Return(s, t, result))
  {
    var r := Return(s, t, result);
    assert CallFits(s, s.threads[t]);
    forall u | u in r.threads ensures CallFits(r, r.threads[u]) { assert CallFits(s, s.threads[u]); }
    forall n | n in r.done ensures AnswerFits(r, n) { assert n in s.done ==> AnswerFits(s, n); }
  }

  /** A landing, by a call that is not a read in manual mode. */
  lemma LandFits(s: State, t: nat, op: Op, uptimeNs: int)
    requires Inv(s) && ModeInv(s) && t in s.threads && (s.threads[t].op.Read? ==> s.autoSync)
    ensures ModeInv(Land(s.(uptimeNs := uptimeNs), t, op))
  {
    var r := Land(s.(uptimeNs := uptimeNs), t, op);
    forall u | u in r.threads ensures CallFits(r, r.threads[u]) { assert CallFits(s, s.threads[u]); }
    forall n | n in r.done ensures AnswerFits(r, n) { assert AnswerFits(s, n); }
  }

  lemma RaiseLandedFits(s: State, t: nat, floorNs: int, uptimeNs: int)
    requires Inv(s) && ModeInv(s) && t in s.threads && RaisePc(s.threads[t].pc)
    ensures ModeInv(RaiseLanded(s.(uptimeNs := uptimeNs), t, floorNs))
  {
    assert CallFits(s, s.threads[t]) && PcFits(s, s.threads[t]);
    LandFits(s, t, Raise(floorNs), uptimeNs);
    var r := Land(s.(uptimeNs := uptimeNs), t, Raise(floorNs));
    if s.threads[t].op.Read? { MoveFits(r, Goto(r, t, LoadResult), t); } else { ReturnFits(r, t, 0); }
  }

  lemma RaiseFits(s: State, t: nat)
    requires Inv(s) && ModeInv(s) && t in s.threads && RaisePc(s.threads[t].pc)
    ensures ModeInv(RaiseStep(s, t))
  {
    var pc := s.threads[t].pc;
    assert CallFits(s, s.threads[t]) && PcFits(s, s.threads[t]);
    if pc.CasRaise? && s.uptimeNs == pc.expected {
      RaiseLandedFits(s, t, pc.floorNs, pc.floorNs);
    } else if s.uptimeNs < pc.floorNs {
      MoveFits(s, Goto(s, t, CasRaise(pc.floorNs, s.uptimeNs)), t);
    } else {
      RaiseLandedFits(s, t, pc.floorNs, s.uptimeNs);
    }
  }

  lemma AddFits(s: State, t: nat)
    requires Inv(s) && ModeInv(s) && t in s.threads && AddPc(s.threads[t].pc)
    ensures ModeInv(AddStep(s, t))
  {
    var c := s.threads[t];
    assert PcFits(s, c);
    if c.pc.CasAdd? && s.uptimeNs == c.pc.expected {
      LandFits(s, t, c.op, s.uptimeNs + c.op.delta);
      ReturnFits(Land(s.(uptimeNs := s.uptimeNs + c.op.delta), t, c.op), t, 0);
    } else {
      MoveFits(s, Goto(s, t, CasAdd(s.uptimeNs)), t);
    }
  }

  lemma InitFits(s: State, t: nat)
    requires Inv(s) && ModeInv(s) && t in s.threads && (s.threads[t].pc.ClaimInit? || InInit(s.threads[t].pc))
    ensures ModeInv(InitStep(s, t))
  {
    assert PcFits(s, s.threads[t]);
    MoveFits(s, InitStep(s, t), t);
  }

  lemma AfterStateFits(s: State, t: nat)
    requires Inv(s) && ModeInv(s) && t in s.threads && !s.init.Uninitialized?
    requires s.threads[t].pc.LoadState? || s.threads[t].pc.ReloadState?
    ensures ModeInv(AfterState(s, t))
  {
    var c := s.threads[t];
    assert PcFits(s, c);
    if c.op.QueryMode? && !s.init.Initializing? {
      ReturnFits(s, t, if s.init.AutoReady? then 1 else 0);
    } else {
      MoveFits(s, AfterState(s, t), t);
    }
  }

  lemma ReadFits(s: State, t: nat)
    requires Inv(s) && ModeInv(s) && t in s.threads
    requires var pc := s.threads[t].pc; pc.LoadState? || pc.ReloadState? || pc.SampleHost? || pc.LoadResult?
    ensures ModeInv(ReadStep(s, t))
  {
    var c := s.threads[t];
    assert PcFits(s, c) && CallFits(s, c);
    match c.pc
    case LoadState =>
      if s.init.Uninitialized? { MoveFits(s, Goto(s, t, ClaimInit), t); } else { AfterStateFits(s, t); }
    case ReloadState => AfterStateFits(s, t);
    case SampleHost => MoveFits(s, Goto(s, t, LoadForRaise(HostUptime(s))), t);
    case LoadResult => ReturnFits(s, t, s.uptimeNs);
  }

  lemma StartFits(s: State, t: nat, op: Op)
    requires Inv(s) && ModeInv(s) && Enabled(s, Start(t, op))
    ensures ModeInv(Step(s, Start(t, op)))
  {
    var r := Step(s, Start(t, op));
    forall u | u in r.threads ensures CallFits(r, r.threads[u]) { assert u != t ==> CallFits(s, s.threads[u]); }
    forall n | n in r.done ensures AnswerFits(r, n) { assert AnswerFits(s, n); }
  }

  lemma StepFits(s: State, e: Event)
    requires Inv(s) && ModeInv(s) && Enabled(s, e)
    ensures ModeInv(Step(s, e))
  {
    match e
    case Start(t, op) => StartFits(s, t, op);
    case Tick(_) =>
      var r := Step(s, e);
      forall u | u in r.threads ensures CallFits(r, r.threads[u]) { assert CallFits(s, s.threads[u]); }
      forall n | n in r.done ensures AnswerFits(r, n) { assert AnswerFits(s, n); }
    case Spurious(_) =>
    case Advance(t) =>
      var pc := s.threads[t].pc;
      if AddPc(pc) { AddFits(s, t); }
      else if RaisePc(pc) { RaiseFits(s, t); }
      else if pc.ClaimInit? || InInit(pc) { InitFits(s, t); }
      else { ReadFits(s, t); }
  }

  lemma {:induction false} RunFits(s: State, run: seq<Event>)
    requires Inv(s) && ModeInv(s) && Runs(s, run)
    ensures Inv(After(s, run)) && ModeInv(After(s, run))
    decreases |run|
  {
    if |run| > 0 {
      StepKeeps(s, run[0]);
      StepFits(s, run[0]);
      RunFits(Step(s, run[0]), run[1..]);
    }
  }

  /** In every run from power-on: `isAutoSyncEnabled` answers the configured mode, and in manual
      mode no read moves the uptime. */
  lemma ModeIsTold(autoSync: bool, hostNs: int, run: seq<Event>, n: nat)
    requires hostNs <= INT64_MAX && Runs(PowerOn(autoSync, hostNs), run)
    requires n in After(PowerOn(autoSync, hostNs), run).done
    ensures var r := After(PowerOn(autoSync, hostNs), run);
      && (r.done[n].op.QueryMode? ==> (r.done[n].result == 1 <==> autoSync) && 0 <= r.done[n].result <= 1)
      && (!autoSync && r.done[n].op.Read? ==> Unlanded(r.log, n))
  {
    var s := PowerOn(autoSync, hostNs);
    PowerOnIsGood(autoSync, hostNs);
    RunFits(s, run);
    RunKeeps(s, run);
    assert AnswerFits(After(s, run), n);
  }

  // ---------- Reads in auto-sync mode ----------

  /** Call `m`, if it is a read, is on its way to a result of at least `floorNs`. */
  predicate OnCourse(s: State, c: Call, floorNs: int) {
    && !c.pc.ClaimInit?
    && (RaisePc(c.pc) ==> floorNs <= c.pc.floorNs)
    && (c.pc.LoadResult? ==> floorNs <= s.uptimeNs)
  }

  predicate IsRead(c: Call, m: nat) { c.no == m && c.op.Read? }

  ghost predicate Followed(s: State, m: nat, floorNs: int) {
    && s.init.AutoReady? && floorNs <= HostUptime(s)
    && (forall t :: t in s.threads && IsRead(s.threads[t], m) ==> OnCourse(s, s.threads[t], floorNs))
    && (m in s.done && s.done[m].op.Read? ==> floorNs <= s.done[m].result)
  }

  lemma MoveFollows(s: State, r: State, t: nat, m: nat, floorNs: int)
    requires Followed(s, m, floorNs) && Later(s, r) && r.hostNs == s.hostNs && t in s.threads && t in r.threads
    requires r.threads == s.threads[t := s.threads[t].(pc := r.threads[t].pc)] && r.done == s.done
    requires s.threads[t].op.Read? && s.threads[t].no == m ==> OnCourse(r, r.threads[t], floorNs)
    ensures Followed(r, m, floorNs)
  {
    forall u | u in r.threads && IsRead(r.threads[u], m) ensures OnCourse(r, r.threads[u], floorNs) {
      assert u != t ==> OnCourse(s, s.threads[u], floorNs);
    }
  }

  lemma LeaveFollows(s: State, r: State, t: nat, m: nat, floorNs: int)
    requires Followed(s, m, floorNs) && Later(s, r) && r.hostNs == s.hostNs && t in s.threads
    requires r.threads == s.threads - {t}
    requires var c := s.threads[t];
      c.no in r.done && r.done == s.done[c.no := Done(c.op, c.startNs, r.done[c.no].result)]
    requires var c := s.threads[t]; c.no == m && c.op.Read? ==> floorNs <= r.done[c.no].result
    ensures Followed(r, m, floorNs)
  {
    forall u | u in r.threads && IsRead(r.threads[u], m) ensures OnCourse(r, r.threads[u], floorNs) {
      assert OnCourse(s, s.threads[u], floorNs);
    }
  }

  /** One step of a read in auto-sync mode. */
  lemma ReadOnCourse(s: State, t: nat, floorNs: int)
    requires Inv(s) && Enabled(s, Advance(t)) && s.init.AutoReady? && floorNs <= HostUptime(s)
    requires s.threads[t].op.Read? && OnCourse(s, s.threads[t], floorNs)
    ensures var r, c := Step(s, Advance(t)), s.threads[t];
      && r.hostNs == s.hostNs
      && (t in r.threads ==> OnCourse(r, r.threads[t], floorNs))
      && (t !in r.threads ==> c.no in r.done && floorNs <= r.done[c.no].result)
  {
    var c := s.threads[t];
    assert PcFits(s, c);
    if RaisePc(c.pc) {
      assert Step(s, Advance(t)) == RaiseStep(s, t);
    } else {
      assert Step(s, Advance(t)) == ReadStep(s, t);
    }
  }

  lemma HostStays(s: State, t: nat)
    requires Enabled(s, Advance(t))
    ensures Step(s, Advance(t)).hostNs == s.hostNs
  {
    var pc, r := s.threads[t].pc, Step(s, Advance(t));
    if AddPc(pc) { assert r == AddStep(s, t); }
    else if RaisePc(pc) { assert r == RaiseStep(s, t); }
    else if pc.ClaimInit? || InInit(pc) { assert r == InitStep(s, t); }
    else { assert r == ReadStep(s, t); }
  }

  lemma StepFollows(s: State, e: Event, m: nat, floorNs: int)
    requires Inv(s) && Enabled(s, e) && Followed(s, m, floorNs)
    ensures Followed(Step(s, e), m, floorNs)
  {
    StepKeeps(s, e);
    if e.Advance? {
      var r, c := Step(s, e), s.threads[e.t];
      StepTouchesOneCall(s, e.t);
      HostStays(s, e.t);
      if c.no == m && c.op.Read? { ReadOnCourse(s, e.t, floorNs); }
      if e.t in r.threads { MoveFollows(s, r, e.t, m, floorNs); } else { LeaveFollows(s, r, e.t, m, floorNs); }
    } else if e.Start? {
      var r := Step(s, e);
      forall u | u in r.threads && IsRead(r.threads[u], m) ensures OnCourse(r, r.threads[u], floorNs) {
        assert u != e.t ==> OnCourse(s, s.threads[u], floorNs);
      }
    } else {
      var r := Step(s, e);
      forall u | u in r.threads && IsRead(r.threads[u], m) ensures OnCourse(r, r.threads[u], floorNs) {
        assert OnCourse(s, s.threads[u], floorNs);
      }
    }
  }

  lemma {:induction false} RunFollows(s: State, run: seq<Event>, m: nat, floorNs: int)
    requires Inv(s) && Runs(s, run) && Followed(s, m, floorNs)
    ensures Followed(After(s, run), m, floorNs)
    decreases |run|
  {
    if |run| > 0 {
      StepKeeps(s, run[0]);
      StepFollows(s, run[0], m, floorNs);
      RunFollows(Step(s, run[0]), run[1..], m, floorNs);
    }
  }

  /** A read that starts once the mode is auto returns at least what the host clock said when it
      started, whatever else is going on. */
  lemma AutoReadsFollowHost(s: State, run: seq<Event>, m: nat)
    requires Inv(s) && s.init.AutoReady? && Runs(s, run) && s.nextCall <= m
    requires m in After(s, run).done && After(s, run).done[m].op.Read?
    ensures s.hostNs - s.originNs <= After(s, run).done[m].result
  {
    assert forall t :: t in s.threads ==> PcFits(s, s.threads[t]);
    RunFollows(s, run, m, HostUptime(s));
  }

  // ---------- No call stands still ----------

  /** How far a call is from its return, as long as nobody interferes. */
  function Distance(s: State, pc: Pc): nat {
    match pc
    case LoadState => 11
    case ClaimInit => 10
    case SampleOrigin => 9
    case StoreOrigin(_) => 8
    case PublishInit => 7
    case ReloadState => 6
    case SampleHost => 5
    case LoadForRaise(_) => 4
    case CasRaise(_, expected) => if expected == s.uptimeNs then 2 else 3
    case LoadForAdd => 4
    case CasAdd(expected) => if expected == s.uptimeNs then 2 else 3
    case LoadResult => 1
  }

  /** Every step of a call that does not fail spuriously returns or comes closer to its return,
      except that a mode query waits while another thread initialises. */
  lemma StepsComeCloser(s: State, t: nat)
    requires Inv(s) && ModeInv(s) && Enabled(s, Advance(t))
    requires s.threads[t].op.QueryMode? && s.threads[t].pc.ReloadState? ==> !s.init.Initializing?
    ensures var r := Step(s, Advance(t)); t in r.threads ==> Distance(r, r.threads[t].pc) < Distance(s, s.threads[t].pc)
  {
    var c := s.threads[t];
    assert PcFits(s, c) && CallFits(s, c);
    if AddPc(c.pc) { assert Step(s, Advance(t)) == AddStep(s, t); }
    else if RaisePc(c.pc) { assert Step(s, Advance(t)) == RaiseStep(s, t); }
    else if c.pc.ClaimInit? || InInit(c.pc) { assert Step(s, Advance(t)) == InitStep(s, t); }
    else { assert Step(s, Advance(t)) == ReadStep(s, t); }
  }

  // ---------- Nobody but the host moves the time ----------

  /** Only reads and mode queries are made. */
  predicate Passive(e: Event) {
    e.Start? ==> e.op.Read? || e.op.QueryMode?
  }

  predicate PassiveCall(s: State, c: Call, powerOnNs: int) {
    && !c.op.Add? && !c.op.Raise?
    && (c.pc.StoreOrigin? ==> powerOnNs <= c.pc.sampledNs <= s.hostNs)
    && (c.pc.PublishInit? ==> powerOnNs <= s.originNs <= s.hostNs)
    && (RaisePc(c.pc) ==> c.pc.floorNs <= s.hostNs - powerOnNs)
    && (c.pc.SampleHost? || RaisePc(c.pc) ==> s.init.AutoReady?)
  }

  ghost predicate PassiveInv(s: State, powerOnNs: int) {
    && powerOnNs <= s.hostNs && s.uptimeNs <= s.hostNs - powerOnNs
    && (s.init.AutoReady? || s.init.ManualReady? ==> powerOnNs <= s.originNs <= s.hostNs)
    && (!s.init.AutoReady? ==> s.uptimeNs == 0)
    && (forall t :: t in s.threads ==> PassiveCall(s, s.threads[t], powerOnNs))
  }

  lemma InitIsPassive(s: State, t: nat, powerOnNs: int)
    requires Inv(s) && PassiveInv(s, powerOnNs) && t in s.threads
    requires s.threads[t].pc.ClaimInit? || InInit(s.threads[t].pc)
    ensures PassiveInv(InitStep(s, t), powerOnNs)
  {
    var r := InitStep(s, t);
    assert PcFits(s, s.threads[t]) && PassiveCall(s, s.threads[t], powerOnNs);
    forall u | u in r.threads ensures PassiveCall(r, r.threads[u], powerOnNs) {
      assert PassiveCall(s, s.threads[u], powerOnNs) && PcFits(s, s.threads[u]);
    }
  }

  lemma ReadIsPassive(s: State, t: nat, powerOnNs: int)
    requires Inv(s) && PassiveInv(s, powerOnNs) && t in s.threads
    requires var pc := s.threads[t].pc; pc.LoadState? || pc.ReloadState? || pc.SampleHost? || pc.LoadResult?
    ensures PassiveInv(ReadStep(s, t), powerOnNs)
  {
    var r := ReadStep(s, t);
    assert PassiveCall(s, s.threads[t], powerOnNs);
    forall u | u in r.threads ensures PassiveCall(r, r.threads[u], powerOnNs) {
      assert PassiveCall(s, s.threads[u], powerOnNs);
    }
  }

  lemma RaiseIsPassive(s: State, t: nat, powerOnNs: int)
    requires Inv(s) && PassiveInv(s, powerOnNs) && t in s.threads && RaisePc(s.threads[t].pc)
    ensures PassiveInv(RaiseStep(s, t), powerOnNs)
  {
    var r := RaiseStep(s, t);
    assert PassiveCall(s, s.threads[t], powerOnNs);
    forall u | u in r.threads ensures PassiveCall(r, r.threads[u], powerOnNs) {
      assert PassiveCall(s, s.threads[u], powerOnNs);
    }
  }

  lemma StepIsPassive(s: State, e: Event, powerOnNs: int)
    requires Inv(s) && PassiveInv(s, powerOnNs) && Enabled(s, e) && Passive(e)
    ensures PassiveInv(Step(s, e), powerOnNs)
  {
    match e
    case Advance(t) =>
      var pc := s.threads[t].pc;
      assert PcFits(s, s.threads[t]) && PassiveCall(s, s.threads[t], powerOnNs);
      if RaisePc(pc) { RaiseIsPassive(s, t, powerOnNs); }
      else if pc.ClaimInit? || InInit(pc) { InitIsPassive(s, t, powerOnNs); }
      else { ReadIsPassive(s, t, powerOnNs); }
    case Spurious(_) =>
    case Start(t, _) =>
      var r := Step(s, e);
      forall u | u in r.threads ensures PassiveCall(r, r.threads[u], powerOnNs) {
        assert u != t ==> PassiveCall(s, s.threads[u], powerOnNs);
      }
    case Tick(_) =>
      var r := Step(s, e);
      forall u | u in r.threads ensures PassiveCall(r, r.threads[u], powerOnNs) {
        assert PassiveCall(s, s.threads[u], powerOnNs);
      }
  }

  lemma {:induction false} RunIsPassive(s: State, run: seq<Event>, powerOnNs: int)
    requires Inv(s) && PassiveInv(s, powerOnNs) && Runs(s, run) && forall e :: e in run ==> Passive(e)
    ensures Inv(After(s, run)) && PassiveInv(After(s, run), powerOnNs)
    decreases |run|
  {
    if |run| > 0 {
      StepKeeps(s, run[0]);
      StepIsPassive(s, run[0], powerOnNs);
      RunIsPassive(Step(s, run[0]), run[1..], powerOnNs);
    }
  }

  /** In a run of nothing but reads and mode queries from power-on, the uptime never runs ahead of
      the host time elapsed, the origin of auto-sync mode lies between power-on and now, and in
      manual mode the uptime stays zero. */
  lemma UptimeIsHostTime(autoSync: bool, hostNs: int, run: seq<Event>)
    requires 0 <= hostNs <= INT64_MAX && Runs(PowerOn(autoSync, hostNs), run) && forall e :: e in run ==> Passive(e)
    ensures var r := After(PowerOn(autoSync, hostNs), run);
      && r.uptimeNs <= r.hostNs - hostNs
      && (r.init.AutoReady? ==> hostNs <= r.originNs <= r.hostNs)
      && (!autoSync ==> r.uptimeNs == 0)
  {
    PowerOnIsGood(autoSync, hostNs);
    RunIsPassive(PowerOn(autoSync, hostNs), run, hostNs);
    RunKeeps(PowerOn(autoSync, hostNs), run);
  }
}
