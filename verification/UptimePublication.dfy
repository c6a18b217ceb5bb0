/** The lock-free uptime register, one atomic access per step.

    Any number of threads may be inside `read`, `add`, `publishAtLeast` and `isAutoSyncEnabled`.
    Atomics are sequentially consistent, a weak compare-exchange may fail spuriously, and a failed
    `CHECK` leaves its thread stuck.  `log` and `done` record the run: `log` has one entry for
    each update at the step that decides it, `done` one entry for each call that returned. */
module UptimePublication {
  import opened Int64

  datatype Init = Uninitialized | Initializing | ManualReady | AutoReady

  datatype Op = Read | Add(delta: nat) | Raise(candidate: int) | QueryMode

  /** What a thread does next. */
  datatype Pc =
    | LoadState
    | ClaimInit
    | SampleOrigin
    | StoreOrigin(sampledNs: int)
    | PublishInit
    | ReloadState
    | SampleHost
    | LoadForRaise(floorNs: int)
    | CasRaise(floorNs: int, expected: int)
    | LoadResult
    | LoadForAdd
    | CasAdd(expected: int)

  datatype Call = Call(no: nat, op: Op, startNs: int, pc: Pc)

  datatype Landing = Landing(call: nat, op: Op)

  datatype Done = Done(op: Op, startNs: int, result: int)

  datatype State = State(
    uptimeNs: int,
    init: Init,
    originNs: int,
    hostNs: int,
    autoSync: bool,
    threads: map<nat, Call>,
    nextCall: nat,
    log: seq<Landing>,
    done: map<nat, Done>)

  /** A scheduler decision: thread `t` starts a call, takes its next step, or has its
      compare-exchange fail spuriously; or the host clock moves. */
  datatype Event = Start(t: nat, op: Op) | Advance(t: nat) | Spurious(t: nat) | Tick(hostNs: int)

  function PowerOn(autoSync: bool, hostNs: int): State {
    State(0, Uninitialized, 0, hostNs, autoSync, map[], 0, [], map[])
  }

  function HostUptime(s: State): int {
    if s.hostNs <= s.originNs then 0 else s.hostNs - s.originNs
  }

  // ---------- Steps ----------

  /** The checks the code makes, and the assumption that host-derived uptime is representable. */
  predicate Enabled(s: State, e: Event) {
    match e
    case Start(t, op) => t !in s.threads && (op.Raise? ==> op.candidate <= INT64_MAX)
    case Tick(hostNs) => s.hostNs <= hostNs && hostNs - s.originNs <= INT64_MAX
    case Advance(t) =>
      && t in s.threads
      && (var c := s.threads[t];
          && (c.pc.CasAdd? && c.op.Add? ==> c.op.delta <= INT64_MAX - c.pc.expected)
          && (c.pc.StoreOrigin? ==> s.hostNs - (c.pc.sampledNs - s.uptimeNs) <= INT64_MAX))
    case Spurious(t) =>
      && t in s.threads
      && (var c := s.threads[t];
          c.pc.CasRaise? || (c.pc.CasAdd? && c.op.Add? && c.op.delta <= INT64_MAX - c.pc.expected))
  }

  function Goto(s: State, t: nat, pc: Pc): State
    requires t in s.threads
  {
    s.(threads := s.threads[t := s.threads[t].(pc := pc)])
  }

  function Return(s: State, t: nat, result: int): State
    requires t in s.threads
  {
    var c := s.threads[t];
    s.(threads := s.threads - {t}, done := s.done[c.no := Done(c.op, c.startNs, result)])
  }

  function Land(s: State, t: nat, op: Op): State
    requires t in s.threads
  {
    s.(log := s.log + [Landing(s.threads[t].no, op)])
  }

  /** `publishAtLeast` has seen `current`: it retries below the floor and is finished otherwise. */
  function ContinueRaise(s: State, t: nat, floorNs: int, current: int): State
    requires t in s.threads
  {
    if current < floorNs then Goto(s, t, CasRaise(floorNs, current)) else RaiseLanded(s, t, floorNs)
  }

  function RaiseLanded(s: State, t: nat, floorNs: int): State
    requires t in s.threads
  {
    var r := Land(s, t, Raise(floorNs));
    if s.threads[t].op.Read? then Goto(r, t, LoadResult) else Return(r, t, 0)
  }

  function AfterState(s: State, t: nat): State
    requires t in s.threads
  {
    if s.threads[t].op.QueryMode? then
      if s.init.Initializing? then Goto(s, t, ReloadState)
      else Return(s, t, if s.init.AutoReady? then 1 else 0)
    else
      Goto(s, t, if s.init.AutoReady? then SampleHost else LoadResult)
  }

  predicate AddPc(pc: Pc) { pc.LoadForAdd? || pc.CasAdd? }

  predicate RaisePc(pc: Pc) { pc.LoadForRaise? || pc.CasRaise? }

  predicate InInit(pc: Pc) { pc.SampleOrigin? || pc.StoreOrigin? || pc.PublishInit? }

  function AddStep(s: State, t: nat): State
    requires t in s.threads && AddPc(s.threads[t].pc)
  {
    var c := s.threads[t];
    if c.pc.CasAdd? && s.uptimeNs == c.pc.expected && c.op.Add? then
      Return(Land(s.(uptimeNs := s.uptimeNs + c.op.delta), t, c.op), t, 0)
    else Goto(s, t, CasAdd(s.uptimeNs))
  }

  function RaiseStep(s: State, t: nat): State
    requires t in s.threads && RaisePc(s.threads[t].pc)
  {
    var pc := s.threads[t].pc;
    if pc.CasRaise? && s.uptimeNs == pc.expected then
      RaiseLanded(s.(uptimeNs := pc.floorNs), t, pc.floorNs)
    else ContinueRaise(s, t, pc.floorNs, s.uptimeNs)
  }

  function InitStep(s: State, t: nat): State
    requires t in s.threads && (s.threads[t].pc.ClaimInit? || InInit(s.threads[t].pc))
  {
    match s.threads[t].pc
    case ClaimInit =>
      if s.init.Uninitialized? then Goto(s.(init := Initializing), t, SampleOrigin)
      else Goto(s, t, ReloadState)
    case SampleOrigin => Goto(s, t, StoreOrigin(s.hostNs))
    case StoreOrigin(sampledNs) => Goto(s.(originNs := sampledNs - s.uptimeNs), t, PublishInit)
    case PublishInit => Goto(s.(init := if s.autoSync then AutoReady else ManualReady), t, ReloadState)
  }

  function ReadStep(s: State, t: nat): State
    requires t in s.threads
    requires var pc := s.threads[t].pc; pc.LoadState? || pc.ReloadState? || pc.SampleHost? || pc.LoadResult?
  {
    match s.threads[t].pc
    case LoadState => if s.init.Uninitialized? then Goto(s, t, ClaimInit) else AfterState(s, t)
    case ReloadState => AfterState(s, t)
    case SampleHost => Goto(s, t, LoadForRaise(HostUptime(s)))
    case LoadResult => Return(s, t, s.uptimeNs)
  }

  function AdvanceStep(s: State, t: nat): State
    requires t in s.threads
  {
    var pc := s.threads[t].pc;
    if AddPc(pc) then AddStep(s, t)
    else if RaisePc(pc) then RaiseStep(s, t)
    else if pc.ClaimInit? || InInit(pc) then InitStep(s, t)
    else ReadStep(s, t)
  }

  function Arrive(s: State, t: nat, op: Op): Call {
    var pc := match op
      case Add(_) => LoadForAdd
      case Raise(c) => LoadForRaise(c)
      case _ => LoadState;
    Call(s.nextCall, op, s.uptimeNs, pc)
  }

  function Step(s: State, e: Event): State
    requires Enabled(s, e)
  {
    match e
    case Start(t, op) => s.(threads := s.threads[t := Arrive(s, t, op)], nextCall := s.nextCall + 1)
    case Tick(hostNs) => s.(hostNs := hostNs)
    case Spurious(t) => s
    case Advance(t) => AdvanceStep(s, t)
  }

  ghost predicate Runs(s: State, run: seq<Event>)
    decreases |run|
  {
    |run| == 0 || (Enabled(s, run[0]) && Runs(Step(s, run[0]), run[1..]))
  }

  ghost function After(s: State, run: seq<Event>): State
    requires Runs(s, run)
    decreases |run|
  {
    if |run| == 0 then s else After(Step(s, run[0]), run[1..])
  }

  // ---------- Invariant ----------

  /** A sequential register after one operation. */
  function Landed(uptimeNs: int, op: Op): int {
    match op
    case Add(delta) => uptimeNs + delta
    case Raise(floor) => Max(uptimeNs, floor)
    case _ => uptimeNs
  }

  /** The register a sequential client would see. */
  function Replay(log: seq<Landing>): int {
    if |log| == 0 then 0
    else Landed(Replay(log[..|log| - 1]), log[|log| - 1].op)
  }

  ghost predicate Unlanded(log: seq<Landing>, call: nat) {
    forall i :: 0 <= i < |log| ==> log[i].call != call
  }

  predicate PcFits(s: State, c: Call) {
    && c.no < s.nextCall
    && c.startNs <= s.uptimeNs
    && (c.pc.LoadForAdd? || c.pc.CasAdd? <==> c.op.Add?)
    && (c.op.Raise? ==> (c.pc.LoadForRaise? || c.pc.CasRaise?) && c.pc.floorNs == c.op.candidate)
    && (c.pc.SampleHost? || c.pc.LoadResult? ==> c.op.Read?)
    && (c.pc.LoadForRaise? || c.pc.CasRaise? ==> (c.op.Read? || c.op.Raise?) && c.pc.floorNs <= INT64_MAX)
    && (c.pc.CasRaise? ==> c.pc.expected < c.pc.floorNs)
    && (InInit(c.pc) ==> s.init.Initializing?)
  }

  ghost predicate ThreadsFit(s: State) {
    && (forall t :: t in s.threads ==> PcFits(s, s.threads[t]))
    && (forall t, u :: t in s.threads && u in s.threads && t != u ==> s.threads[t].no != s.threads[u].no)
    && (forall t, u :: t in s.threads && u in s.threads && InInit(s.threads[t].pc) && InInit(s.threads[u].pc) ==>
          t == u)
  }

  ghost predicate LogFits(s: State) {
    && s.uptimeNs == Replay(s.log)
    && (forall i :: 0 <= i < |s.log| ==> s.log[i].call < s.nextCall)
    && (forall i, j :: 0 <= i < j < |s.log| ==> s.log[i].call != s.log[j].call)
    && (forall t :: t in s.threads && !s.threads[t].pc.LoadResult? ==> Unlanded(s.log, s.threads[t].no))
  }

  /** A call that returned left one landing of its own operation, and a read returned no less
      than the uptime at its start. */
  ghost predicate DoneFits(s: State) {
    && (forall n :: n in s.done ==> n < s.nextCall && s.done[n].startNs <= s.uptimeNs)
    && (forall n, t :: n in s.done && t in s.threads ==> s.threads[t].no != n)
    && (forall n :: n in s.done && (s.done[n].op.Add? || s.done[n].op.Raise?) ==> Landing(n, s.done[n].op) in s.log)
    && (forall n :: n in s.done && s.done[n].op.Read? ==> s.done[n].startNs <= s.done[n].result <= s.uptimeNs)
  }

  ghost predicate Inv(s: State) {
    && 0 <= s.uptimeNs <= INT64_MAX
    && s.hostNs - s.originNs <= INT64_MAX
    && (s.init.AutoReady? ==> s.autoSync) && (s.init.ManualReady? ==> !s.autoSync)
    && ThreadsFit(s) && LogFits(s) && DoneFits(s)
  }

  /** What can never change back. */
  ghost predicate Later(s: State, r: State) {
    && s.uptimeNs <= r.uptimeNs
    && s.log <= r.log
    && s.nextCall <= r.nextCall
    && (forall n :: n in s.done ==> n in r.done && r.done[n] == s.done[n])
    && (s.init.ManualReady? || s.init.AutoReady? ==> r.init == s.init && r.originNs == s.originNs)
    && r.autoSync == s.autoSync
  }

  // ---------- Every step keeps it ----------

  lemma GotoKeeps(s: State, t: nat, pc: Pc)
    requires Inv(s) && t in s.threads && PcFits(s, s.threads[t].(pc := pc))
    requires pc.LoadResult? || !s.threads[t].pc.LoadResult?
    requires InInit(pc) ==> forall u :: u in s.threads && InInit(s.threads[u].pc) ==> u == t
    ensures Inv(Goto(s, t, pc)) && Later(s, Goto(s, t, pc))
  {
  }

  /** The register word, the init word and the origin change in ways no thread's pc notices. */
  lemma SharedKeeps(s: State, r: State)
    requires Inv(s)
    requires r == s.(init := r.init, originNs := r.originNs, hostNs := r.hostNs)
    requires r.hostNs - r.originNs <= INT64_MAX
    requires (r.init.AutoReady? ==> r.autoSync) && (r.init.ManualReady? ==> !r.autoSync)
    requires forall t :: t in s.threads && InInit(s.threads[t].pc) ==> r.init.Initializing?
    ensures Inv(r)
  {
    assert forall t :: t in r.threads ==> PcFits(s, s.threads[t]);
  }

  lemma ReturnKeeps(s: State, t: nat, result: int)
    requires Inv(s) && t in s.threads
    requires s.threads[t].op.Read? ==> s.threads[t].pc.LoadResult? && result == s.uptimeNs
    requires s.threads[t].op.Read? || s.threads[t].op.QueryMode?
    ensures Inv(Return(s, t, result)) && Later(s, Return(s, t, result))
  {
  }

  lemma LogAppend(s: State, t: nat, op: Op)
    requires Inv(s) && t in s.threads && !s.threads[t].pc.LoadResult?
    ensures var r := Land(s, t, op);
            && (forall i, j :: 0 <= i < j < |r.log| ==> r.log[i].call != r.log[j].call)
            && (forall u :: u in s.threads && u != t && !s.threads[u].pc.LoadResult? ==>
                  Unlanded(r.log, s.threads[u].no))
            && Replay(r.log) == Landed(s.uptimeNs, op)
  {
    var r := Land(s, t, op);
    assert r.log[..|r.log| - 1] == s.log;
    assert Unlanded(s.log, s.threads[t].no);
  }

  /** An update that returns at its landing: the thread leaves, its landing and result stay. */
  lemma LandReturnKeeps(s: State, t: nat, uptimeNs: int)
    requires Inv(s) && t in s.threads && s.uptimeNs <= uptimeNs <= INT64_MAX
    requires s.threads[t].op.Add? || s.threads[t].op.Raise?
    requires uptimeNs == Landed(s.uptimeNs, s.threads[t].op)
    ensures var r := Return(Land(s.(uptimeNs := uptimeNs), t, s.threads[t].op), t, 0); Inv(r) && Later(s, r)
  {
    var op := s.threads[t].op;
    LogAppend(s, t, op);
    var r := Return(Land(s.(uptimeNs := uptimeNs), t, op), t, 0);
    assert r.log == s.log + [Landing(s.threads[t].no, op)];
    assert forall u :: u in r.threads ==> u in s.threads && u != t && r.threads[u] == s.threads[u];
    LeaverFits(s, r, t);
    assert LogFits(r);
    LandedIsDone(s, r, t);
  }

  lemma LeaverFits(s: State, r: State, t: nat)
    requires ThreadsFit(s) && s.uptimeNs <= r.uptimeNs && r.nextCall == s.nextCall && r.init == s.init
    requires r.threads == s.threads - {t}
    ensures ThreadsFit(r)
  {
    forall u | u in r.threads ensures PcFits(r, r.threads[u]) { assert PcFits(s, s.threads[u]); }
  }

  lemma LandedIsDone(s: State, r: State, t: nat)
    requires ThreadsFit(s) && DoneFits(s) && t in s.threads && s.uptimeNs <= r.uptimeNs && r.nextCall == s.nextCall
    requires s.threads[t].op.Add? || s.threads[t].op.Raise?
    requires r.threads == s.threads - {t} && r.log == s.log + [Landing(s.threads[t].no, s.threads[t].op)]
    requires r.done == s.done[s.threads[t].no := Done(s.threads[t].op, s.threads[t].startNs, 0)]
    ensures DoneFits(r)
  {
    var c := s.threads[t];
    assert PcFits(s, c);
    assert r.log[|s.log|] == Landing(c.no, c.op);
  }

  /** The update inside an auto-mode read: the read goes on to load its result. */
  lemma LandGotoKeeps(s: State, t: nat, uptimeNs: int, floorNs: int)
    requires Inv(s) && t in s.threads && s.threads[t].op.Read? && !s.threads[t].pc.LoadResult?
    requires uptimeNs == Max(s.uptimeNs, floorNs) <= INT64_MAX
    ensures var r := Goto(Land(s.(uptimeNs := uptimeNs), t, Raise(floorNs)), t, LoadResult); Inv(r) && Later(s, r)
  {
    LogAppend(s, t, Raise(floorNs));
    var r := Goto(Land(s.(uptimeNs := uptimeNs), t, Raise(floorNs)), t, LoadResult);
    forall u | u in r.threads ensures PcFits(r, r.threads[u]) {
      assert PcFits(s, s.threads[u]);
      assert u != t ==> r.threads[u] == s.threads[u];
    }
    assert ThreadsFit(r);
    assert LogFits(r);
    assert DoneFits(r);
  }

  lemma ContinueRaiseKeeps(s: State, t: nat, floorNs: int)
    requires Inv(s) && t in s.threads && (s.threads[t].pc.LoadForRaise? || s.threads[t].pc.CasRaise?)
    requires s.threads[t].pc.floorNs == floorNs
    ensures var r := ContinueRaise(s, t, floorNs, s.uptimeNs); Inv(r) && Later(s, r)
  {
    if s.uptimeNs < floorNs {
      GotoKeeps(s, t, CasRaise(floorNs, s.uptimeNs));
    } else if s.threads[t].op.Read? {
      LandGotoKeeps(s, t, s.uptimeNs, floorNs);
    } else {
      LandReturnKeeps(s, t, s.uptimeNs);
    }
  }

  lemma AfterStateKeeps(s: State, t: nat)
    requires Inv(s) && t in s.threads && (s.threads[t].pc.LoadState? || s.threads[t].pc.ReloadState?)
    ensures Inv(AfterState(s, t)) && Later(s, AfterState(s, t))
  {
    if s.threads[t].op.QueryMode? {
      if s.init.Initializing? { GotoKeeps(s, t, ReloadState); }
      else { ReturnKeeps(s, t, if s.init.AutoReady? then 1 else 0); }
    } else {
      GotoKeeps(s, t, if s.init.AutoReady? then SampleHost else LoadResult);
    }
  }

  lemma InitKeeps(s: State, t: nat)
    requires Inv(s) && Enabled(s, Advance(t)) && (s.threads[t].pc.ClaimInit? || InInit(s.threads[t].pc))
    ensures Inv(InitStep(s, t)) && Later(s, InitStep(s, t))
  {
    match s.threads[t].pc
    case ClaimInit =>
      if s.init.Uninitialized? { WinInitKeeps(s, t); } else { GotoKeeps(s, t, ReloadState); }
    case SampleOrigin =>
      GotoKeeps(s, t, StoreOrigin(s.hostNs));
    case StoreOrigin(sampledNs) =>
      StoreOriginKeeps(s, t, sampledNs);
    case PublishInit =>
      PublishInitKeeps(s, t);
  }

  lemma WinInitKeeps(s: State, t: nat)
    requires Inv(s) && t in s.threads && s.threads[t].pc.ClaimInit? && s.init.Uninitialized?
    ensures var r := Goto(s.(init := Initializing), t, SampleOrigin); Inv(r) && Later(s, r)
  {
    SharedKeeps(s, s.(init := Initializing));
    GotoKeeps(s.(init := Initializing), t, SampleOrigin);
  }

  lemma StoreOriginKeeps(s: State, t: nat, sampledNs: int)
    requires Inv(s) && t in s.threads && s.threads[t].pc == StoreOrigin(sampledNs)
    requires s.hostNs - (sampledNs - s.uptimeNs) <= INT64_MAX
    ensures var r := Goto(s.(originNs := sampledNs - s.uptimeNs), t, PublishInit); Inv(r) && Later(s, r)
  {
    var r := s.(originNs := sampledNs - s.uptimeNs);
    SharedKeeps(s, r);
    GotoKeeps(r, t, PublishInit);
  }

  lemma PublishInitKeeps(s: State, t: nat)
    requires Inv(s) && t in s.threads && s.threads[t].pc.PublishInit?
    ensures Inv(InitStep(s, t)) && Later(s, InitStep(s, t))
  {
    GotoKeeps(s, t, ReloadState);
    var r := Goto(s, t, ReloadState);
    assert forall u :: u in r.threads ==> !InInit(r.threads[u].pc);
    var done := r.(init := if s.autoSync then AutoReady else ManualReady);
    SharedKeeps(r, done);
    assert InitStep(s, t) == done;
  }

  lemma StartKeeps(s: State, t: nat, op: Op)
    requires Inv(s) && Enabled(s, Start(t, op))
    ensures Inv(Step(s, Start(t, op))) && Later(s, Step(s, Start(t, op)))
  {
    ArrivalKeeps(s, t, Arrive(s, t, op));
  }

  lemma ArrivalKeeps(s: State, t: nat, c: Call)
    requires Inv(s) && t !in s.threads && c.no == s.nextCall && !InInit(c.pc)
    requires PcFits(s.(nextCall := c.no + 1), c)
    ensures var r := s.(threads := s.threads[t := c], nextCall := c.no + 1); Inv(r) && Later(s, r)
  {
    var r := s.(threads := s.threads[t := c], nextCall := c.no + 1);
    forall u | u in r.threads ensures PcFits(r, r.threads[u]) {
      assert u != t ==> PcFits(s, s.threads[u]);
    }
    assert ThreadsFit(r);
    assert LogFits(r);
    assert DoneFits(r);
  }

  lemma ReadStepKeeps(s: State, t: nat)
    requires Inv(s) && Enabled(s, Advance(t))
    requires var pc := s.threads[t].pc; pc.LoadState? || pc.ReloadState? || pc.SampleHost? || pc.LoadResult?
    ensures Inv(ReadStep(s, t)) && Later(s, ReadStep(s, t))
  {
    var c := s.threads[t];
    assert PcFits(s, c);
    match c.pc
    case LoadState => if s.init.Uninitialized? { GotoKeeps(s, t, ClaimInit); } else { AfterStateKeeps(s, t); }
    case ReloadState => AfterStateKeeps(s, t);
    case SampleHost => GotoKeeps(s, t, LoadForRaise(HostUptime(s)));
    case LoadResult => ReturnKeeps(s, t, s.uptimeNs);
  }

  lemma RaiseStepKeeps(s: State, t: nat)
    requires Inv(s) && t in s.threads && RaisePc(s.threads[t].pc)
    ensures Inv(RaiseStep(s, t)) && Later(s, RaiseStep(s, t))
  {
    var c := s.threads[t];
    assert PcFits(s, c);
    if c.pc.CasRaise? && s.uptimeNs == c.pc.expected {
      if c.op.Read? {
        LandGotoKeeps(s, t, c.pc.floorNs, c.pc.floorNs);
      } else {
        LandReturnKeeps(s, t, c.pc.floorNs);
      }
    } else {
      ContinueRaiseKeeps(s, t, c.pc.floorNs);
    }
  }

  lemma AddStepKeeps(s: State, t: nat)
    requires Inv(s) && Enabled(s, Advance(t)) && AddPc(s.threads[t].pc)
    ensures Inv(AddStep(s, t)) && Later(s, AddStep(s, t))
  {
    var c := s.threads[t];
    assert PcFits(s, c);
    if c.pc.CasAdd? && s.uptimeNs == c.pc.expected {
      LandReturnKeeps(s, t, c.pc.expected + c.op.delta);
    } else {
      GotoKeeps(s, t, CasAdd(s.uptimeNs));
    }
  }

  lemma StepKeeps(s: State, e: Event)
    requires Inv(s) && Enabled(s, e)
    ensures Inv(Step(s, e)) && Later(s, Step(s, e))
  {
    match e
    case Start(t, op) => StartKeeps(s, t, op);
    case Tick(hostNs) => SharedKeeps(s, s.(hostNs := hostNs));
    case Spurious(t) =>
    case Advance(t) =>
      var pc := s.threads[t].pc;
      if AddPc(pc) { AddStepKeeps(s, t); }
      else if RaisePc(pc) { RaiseStepKeeps(s, t); }
      else if pc.ClaimInit? || InInit(pc) { InitKeeps(s, t); }
      else { ReadStepKeeps(s, t); }
  }

  // ---------- Whole runs ----------

  /** Monotonic uptime over every interleaving: from any reachable state, any run keeps the
      invariant, never lowers the uptime, never forgets a landing or a result, and never changes
      the mode or the origin once they are published. */
  lemma {:induction false} RunKeeps(s: State, run: seq<Event>)
    requires Inv(s) && Runs(s, run)
    ensures Inv(After(s, run)) && Later(s, After(s, run))
    decreases |run|
  {
    if |run| > 0 {
      StepKeeps(s, run[0]);
      RunKeeps(Step(s, run[0]), run[1..]);
    }
  }

  lemma PowerOnIsGood(autoSync: bool, hostNs: int)
    requires hostNs <= INT64_MAX
    ensures Inv(PowerOn(autoSync, hostNs))
  {
  }

  /** Each returned `add` and `publishAtLeast` is in the log exactly once, and the uptime is the
      log replayed by a sequential register. */
  lemma LandsExactlyOnce(s: State, n: nat)
    requires Inv(s) && n in s.done && (s.done[n].op.Add? || s.done[n].op.Raise?)
    ensures exists i :: 0 <= i < |s.log| && s.log[i] == Landing(n, s.done[n].op)
                        && forall j :: 0 <= j < |s.log| && s.log[j].call == n ==> j == i
    ensures s.uptimeNs == Replay(s.log)
  {
    var i :| 0 <= i < |s.log| && s.log[i] == Landing(n, s.done[n].op);
    assert forall j :: 0 <= j < |s.log| && s.log[j].call == n ==> j <= i <= j;
  }

  /** A raised floor holds for ever after: `publishAtLeast(c)` that has returned keeps every later
      uptime at or above `c`. */
  lemma RaiseIsForever(s: State, run: seq<Event>, n: nat)
    requires Inv(s) && Runs(s, run) && n in s.done && s.done[n].op.Raise?
    ensures s.done[n].op.candidate <= After(s, run).uptimeNs
  {
    RunKeeps(s, run);
    var i :| 0 <= i < |s.log| && s.log[i] == Landing(n, s.done[n].op);
    ReplayAtLeast(s.log, i);
  }

  /** A read that starts after another read returned never returns less. */
  lemma ReadsNeverGoBack(s: State, run: seq<Event>, n: nat, m: nat)
    requires Inv(s) && Runs(s, run) && n in s.done && s.done[n].op.Read?
    requires s.nextCall <= m && m in After(s, run).done && After(s, run).done[m].op.Read?
    ensures s.done[n].result <= After(s, run).done[m].result
    decreases |run|
  {
    RunKeeps(s, run);
    StartsLater(s, run, m, s.uptimeNs);
  }

  /** Call `m`, wherever it is, started at an uptime no less than `floorNs`. */
  ghost predicate StartsAtLeast(s: State, m: nat, floorNs: int) {
    && floorNs <= s.uptimeNs
    && (forall t :: t in s.threads && s.threads[t].no == m ==> floorNs <= s.threads[t].startNs)
    && (m in s.done ==> floorNs <= s.done[m].startNs)
  }

  lemma {:induction false} StartsLater(s: State, run: seq<Event>, m: nat, floorNs: int)
    requires Inv(s) && Runs(s, run) && StartsAtLeast(s, m, floorNs)
    ensures StartsAtLeast(After(s, run), m, floorNs)
    decreases |run|
  {
    if |run| > 0 {
      StepKeeps(s, run[0]);
      StartStays(s, run[0], m, floorNs);
      StartsLater(Step(s, run[0]), run[1..], m, floorNs);
    }
  }

  lemma StartStays(s: State, e: Event, m: nat, floorNs: int)
    requires Enabled(s, e) && StartsAtLeast(s, m, floorNs) && s.uptimeNs <= Step(s, e).uptimeNs
    ensures StartsAtLeast(Step(s, e), m, floorNs)
  {
    if e.Advance? {
      var r := Step(s, e);
      StepTouchesOneCall(s, e.t);
      if e.t in r.threads {
        MoveStays(s, r, e.t, m, floorNs);
      } else {
        LeaveStays(s, r, e.t, m, floorNs);
      }
    }
  }

  /** A step moves one call or returns it; every other call is untouched. */
  lemma StepTouchesOneCall(s: State, t: nat)
    requires Enabled(s, Advance(t))
    ensures var r, c := Step(s, Advance(t)), s.threads[t];
            if t in r.threads then
              r.threads == s.threads[t := c.(pc := r.threads[t].pc)] && r.done == s.done
            else
              && r.threads == s.threads - {t} && c.no in r.done
              && r.done == s.done[c.no := Done(c.op, c.startNs, r.done[c.no].result)]
  {
    var pc, r := s.threads[t].pc, Step(s, Advance(t));
    if AddPc(pc) { assert r == AddStep(s, t); }
    else if RaisePc(pc) { assert r == RaiseStep(s, t); }
    else if pc.ClaimInit? || InInit(pc) { assert r == InitStep(s, t); }
    else { assert r == ReadStep(s, t); }
  }

  lemma MoveStays(s: State, r: State, t: nat, m: nat, floorNs: int)
    requires StartsAtLeast(s, m, floorNs) && s.uptimeNs <= r.uptimeNs && t in s.threads && t in r.threads
    requires r.threads == s.threads[t := s.threads[t].(pc := r.threads[t].pc)] && r.done == s.done
    ensures StartsAtLeast(r, m, floorNs)
  {
  }

  lemma LeaveStays(s: State, r: State, t: nat, m: nat, floorNs: int)
    requires StartsAtLeast(s, m, floorNs) && s.uptimeNs <= r.uptimeNs && t in s.threads
    requires r.threads == s.threads - {t}
    requires var c := s.threads[t];
      c.no in r.done && r.done == s.done[c.no := Done(c.op, c.startNs, r.done[c.no].result)]
    ensures StartsAtLeast(r, m, floorNs)
  {
  }

  lemma ReplayMonotone(log: seq<Landing>, i: nat)
    requires i <= |log|
    ensures Replay(log[..i]) <= Replay(log)
    decreases |log|
  {
    if i < |log| {
      assert log[..|log| - 1][..i] == log[..i];
      ReplayMonotone(log[..|log| - 1], i);
    } else {
      assert log[..i] == log;
    }
  }

  lemma ReplayAtLeast(log: seq<Landing>, i: nat)
    requires i < |log| && log[i].op.Raise?
    ensures log[i].op.candidate <= Replay(log)
  {
    ReplayMonotone(log, i + 1);
    assert log[..i + 1][..i] == log[..i];
  }

  function TotalAdded(log: seq<Landing>): nat {
    if |log| == 0 then 0
    else TotalAdded(log[..|log| - 1]) + if log[|log| - 1].op.Add? then log[|log| - 1].op.delta else 0
  }

  lemma {:induction false} ReplayAdds(log: seq<Landing>)
    ensures TotalAdded(log) <= Replay(log)
    ensures (forall i :: 0 <= i < |log| ==> !log[i].op.Raise?) ==> Replay(log) == TotalAdded(log)
  {
    if |log| > 0 {
      ReplayAdds(log[..|log| - 1]);
    }
  }

  /** No addition is lost to a concurrent raise, and without raises nothing else is added: in every
      run the uptime covers all the additions that have landed. */
  lemma AddsAreNotLost(s: State, run: seq<Event>)
    requires Inv(s) && Runs(s, run)
    ensures var r := After(s, run);
      && TotalAdded(r.log) <= r.uptimeNs
      && ((forall i :: 0 <= i < |r.log| ==> !r.log[i].op.Raise?) ==> r.uptimeNs == TotalAdded(r.log))
  {
    RunKeeps(s, run);
    ReplayAdds(After(s, run).log);
  }
}
