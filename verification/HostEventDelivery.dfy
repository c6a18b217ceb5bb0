/** What every run of the host event gateway keeps: the slot table and the endpoints agree, no
    notification is lost or invented, and no handler runs outside its connection. */
module HostEventDelivery {
  import opened HostEventProtocol

  // ---------- Shape ----------

  predicate Located(s: State, e: nat)
    requires e in s.endpoints
  {
    var k := s.endpoints[e].slot;
    k == NO_SLOT || (0 <= k < |s.table| && s.table[k] == e && !s.gateway.NotStarted?)
  }

  predicate Filled(s: State, i: nat)
    requires i < |s.table|
  {
    s.table[i] == NULL || (s.table[i] in s.endpoints && s.endpoints[s.table[i]].slot == i)
  }

  /** The table and the `slot_` fields are inverse to each other. */
  ghost predicate Bijection(s: State) {
    && |s.table| == CAPACITY && NULL !in s.endpoints
    && (forall e :: e in s.endpoints ==> Located(s, e))
    && (forall i: nat :: i < |s.table| ==> Filled(s, i))
  }

  predicate InPass(g: Gateway) {
    g.Scan? || g.Loaded? || g.Claimed? || g.InHandler?
  }

  predicate OnEndpoint(g: Gateway) {
    g.Loaded? || g.Claimed? || g.InHandler?
  }

  predicate GatewayFits(s: State) {
    && (InPass(s.gateway) <==> s.mutex == ByGateway)
    && (OnEndpoint(s.gateway) ==>
          s.gateway.i < |s.table| && s.gateway.e != NULL && s.table[s.gateway.i] == s.gateway.e)
  }

  predicate TaskFits(s: State, t: nat)
    requires t in s.tasks
  {
    s.tasks[t].e in s.endpoints && (!s.tasks[t].Waiting? <==> s.mutex == ByTask(t))
  }

  ghost predicate Shape(s: State) {
    && Bijection(s)
    && GatewayFits(s)
    && (s.mutex.ByTask? ==> s.mutex.task in s.tasks)
    && (forall t :: t in s.tasks ==> TaskFits(s, t))
  }

  lemma ConnectKeepsShape(s: State, e: nat, routine: Routine, inTask: bool, canStart: bool)
    requires Shape(s) && e in s.endpoints
    ensures Shape(ConnectStep(s, e, routine, inTask, canStart))
  {
    var r := ConnectStep(s, e, routine, inTask, canStart);
    assert Located(s, e);
    forall x | x in r.endpoints ensures Located(r, x) { assert Located(s, x); }
    forall i: nat | i < |r.table| ensures Filled(r, i) { assert Filled(s, i); }
    forall t | t in r.tasks ensures TaskFits(r, t) { assert TaskFits(s, t); }
  }

  lemma ClearKeepsShape(s: State, t: nat)
    requires Shape(s) && Enabled(s, Clear(t))
    ensures Shape(ClearStep(s, t))
  {
    var r, e := ClearStep(s, t), s.tasks[t].e;
    assert TaskFits(s, t) && Located(s, e);
    forall x | x in r.endpoints ensures Located(r, x) { assert Located(s, x); }
    forall i: nat | i < |r.table| ensures Filled(r, i) { assert Filled(s, i); }
    forall u | u in r.tasks ensures TaskFits(r, u) { assert TaskFits(s, u); }
  }

  lemma SameTableKeepsBijection(s: State, r: State)
    requires Bijection(s) && r.table == s.table && r.endpoints.Keys == s.endpoints.Keys
    requires forall e :: e in s.endpoints ==> r.endpoints[e].slot == s.endpoints[e].slot
    requires r.gateway.NotStarted? ==> s.gateway.NotStarted?
    ensures Bijection(r)
  {
    forall x | x in r.endpoints ensures Located(r, x) { assert Located(s, x); }
    forall i: nat | i < |r.table| ensures Filled(r, i) { assert Filled(s, i); }
  }

  lemma TasksKeepShape(s: State, ev: Event)
    requires Shape(s) && Enabled(s, ev)
    requires ev.Disconnect? || ev.TakeMutex? || ev.GiveMutex?
    ensures Shape(Step(s, ev))
  {
    var r := Step(s, ev);
    SameTableKeepsBijection(s, r);
    assert ev.t in s.tasks ==> TaskFits(s, ev.t);
    forall u | u in r.tasks ensures TaskFits(r, u) { assert u in s.tasks ==> TaskFits(s, u); }
  }

  lemma GatewayKeepsShape(s: State)
    requires Shape(s) && GatewayReady(s)
    ensures Shape(GatewayRun(s))
  {
    var r := GatewayRun(s);
    SameTableKeepsBijection(s, r);
    forall u | u in r.tasks ensures TaskFits(r, u) { assert TaskFits(s, u); }
  }

  lemma StepKeepsShape(s: State, ev: Event)
    requires Shape(s) && Enabled(s, ev)
    ensures Shape(Step(s, ev))
  {
    match ev
    case Connect(e, routine, inTask, canStart) => ConnectKeepsShape(s, e, routine, inTask, canStart);
    case Clear(t) => ClearKeepsShape(s, t);
    case GatewayStep => GatewayKeepsShape(s);
    case Disconnect(_, _, _) => TasksKeepShape(s, ev);
    case TakeMutex(_) => TasksKeepShape(s, ev);
    case GiveMutex(_) => TasksKeepShape(s, ev);
    case Notify(_) => QuietKeepsShape(s, ev);
    case TickBegins => QuietKeepsShape(s, ev);
    case TickStep => QuietKeepsShape(s, ev);
  }

  lemma QuietKeepsShape(s: State, ev: Event)
    requires Shape(s) && Enabled(s, ev)
    requires ev.Notify? || ev.TickBegins? || ev.TickStep?
    ensures Shape(Step(s, ev))
  {
    var r := Step(s, ev);
    SameTableKeepsBijection(s, r);
    forall u | u in r.tasks ensures TaskFits(r, u) { assert TaskFits(s, u); }
  }

  // ---------- The log tells the truth ----------

  function AttachmentNow(p: Endpoint): Attachment {
    if p.slot >= 0 then Attached(p.routine) else Detached
  }

  function RunningNow(g: Gateway): nat {
    if g.InHandler? then g.e else NULL
  }

  predicate IsClaimed(g: Gateway, e: nat) {
    g.Claimed? && g.e == e
  }

  function One(b: bool): nat { if b then 1 else 0 }

  predicate Accounted(s: State, e: nat)
    requires e in s.endpoints
  {
    var p := s.endpoints[e];
    && AttachmentOf(s.log, e) == AttachmentNow(p)
    && (Owed(s.log, e) ==> p.pending || IsClaimed(s.gateway, e))
    && Calls(s.log, e) + One(p.pending) + One(IsClaimed(s.gateway, e)) <= Notifications(s.log, e)
  }

  ghost predicate Truthful(s: State) {
    && Proper(s.log)
    && Running(s.log) == RunningNow(s.gateway)
    && forall e :: e in s.endpoints ==> Accounted(s, e)
  }

  lemma ConnectTruthful(s: State, e: nat, routine: Routine, inTask: bool, canStart: bool)
    requires Shape(s) && Truthful(s) && e in s.endpoints
    ensures Truthful(ConnectStep(s, e, routine, inTask, canStart))
  {
    var r := ConnectStep(s, e, routine, inTask, canStart);
    assert Accounted(s, e) && Located(s, e);
    forall x | x in r.endpoints ensures Accounted(r, x) { assert Accounted(s, x); }
  }

  lemma ClearTruthful(s: State, t: nat)
    requires Shape(s) && Truthful(s) && Enabled(s, Clear(t))
    ensures Truthful(ClearStep(s, t))
  {
    var r, e := ClearStep(s, t), s.tasks[t].e;
    assert TaskFits(s, t) && Accounted(s, e) && Located(s, e);
    forall x | x in r.endpoints ensures Accounted(r, x) { assert Accounted(s, x); }
  }

  lemma HandlerTruthful(s: State)
    requires Shape(s) && Truthful(s) && GatewayReady(s) && (s.gateway.Claimed? || s.gateway.InHandler?)
    ensures Truthful(GatewayRun(s))
  {
    var r := GatewayRun(s);
    assert Filled(s, s.gateway.i) && Accounted(s, s.gateway.e);
    forall x | x in r.endpoints ensures Accounted(r, x) { assert Accounted(s, x); }
  }

  lemma ScanTruthful(s: State)
    requires Shape(s) && Truthful(s) && GatewayReady(s) && !s.gateway.Claimed? && !s.gateway.InHandler?
    ensures Truthful(GatewayRun(s))
  {
    var r := GatewayRun(s);
    forall x | x in r.endpoints ensures Accounted(r, x) { assert Accounted(s, x); }
  }

  lemma GatewayTruthful(s: State)
    requires Shape(s) && Truthful(s) && GatewayReady(s)
    ensures Truthful(GatewayRun(s))
  {
    if s.gateway.Claimed? || s.gateway.InHandler? { HandlerTruthful(s); } else { ScanTruthful(s); }
  }

  lemma StepTruthful(s: State, ev: Event)
    requires Shape(s) && Truthful(s) && Enabled(s, ev)
    ensures Truthful(Step(s, ev))
  {
    match ev
    case Connect(e, routine, inTask, canStart) => ConnectTruthful(s, e, routine, inTask, canStart);
    case Clear(t) => ClearTruthful(s, t);
    case GatewayStep => GatewayTruthful(s);
    case Disconnect(_, _, _) => QuietTruthful(s, ev);
    case TakeMutex(_) => QuietTruthful(s, ev);
    case GiveMutex(_) => QuietTruthful(s, ev);
    case Notify(_) => QuietTruthful(s, ev);
    case TickBegins => QuietTruthful(s, ev);
    case TickStep => QuietTruthful(s, ev);
  }

  lemma QuietTruthful(s: State, ev: Event)
    requires Truthful(s) && Enabled(s, ev)
    requires !ev.Connect? && !ev.Clear? && !ev.GatewayStep?
    ensures Truthful(Step(s, ev))
  {
    var r := Step(s, ev);
    forall x | x in r.endpoints ensures Accounted(r, x) { assert Accounted(s, x); }
  }

  // ---------- Logs that grow ----------

  /** `log` starts with all of `mark`. */
  predicate Continues(log: Log, mark: Log) {
    log == mark || (log.Then? && Continues(log.before, mark))
  }

  lemma {:induction false} ContinuesSize(log: Log, mark: Log)
    requires Continues(log, mark)
    ensures Size(mark) <= Size(log)
  {
    if log != mark { ContinuesSize(log.before, mark); }
  }

  /** A log has one beginning of each size. */
  lemma {:induction false} BeginningsNest(log: Log, a: Log, b: Log)
    requires Continues(log, a) && Continues(log, b) && Size(a) <= Size(b)
    ensures Continues(b, a)
  {
    if log != b {
      ContinuesSize(log.before, b);
      BeginningsNest(log.before, a, b);
    }
  }

  lemma {:induction false} SinceGrows(log: Log, mark: Log, n: nat, e: nat)
    requires Continues(log, mark)
    ensures ServedSince(mark, n, e) ==> ServedSince(log, n, e)
    ensures DetachedSince(mark, n, e) ==> DetachedSince(log, n, e)
  {
    if log != mark {
      SinceGrows(log.before, mark, n, e);
      ContinuesSize(log.before, mark);
    }
  }

  lemma {:induction false} ServedEarlier(log: Log, m: nat, n: nat, e: nat)
    requires n <= m && ServedSince(log, m, e)
    ensures ServedSince(log, n, e)
  {
    if !(log.last.Began? && log.last.e == e) { ServedEarlier(log.before, m, n, e); }
  }

  /** A notification to a connection that lasts is still owed, or was followed by a call. */
  lemma {:induction false} OwedOrServed(log: Log, mark: Log, e: nat)
    requires Continues(log, mark) && Proper(log) && Owed(mark, e) && AttachmentOf(mark, e) != Detached
    requires !DetachedSince(log, Size(mark), e)
    ensures ServedSince(log, Size(mark), e) || Owed(log, e)
    ensures AttachmentOf(log, e) != Detached
  {
    ContinuesSize(log, mark);
    if log != mark {
      ContinuesSize(log.before, mark);
      OwedOrServed(log.before, mark, e);
    }
  }

  // ---------- Passes and ticks reach everybody ----------

  /** The gateway has yet to look at place `k` in this pass. */
  predicate StillAhead(g: Gateway, k: int) {
    match g
    case Scan(next, _) => k >= next
    case Loaded(i, _, _) => k >= i
    case Claimed(i, _, _) => k > i
    case InHandler(i, _, _) => k > i
    case _ => false
  }

  predicate PassReaches(s: State, e: nat)
    requires e in s.endpoints && InPass(s.gateway)
  {
    var p, start := s.endpoints[e], s.gateway.start;
    Owed(start, e) && AttachmentOf(start, e) != Detached ==>
      || ServedSince(s.log, Size(start), e)
      || (p.pending && p.slot >= 0 && StillAhead(s.gateway, p.slot))
      || IsClaimed(s.gateway, e)
  }

  ghost predicate PassInv(s: State) {
    InPass(s.gateway) ==>
      && Continues(s.log, s.gateway.start)
      && forall e :: e in s.endpoints ==> PassReaches(s, e)
  }

  predicate TickReaches(s: State, e: nat)
    requires e in s.endpoints && s.core.Tick?
  {
    var p := s.endpoints[e];
    Owed(s.core.start, e) && p.slot >= 0 && !IsClaimed(s.gateway, e) ==> p.pending && p.slot >= s.core.next
  }

  ghost predicate TickInv(s: State) {
    s.core.Tick? ==> forall e :: e in s.endpoints ==> TickReaches(s, e)
  }

  lemma ConnectKeepsPass(s: State, e: nat, routine: Routine, inTask: bool, canStart: bool)
    requires Shape(s) && PassInv(s) && e in s.endpoints
    ensures PassInv(ConnectStep(s, e, routine, inTask, canStart))
  {
    var r := ConnectStep(s, e, routine, inTask, canStart);
    if InPass(r.gateway) {
      ContinuesSize(s.log, r.gateway.start);
      forall x | x in r.endpoints ensures PassReaches(r, x) {
        assert PassReaches(s, x) && Located(s, x);
      }
    }
  }

  lemma NotifyKeepsPass(s: State, e: nat)
    requires PassInv(s) && e in s.endpoints
    ensures PassInv(NotifyStep(s, e))
  {
    var r := NotifyStep(s, e);
    if InPass(r.gateway) {
      ContinuesSize(s.log, r.gateway.start);
      forall x | x in r.endpoints ensures PassReaches(r, x) { assert PassReaches(s, x); }
    }
  }

  /** A task that holds the mutex keeps the gateway out. */
  lemma ClearMeansNoPass(s: State, t: nat)
    requires Shape(s) && Enabled(s, Clear(t))
    ensures !InPass(s.gateway)
  {
    assert TaskFits(s, t);
  }

  lemma OthersKeepPass(s: State, ev: Event)
    requires Shape(s) && PassInv(s) && Enabled(s, ev)
    requires !ev.GatewayStep? && !ev.Connect? && !ev.Notify?
    ensures PassInv(Step(s, ev))
  {
    var r := Step(s, ev);
    if ev.Clear? {
      ClearMeansNoPass(s, ev.t);
    } else if InPass(r.gateway) {
      forall x | x in r.endpoints ensures PassReaches(r, x) { assert PassReaches(s, x); }
    }
  }

  lemma PassBegins(s: State)
    requires Shape(s) && Truthful(s) && s.gateway.Woken? && s.mutex.Free?
    ensures PassInv(GatewayRun(s))
  {
    var r := GatewayRun(s);
    forall x | x in r.endpoints ensures PassReaches(r, x) { assert Accounted(s, x) && Located(s, x); }
  }

  lemma PassGoesOn(s: State)
    requires Shape(s) && PassInv(s) && GatewayReady(s) && InPass(s.gateway)
    ensures PassInv(GatewayRun(s))
  {
    var r := GatewayRun(s);
    ContinuesSize(s.log, s.gateway.start);
    if InPass(r.gateway) {
      forall x | x in r.endpoints ensures PassReaches(r, x) { StillReached(s, x); }
    }
  }

  lemma StillReached(s: State, x: nat)
    requires Shape(s) && PassInv(s) && GatewayReady(s) && InPass(s.gateway) && x in s.endpoints
    requires InPass(GatewayRun(s).gateway) && Size(s.gateway.start) <= Size(s.log)
    ensures PassReaches(GatewayRun(s), x)
  {
    assert PassReaches(s, x) && Located(s, x);
  }

  lemma GatewayKeepsPass(s: State)
    requires Shape(s) && Truthful(s) && PassInv(s) && GatewayReady(s)
    ensures PassInv(GatewayRun(s))
  {
    match s.gateway
    case Idle =>
    case Woken => PassBegins(s);
    case _ => PassGoesOn(s);
  }

  lemma StepKeepsTick(s: State, ev: Event)
    requires Shape(s) && Truthful(s) && TickInv(s) && Enabled(s, ev)
    ensures TickInv(Step(s, ev))
  {
    var r := Step(s, ev);
    if r.core.Tick? {
      forall x | x in r.endpoints ensures TickReaches(r, x) {
        assert Accounted(s, x) && Located(s, x);
        assert s.core.Tick? ==> TickReaches(s, x);
      }
    }
  }

  // ---------- Theorems ----------

  ghost predicate Inv(s: State) {
    Shape(s) && Truthful(s) && PassInv(s) && TickInv(s)
  }

  lemma PowerOnIsGood(ids: set<nat>)
    requires NULL !in ids
    ensures Inv(PowerOn(ids))
  {
    var s := PowerOn(ids);
    forall i: nat | i < |s.table| ensures Filled(s, i) { }
    forall e | e in s.endpoints ensures Located(s, e) && Accounted(s, e) { }
  }

  lemma StepKeeps(s: State, ev: Event)
    requires Inv(s) && Enabled(s, ev)
    ensures Inv(Step(s, ev))
  {
    StepKeepsShape(s, ev);
    StepTruthful(s, ev);
    StepKeepsTick(s, ev);
    match ev
    case GatewayStep => GatewayKeepsPass(s);
    case Connect(e, routine, inTask, canStart) => ConnectKeepsPass(s, e, routine, inTask, canStart);
    case Notify(e) => NotifyKeepsPass(s, e);
    case _ => OthersKeepPass(s, ev);
  }

  /** In every run: the slot table and the `slot_` fields stay a bijection, handler calls never
      exceed notifications, and the log of the run is proper — each handler call belongs to a
      live connection and uses that connection's handler and context, and a disconnect never
      happens during a call. */
  lemma {:induction false} RunKeeps(s: State, run: seq<Event>)
    requires Inv(s) && Runs(s, run)
    ensures Inv(After(s, run))
    decreases |run|
  {
    if |run| > 0 {
      StepKeeps(s, run[0]);
      RunKeeps(Step(s, run[0]), run[1..]);
    }
  }

  /** The same, read off for one endpoint of a run from power-on. */
  lemma HandlerCallsBounded(ids: set<nat>, run: seq<Event>, e: nat)
    requires NULL !in ids && Runs(PowerOn(ids), run) && e in ids
    ensures var r := After(PowerOn(ids), run);
      && Proper(r.log) && Calls(r.log, e) <= Notifications(r.log, e)
      && (AttachmentOf(r.log, e) != Detached <==> e in r.table)
  {
    var r := After(PowerOn(ids), run);
    PowerOnIsGood(ids);
    RunKeeps(PowerOn(ids), run);
    RunContinues(PowerOn(ids), run);
    assert Accounted(r, e) && Located(r, e);
    if r.endpoints[e].slot < 0 { DetachedNotInTable(r, e); }
  }

  lemma StepContinues(s: State, ev: Event)
    requires Enabled(s, ev)
    ensures Continues(Step(s, ev).log, s.log)
    ensures Step(s, ev).endpoints.Keys == s.endpoints.Keys
  {
  }

  lemma {:induction false} ContinuesTransitive(c: Log, b: Log, a: Log)
    requires Continues(c, b) && Continues(b, a)
    ensures Continues(c, a)
  {
    if c != b { ContinuesTransitive(c.before, b, a); }
  }

  lemma {:induction false} RunContinues(s: State, run: seq<Event>)
    requires Runs(s, run)
    ensures Continues(After(s, run).log, s.log)
    ensures After(s, run).endpoints.Keys == s.endpoints.Keys
    decreases |run|
  {
    if |run| > 0 {
      var r := Step(s, run[0]);
      StepContinues(s, run[0]);
      RunContinues(r, run[1..]);
      ContinuesTransitive(After(s, run).log, r.log, s.log);
    }
  }

  /** No lost event: after `notifyFromHost` on a connected endpoint, and as long as it is not
      disconnected, the notification is pending, or the gateway has taken it and is about to
      call, or a handler call has begun since. */
  lemma NotificationNotLost(s: State, e: nat, run: seq<Event>)
    requires Inv(s) && e in s.endpoints && s.endpoints[e].slot >= 0
    requires Runs(NotifyStep(s, e), run)
    requires !DetachedSince(After(NotifyStep(s, e), run).log, Size(s.log) + 1, e)
    ensures var r := After(NotifyStep(s, e), run);
      e in r.endpoints &&
      (r.endpoints[e].pending || IsClaimed(r.gateway, e) || ServedSince(r.log, Size(s.log) + 1, e))
  {
    var s1 := NotifyStep(s, e);
    StepKeeps(s, Notify(e));
    RunKeeps(s1, run);
    RunContinues(s1, run);
    assert Accounted(s, e);
    StillOwed(After(s1, run), s1.log, e);
  }

  lemma StillOwed(r: State, mark: Log, e: nat)
    requires Truthful(r) && e in r.endpoints && Continues(r.log, mark) && !DetachedSince(r.log, Size(mark), e)
    requires Owed(mark, e) && AttachmentOf(mark, e) != Detached
    ensures r.endpoints[e].pending || IsClaimed(r.gateway, e) || ServedSince(r.log, Size(mark), e)
  {
    assert Accounted(r, e);
    OwedOrServed(r.log, mark, e);
  }

  /** When a pass has looked at every place, whoever was connected and owed a call at its start
      has been served by it. */
  lemma PassServes(s: State, e: nat)
    requires Inv(s) && e in s.endpoints && s.gateway.Scan? && s.gateway.next >= |s.table|
    requires Owed(s.gateway.start, e) && AttachmentOf(s.gateway.start, e) != Detached
    ensures ServedSince(s.log, Size(s.gateway.start), e)
  {
    assert PassReaches(s, e) && Located(s, e);
  }

  /** A call owed in `s` is made by the end of the first pass that starts after `s`, whatever
      else happens meanwhile, unless the endpoint is disconnected. */
  lemma NextPassServes(s: State, e: nat, run: seq<Event>)
    requires Inv(s) && e in s.endpoints && s.endpoints[e].slot >= 0 && Owed(s.log, e) && Runs(s, run)
    requires var r := After(s, run);
      && r.gateway.Scan? && r.gateway.next >= |r.table| && Size(r.gateway.start) >= Size(s.log)
      && !DetachedSince(r.log, Size(s.log), e)
    ensures ServedSince(After(s, run).log, Size(s.log), e)
  {
    var r := After(s, run);
    RunKeeps(s, run);
    RunContinues(s, run);
    var start, n := r.gateway.start, Size(s.log);
    assert Accounted(s, e);
    BeginningsNest(r.log, s.log, start);
    SinceGrows(r.log, start, n, e);
    ProperBeginning(r.log, start);
    OwedOrServed(start, s.log, e);
    if Owed(start, e) {
      PassServes(r, e);
      ServedEarlier(r.log, Size(start), n, e);
    }
  }

  lemma {:induction false} ProperBeginning(log: Log, mark: Log)
    requires Continues(log, mark) && Proper(log)
    ensures Proper(mark)
  {
    if log != mark { ProperBeginning(log.before, mark); }
  }

  /** A tick that ends leaves the gateway notified if any connected endpoint was owed a call when
      the tick began, except one whose call the gateway is just about to make. */
  lemma TickLatches(s: State, e: nat)
    requires Inv(s) && s.core.Tick? && TickScan(s).core.Tasks? && e in s.endpoints
    requires Owed(s.core.start, e) && s.endpoints[e].slot >= 0
    ensures TickScan(s).latch || IsClaimed(s.gateway, e)
  {
    assert TickReaches(s, e) && Located(s, e);
  }

  /** Once the critical section of `disconnect` is over, the endpoint is out of the table with
      nothing pending, and the gateway is at work on no endpoint. */
  lemma DisconnectQuiesces(s: State, t: nat)
    requires Inv(s) && Enabled(s, Clear(t))
    ensures var r := Step(s, Clear(t)); var e := s.tasks[t].e;
      && r.endpoints[e].slot == NO_SLOT && e !in r.table
      && AttachmentOf(r.log, e) == Detached && !InPass(r.gateway)
  {
    StepKeeps(s, Clear(t));
    var r, e := Step(s, Clear(t)), s.tasks[t].e;
    ClearMeansNoPass(s, t);
    assert TaskFits(s, t) && Located(s, e) && Accounted(r, e);
    DetachedNotInTable(r, e);
  }

  lemma DetachedNotInTable(s: State, e: nat)
    requires Bijection(s) && e in s.endpoints && s.endpoints[e].slot < 0
    ensures e !in s.table
  {
    forall i: nat | i < |s.table| ensures s.table[i] != e { assert Filled(s, i); }
  }

  /** An endpoint that is not connected has no handler running or about to run, and gets no call
      in any run that does not connect it. */
  lemma {:induction false} NoCallWhileDisconnected(s: State, e: nat, run: seq<Event>)
    requires Inv(s) && e in s.endpoints && s.endpoints[e].slot < 0 && Runs(s, run)
    requires forall ev :: ev in run && ev.Connect? ==> ev.e != e
    ensures Calls(After(s, run).log, e) == Calls(s.log, e)
    ensures OnEndpoint(After(s, run).gateway) ==> After(s, run).gateway.e != e
    decreases |run|
  {
    if OnEndpoint(s.gateway) { assert Filled(s, s.gateway.i); }
    if |run| > 0 {
      StepKeeps(s, run[0]);
      StaysDetached(s, e, run[0]);
      NoCallWhileDisconnected(Step(s, run[0]), e, run[1..]);
    }
  }

  lemma StaysDetached(s: State, e: nat, ev: Event)
    requires Shape(s) && e in s.endpoints && s.endpoints[e].slot < 0 && Enabled(s, ev)
    requires ev.Connect? ==> ev.e != e
    ensures e in Step(s, ev).endpoints && Step(s, ev).endpoints[e].slot < 0
    ensures Calls(Step(s, ev).log, e) == Calls(s.log, e)
  {
    if ev.GatewayStep? { GatewayPassesBy(s, e); }
  }

  lemma GatewayPassesBy(s: State, e: nat)
    requires Shape(s) && e in s.endpoints && s.endpoints[e].slot < 0 && GatewayReady(s)
    ensures GatewayRun(s).endpoints[e].slot < 0 && Calls(GatewayRun(s).log, e) == Calls(s.log, e)
  {
    if OnEndpoint(s.gateway) { assert Filled(s, s.gateway.i); }
  }

  /** What each answer of `connect` means. */
  lemma ConnectAnswers(s: State, e: nat, routine: Routine, inTask: bool, canStart: bool)
    requires Inv(s) && e in s.endpoints
    ensures var r := ConnectStep(s, e, routine, inTask, canStart);
      match ConnectAnswer(s, e, routine, inTask, canStart)
      case IsConnected => e !in s.table && e in r.table && !r.endpoints[e].pending
                          && AttachmentOf(r.log, e) == Attached(routine)
      case AlreadyConnected => e in s.table && r == s
      case NoCapacity => e !in s.table && r.table == s.table && r.endpoints == s.endpoints
                         && (NULL !in s.table || (s.gateway.NotStarted? && r == s))
      case WrongContext => r == s
  {
    var r := ConnectStep(s, e, routine, inTask, canStart);
    assert Located(s, e);
    match ConnectAnswer(s, e, routine, inTask, canStart)
    case IsConnected =>
      DetachedNotInTable(s, e);
      assert r.table[FirstFree(s.table)] == e;
    case AlreadyConnected =>
    case NoCapacity => DetachedNotInTable(s, e);
    case WrongContext =>
  }

  // ---------- What the steps accomplish ----------

  /** How many steps the gateway is from the end of its pass, at most. */
  function PassLength(g: Gateway): nat {
    match g
    case Scan(next, _) => if next <= CAPACITY then 4 * (CAPACITY - next) + 1 else 1
    case Loaded(i, _, _) => if i < CAPACITY then 4 * (CAPACITY - i) else 4
    case Claimed(i, _, _) => if i < CAPACITY then 4 * (CAPACITY - i) - 1 else 3
    case InHandler(i, _, _) => if i < CAPACITY then 4 * (CAPACITY - i) - 2 else 2
    case _ => 0
  }

  /** A notified gateway goes on to its pass, and every step of a pass brings it closer to its end. */
  lemma GatewayGoesOn(s: State)
    requires Inv(s)
    ensures s.gateway.Idle? && s.latch ==> GatewayReady(s) && GatewayRun(s).gateway.Woken?
    ensures s.gateway.Woken? && s.mutex.Free? ==> GatewayReady(s) && GatewayRun(s).gateway == Scan(0, s.log)
    ensures InPass(s.gateway) ==>
      GatewayReady(s) && (GatewayRun(s).gateway.Idle? || PassLength(GatewayRun(s).gateway) < PassLength(s.gateway))
  {
    if OnEndpoint(s.gateway) { assert Filled(s, s.gateway.i); }
  }

  /** A tick looks at one place after another and ends. */
  lemma TickGoesOn(s: State)
    requires s.core.Tick?
    ensures var r := TickScan(s);
      r.core.Tasks? || (s.core.next < |s.table| && r.core == Tick(s.core.next + 1, s.core.start))
  {
  }

  function DisconnectCalls(t: nat, e: nat): seq<Event> {
    [Disconnect(t, e, true)] + ([TakeMutex(t)] + ([Clear(t)] + ([GiveMutex(t)] + [])))
  }

  lemma FirstEvent(s: State, ev: Event, rest: seq<Event>)
    requires Enabled(s, ev) && Runs(Step(s, ev), rest)
    ensures Runs(s, [ev] + rest) && After(s, [ev] + rest) == After(Step(s, ev), rest)
  {
    assert ([ev] + rest)[1..] == rest;
  }

  /** Disconnecting does disconnect: with the mutex free, a task's four steps take the endpoint out of
      the table, reset it, and give the mutex back. */
  lemma DisconnectIsARun(s: State, t: nat, e: nat)
    requires Inv(s) && s.core.Tasks? && t !in s.tasks && e in s.endpoints && s.endpoints[e].slot >= 0 && s.mutex.Free?
    ensures Runs(s, DisconnectCalls(t, e))
    ensures After(s, DisconnectCalls(t, e)) ==
      s.(table := s.table[s.endpoints[e].slot := NULL],
         endpoints := s.endpoints[e := Endpoint(false, NO_ROUTINE, NO_SLOT)],
         log := Then(s.log, Disconnected(e)))
  {
    assert Located(s, e);
    var a := DisconnectStep(s, t, e, true);
    var b := TakeStep(a, t);
    var c := ClearStep(b, t);
    var d := GiveStep(c, t);
    assert d.tasks == s.tasks;
    FirstEvent(c, GiveMutex(t), []);
    FirstEvent(b, Clear(t), [GiveMutex(t)] + []);
    FirstEvent(a, TakeMutex(t), [Clear(t)] + ([GiveMutex(t)] + []));
    FirstEvent(s, Disconnect(t, e, true), [TakeMutex(t)] + ([Clear(t)] + ([GiveMutex(t)] + [])));
  }

  /** From elsewhere than a task, or of an endpoint that is not connected, it does nothing. */
  lemma DisconnectElse(s: State, t: nat, e: nat, inTask: bool)
    requires e in s.endpoints && (!inTask || s.endpoints[e].slot < 0)
    ensures DisconnectStep(s, t, e, inTask) == s
  {
  }
}
