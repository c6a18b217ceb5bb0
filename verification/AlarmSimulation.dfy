/** The interleaving model contains the sequential one: whatever a service call does for one thread
    in manual mode, nested calls from callbacks included, the lock-section machine does in a run of
    that thread's own steps that makes the same calls in the same order. */
module AlarmSimulation {
  import opened Int64
  import opened AlarmQueue
  import D = AlarmDelivery
  import opened AlarmTrace
  import opened AlarmProtocol
  import opened AlarmThread

  // ---------- The relation ----------

  function Bare(e: D.Alarm): Alarm {
    Entry(e.deadline, e.id, ())
  }

  function Bares(q: seq<D.Alarm>): (r: seq<Alarm>)
    ensures |r| == |q| && forall i :: 0 <= i < |q| ==> r[i] == Bare(q[i])
  {
    seq(|q|, i requires 0 <= i < |q| => Bare(q[i]))
  }

  function FiredIds(f: seq<D.Firing>): (r: seq<nat>)
    ensures |r| == |f| && forall i :: 0 <= i < |f| ==> r[i] == f[i].id
  {
    seq(|f|, i requires 0 <= i < |f| => f[i].id)
  }

  /** The shared state of the machine says what the sequential state says. */
  predicate Agrees(a: D.Time, s: State) {
    && !s.autoSync && !s.workerStarted
    && s.uptimeNs == a.uptimeNs && s.reservedNs == a.reservedNs
    && s.alarms == Bares(a.alarms) && s.nextId == a.nextId
    && s.active == a.active && s.service == a.service
    && s.claimed == FiredIds(a.fired) && s.called == s.claimed
  }

  predicate ByThread(e: Event, t: nat) {
    (e.Call? || e.Move?) && e.t == t
  }

  /** The calls that a run makes. */
  function CallsOf(run: seq<Event>): seq<Op> {
    if |run| == 0 then []
    else (if run[0].Call? then [run[0].op] else []) + CallsOf(run[1..])
  }

  lemma {:induction false} CallsOfAppend(run: seq<Event>, more: seq<Event>)
    ensures CallsOf(run + more) == CallsOf(run) + CallsOf(more)
    decreases |run|
  {
    if |run| == 0 {
      assert run + more == more;
    } else {
      var first := if run[0].Call? then [run[0].op] else [];
      assert (run + more)[0] == run[0] && (run + more)[1..] == run[1..] + more;
      CallsOfAppend(run[1..], more);
      assert CallsOf(run + more) == first + CallsOf(run[1..] + more);
      assert first + (CallsOf(run[1..]) + CallsOf(more)) == (first + CallsOf(run[1..])) + CallsOf(more);
    }
  }

  lemma CallsOfShort(t: nat, op: Op)
    ensures CallsOf([Move(t, 0)]) == [] && CallsOf([Move(t, 0), Move(t, 0)]) == []
    ensures CallsOf([Call(t, op)]) == [op] && CallsOf([Call(t, op), Move(t, 0)]) == [op]
  {
    var go, call := Move(t, 0), Call(t, op);
    assert [go][1..] == [] && [call][1..] == [] && [go, go][1..] == [go] && [call, go][1..] == [go];
  }

  function OpOf(a: D.Action): Op {
    match a
    case Schedule(deadlineUs, _) => Schedule(deadlineUs)
    case Cancel(id) => Cancel(id)
    case Lag(ns) => Lag(ns, 0)
    case Delay(us) => DelayFor(us)
    case Process => Process
    case BeginShutdown => BeginShutdown
    case FinishShutdown => FinishShutdown
  }

  /** The calls of the sequential model in the machine's terms. */
  function Ops(calls: seq<D.Action>): (r: seq<Op>)
    ensures |r| == |calls| && forall i :: 0 <= i < |calls| ==> r[i] == OpOf(calls[i])
  {
    seq(|calls|, i requires 0 <= i < |calls| => OpOf(calls[i]))
  }

  /** A run of thread `t` alone from shared state `s` and stack `from` to `r` and `to`, in which it
      makes the given calls and no other. */
  ghost predicate Leads(s: State, t: nat, from: seq<Frame>, run: seq<Event>, r: State, to: seq<Frame>,
                        calls: seq<D.Action>)
  {
    && Reaches(With(s, t, from), run, With(r, t, to))
    && r.threads == s.threads
    && CallsOf(run) == Ops(calls)
    && forall e :: e in run ==> ByThread(e, t)
  }

  lemma LeadsOn(s: State, t: nat, from: seq<Frame>, run: seq<Event>, m: State, mid: seq<Frame>, calls: seq<D.Action>,
                more: seq<Event>, r: State, to: seq<Frame>, moreCalls: seq<D.Action>)
    requires Leads(s, t, from, run, m, mid, calls) && Leads(m, t, mid, more, r, to, moreCalls)
    ensures Leads(s, t, from, run + more, r, to, calls + moreCalls)
  {
    ReachesAppend(With(s, t, from), run, With(m, t, mid), more, With(r, t, to));
    CallsOfAppend(run, more);
    assert Ops(calls + moreCalls) == Ops(calls) + Ops(moreCalls);
  }

  /** Steps without a call. */
  lemma Moves(s: State, t: nat, from: seq<Frame>, run: seq<Event>, r: State, to: seq<Frame>)
    requires Reaches(With(s, t, from), run, With(r, t, to)) && r.threads == s.threads
    requires run == [Move(t, 0)] || run == [Move(t, 0), Move(t, 0)]
    ensures Leads(s, t, from, run, r, to, [])
  {
    CallsOfShort(t, Process);
  }

  /** One call, with or without a step after it. */
  lemma Calls(s: State, t: nat, from: seq<Frame>, run: seq<Event>, r: State, to: seq<Frame>, act: D.Action)
    requires Reaches(With(s, t, from), run, With(r, t, to)) && r.threads == s.threads
    requires run == [Call(t, OpOf(act))] || run == [Call(t, OpOf(act)), Move(t, 0)]
    ensures Leads(s, t, from, run, r, to, [act])
  {
    CallsOfShort(t, OpOf(act));
  }

  // ---------- The list without its payloads ----------

  lemma {:induction false} BareUpperBound(q: seq<D.Alarm>, deadline: int)
    ensures UpperBound(Bares(q), deadline) == UpperBound(q, deadline)
    decreases |q|
  {
    if |q| > 0 && q[0].deadline <= deadline {
      assert Bares(q)[1..] == Bares(q[1..]);
      BareUpperBound(q[1..], deadline);
    }
  }

  lemma BareInsert(q: seq<D.Alarm>, e: D.Alarm)
    ensures Insert(Bares(q), Bare(e)) == Bares(Insert(q, e))
  {
    BareUpperBound(q, e.deadline);
  }

  lemma {:induction false} BareFind(q: seq<D.Alarm>, id: nat)
    ensures Find(Bares(q), id) == Find(q, id)
    decreases |q|
  {
    if |q| > 0 && q[0].id != id {
      assert Bares(q)[1..] == Bares(q[1..]);
      BareFind(q[1..], id);
    }
  }


  // ---------- Calls of one section ----------

  lemma SimSchedule(a: D.Time, s: State, t: nat, st: seq<Frame>, deadlineUs: int, callback: D.Script)
    returns (run: seq<Event>, r: State)
    requires Agrees(a, s) && Ready(t, st) && !D.DoSchedule(a, deadlineUs, callback).aborted
    ensures Leads(s, t, st, run, r, st, [D.Schedule(deadlineUs, callback)])
    ensures Agrees(D.DoSchedule(a, deadlineUs, callback), r)
  {
    ReadyCalls(s, t, st);
    ScheduleReturns(s, t, st, deadlineUs);
    BareInsert(a.alarms, Entry(deadlineUs, a.nextId, callback));
    run, r := [Call(t, Schedule(deadlineUs)), Move(t, 0)], Scheduled(s, deadlineUs);
    Calls(s, t, st, run, r, st, D.Schedule(deadlineUs, callback));
  }

  lemma SimCancel(a: D.Time, s: State, t: nat, st: seq<Frame>, id: nat) returns (run: seq<Event>, r: State)
    requires Agrees(a, s) && Ready(t, st)
    ensures Leads(s, t, st, run, r, st, [D.Cancel(id)]) && Agrees(D.DoCancel(a, id), r)
  {
    ReadyCalls(s, t, st);
    BareFind(a.alarms, id);
    var k := Find(s.alarms, id);
    if id == 0 || k == |s.alarms| {
      ByStep(With(s, t, st), Call(t, Cancel(id)), With(s, t, st));
      run, r := [Call(t, Cancel(id))], s;
    } else {
      var m := s.(alarms := RemoveAt(s.alarms, k), cancelled := s.cancelled + {id});
      assert RemoveAt(Bares(a.alarms), k) == Bares(RemoveAt(a.alarms, k));
      PushOn(m, t, st, NotifyOwed);
      CallReturns(s, m, t, st, Cancel(id));
      run, r := [Call(t, Cancel(id)), Move(t, 0)], Announced(m);
    }
    Calls(s, t, st, run, r, st, D.Cancel(id));
  }

  lemma SimLag(a: D.Time, s: State, t: nat, st: seq<Frame>, ns: nat) returns (run: seq<Event>, r: State)
    requires Agrees(a, s) && Ready(t, st) && !a.aborted && !D.DoLag(a, ns).aborted
    ensures Leads(s, t, st, run, r, st, [D.Lag(ns)]) && Agrees(D.DoLag(a, ns), r)
  {
    ReadyCalls(s, t, st);
    var now := s.uptimeNs + ns;
    var m := s.(uptimeNs := now, reservedNs := Max(s.reservedNs, now));
    PushOn(m, t, st, NotifyOwed);
    CallReturns(s, m, t, st, Lag(ns, 0));
    run, r := [Call(t, Lag(ns, 0)), Move(t, 0)], Announced(m);
    Calls(s, t, st, run, r, st, D.Lag(ns));
  }

  lemma SimBeginShutdown(a: D.Time, s: State, t: nat, st: seq<Frame>) returns (run: seq<Event>, r: State)
    requires Agrees(a, s) && Ready(t, st)
    ensures Leads(s, t, st, run, r, st, [D.BeginShutdown]) && Agrees(D.Act(a, D.BeginShutdown), r)
  {
    ReadyCalls(s, t, st);
    if s.active || !s.service.Running? {
      ByStep(With(s, t, st), Call(t, BeginShutdown), With(s, t, st));
      run, r := [Call(t, BeginShutdown)], s;
    } else {
      var m := s.(service := Closing);
      PushOn(m, t, st, NotifyOwed);
      CallReturns(s, m, t, st, BeginShutdown);
      run, r := [Call(t, BeginShutdown), Move(t, 0)], Announced(m);
    }
    Calls(s, t, st, run, r, st, D.BeginShutdown);
  }

  lemma SimFinishShutdown(a: D.Time, s: State, t: nat, st: seq<Frame>) returns (run: seq<Event>, r: State)
    requires Agrees(a, s) && Ready(t, st) && !D.Act(a, D.FinishShutdown).aborted
    ensures Leads(s, t, st, run, r, st, [D.FinishShutdown]) && Agrees(D.Act(a, D.FinishShutdown), r)
  {
    ReadyCalls(s, t, st);
    r := s.(alarms := [], discarded := s.discarded + Ids(s.alarms), service := Stopped);
    PushOn(s, t, st, Joining);
    TopOf(s, t, st, Joining);
    TopOf(r, t, st, Joining);
    var mid := With(s, t, st + [Joining]);
    ByStep(With(s, t, st), Call(t, FinishShutdown), mid);
    ByStep(mid, Move(t, 0), With(r, t, st));
    ReachesAppend(With(s, t, st), [Call(t, FinishShutdown)], mid, [Move(t, 0)], With(r, t, st));
    run := [Call(t, FinishShutdown)] + [Move(t, 0)];
    Calls(s, t, st, run, r, st, D.FinishShutdown);
  }

  // ---------- Delivery ----------

  lemma SimAdvance(a: D.Time, s: State, limitNs: int, advance: bool)
    requires Agrees(a, s)
    ensures Agrees(D.Advance(a, limitNs, advance), Advance(s, limitNs, advance, 0))
    ensures Advance(s, limitNs, advance, 0).threads == s.threads
    ensures HeadDue(Advance(s, limitNs, advance, 0)) <==> D.HeadDue(D.Advance(a, limitNs, advance))
  {
  }

  lemma SimClaim(a: D.Time, s: State)
    requires Agrees(a, s) && D.HeadDue(a)
    ensures Agrees(D.Claim(a), Claimed(s)) && Claimed(s).threads == s.threads
  {
    assert Bares(a.alarms)[1..] == Bares(a.alarms[1..]);
  }

  lemma SimRelease(a: D.Time, s: State, ticket: int)
    requires Agrees(a, s)
    ensures Agrees(a.(active := false), Released(s, ticket)) && Released(s, ticket).threads == s.threads
  {
  }

  /** The sequential drain, one claim at a time. */
  lemma DrainUnfolds(a: D.Time, limitNs: int, advance: bool)
    requires !a.aborted
    ensures var now := D.Advance(a, limitNs, advance);
      D.Drain(a, limitNs, advance) ==
        if D.HeadDue(now) then D.Drain(D.Run(D.Claim(now), now.alarms[0].payload), limitNs, advance)
        else now.(active := false)
  {
  }

  lemma {:induction false} SimDrain(a: D.Time, s: State, t: nat, st: seq<Frame>, f: Frame)
    returns (run: seq<Event>, r: State)
    requires D.Good(a) && !a.aborted && a.active && Agrees(a, s) && f.Draining? && f.limitNs <= a.reservedNs
    requires !D.Drain(a, f.limitNs, f.advance).aborted
    ensures Leads(s, t, st + [f], run, r, st, TraceDrain(a, f.limitNs, f.advance))
    ensures Agrees(D.Drain(a, f.limitNs, f.advance), r)
    decreases D.Total(a.alarms), 0
  {
    var now, m := D.Advance(a, f.limitNs, f.advance), Advance(s, f.limitNs, f.advance, 0);
    SimAdvance(a, s, f.limitNs, f.advance);
    DrainUnfolds(a, f.limitNs, f.advance);
    if !D.HeadDue(now) {
      run, r := SimRest(a, s, t, st, f);
    } else {
      var id := m.alarms[0].id;
      D.AdvanceKeeps(a, f.limitNs, f.advance);
      D.ClaimIsGood(now);
      SimClaim(now, m);
      DrainClaims(s, t, st, f.limitNs, f.advance, f.ticket);
      var c := D.Claim(now);
      var b := D.Run(c, now.alarms[0].payload);
      D.RunKeeps(c, now.alarms[0].payload);
      AbortStays(b, f.limitNs, f.advance);
      var script, x := SimRun(c, Claimed(m), t, st + [f] + [InCallback(id)], now.alarms[0].payload);
      var rest, y := SimDrain(b, x, t, st, f);
      var ours, theirs := TraceRun(c, now.alarms[0].payload), TraceDrain(b, f.limitNs, f.advance);
      run := SimRound(s, Claimed(m), x, y, t, st, f, id, script, ours, rest, theirs);
      TraceUnfolds(a, f.limitNs, f.advance);
      r := y;
    }
  }

  lemma TraceUnfolds(a: D.Time, limitNs: int, advance: bool)
    requires !a.aborted
    ensures var now := D.Advance(a, limitNs, advance);
      D.HeadDue(now) ==>
        var c, callback := D.Claim(now), now.alarms[0].payload;
        TraceDrain(a, limitNs, advance) == TraceRun(c, callback) + TraceDrain(D.Run(c, callback), limitNs, advance)
  {
  }

  /** A claim, the callback, its return and the rest of the drain, one after another. */
  lemma SimRound(s: State, c: State, x: State, y: State, t: nat, st: seq<Frame>, f: Frame, id: nat,
                 script: seq<Event>, ours: seq<D.Action>, rest: seq<Event>, theirs: seq<D.Action>)
    returns (run: seq<Event>)
    requires c.threads == s.threads
    requires Reaches(With(s, t, st + [f]), [Move(t, 0), Move(t, 0)], With(c, t, st + [f] + [InCallback(id)]))
    requires Leads(c, t, st + [f] + [InCallback(id)], script, x, st + [f] + [InCallback(id)], ours)
    requires Leads(x, t, st + [f], rest, y, st, theirs)
    ensures Leads(s, t, st + [f], run, y, st, ours + theirs)
  {
    var base, inside, back := st + [f], st + [f] + [InCallback(id)], [Move(t, 0)];
    CallbackReturns(x, t, base, id);
    Moves(s, t, base, [Move(t, 0), Move(t, 0)], c, inside);
    Moves(x, t, inside, back, x, base);
    run := FourParts(s, c, x, y, t, base, inside, st, script, ours, rest, theirs);
  }

  lemma FourParts(s: State, c: State, x: State, y: State, t: nat, base: seq<Frame>, inside: seq<Frame>, st: seq<Frame>,
                  script: seq<Event>, ours: seq<D.Action>, rest: seq<Event>, theirs: seq<D.Action>)
    returns (run: seq<Event>)
    requires Leads(s, t, base, [Move(t, 0), Move(t, 0)], c, inside, []) && Leads(c, t, inside, script, x, inside, ours)
    requires Leads(x, t, inside, [Move(t, 0)], x, base, []) && Leads(x, t, base, rest, y, st, theirs)
    ensures Leads(s, t, base, run, y, st, ours + theirs)
  {
    LeadsOn(s, t, base, [Move(t, 0), Move(t, 0)], c, inside, [], script, x, inside, ours);
    LeadsOn(x, t, inside, [Move(t, 0)], x, base, [], rest, y, st, theirs);
    assert [] + ours == ours && [] + theirs == theirs;
    LeadsOn(s, t, base, [Move(t, 0), Move(t, 0)] + script, x, inside, ours, [Move(t, 0)] + rest, y, st, theirs);
    run := [Move(t, 0), Move(t, 0)] + script + ([Move(t, 0)] + rest);
  }

  lemma AbortStays(b: D.Time, limitNs: int, advance: bool)
    requires !D.Drain(b, limitNs, advance).aborted
    ensures !b.aborted
  {
  }

  lemma SimRest(a: D.Time, s: State, t: nat, st: seq<Frame>, f: Frame) returns (run: seq<Event>, r: State)
    requires Agrees(a, s) && f.Draining? && !D.HeadDue(D.Advance(a, f.limitNs, f.advance))
    ensures Leads(s, t, st + [f], run, r, st, []) && Agrees(D.Advance(a, f.limitNs, f.advance).(active := false), r)
  {
    var now, m := D.Advance(a, f.limitNs, f.advance), Advance(s, f.limitNs, f.advance, 0);
    SimAdvance(a, s, f.limitNs, f.advance);
    DrainRests(s, t, st, f.limitNs, f.advance, f.ticket);
    ReleaseReturns(m, t, st, f.ticket);
    SimRelease(now, m, f.ticket);
    r := Released(m, f.ticket);
    Moves(s, t, st + [f], [Move(t, 0)], m, st + [Releasing(f.ticket)]);
    Moves(m, t, st + [Releasing(f.ticket)], [Move(t, 0), Move(t, 0)], r, st);
    LeadsOn(s, t, st + [f], [Move(t, 0)], m, st + [Releasing(f.ticket)], [], [Move(t, 0), Move(t, 0)], r, st, []);
    run := [Move(t, 0)] + [Move(t, 0), Move(t, 0)];
  }

  lemma {:induction false} SimDeliver(a: D.Time, s: State, t: nat, st: seq<Frame>, f: Frame)
    returns (run: seq<Event>, r: State)
    requires D.Good(a) && !a.aborted && a.service.Running? && Agrees(a, s)
    requires f.Entering? && f.limitNs <= a.reservedNs && !D.Deliver(a, f.limitNs, f.advance).aborted
    ensures Leads(s, t, st + [f], run, r, st, TraceDeliver(a, f.limitNs, f.advance))
    ensures Agrees(D.Deliver(a, f.limitNs, f.advance), r)
    decreases D.Total(a.alarms), 1
  {
    if s.active {
      EnterReturns(s, t, st, f.limitNs, f.advance, f.ticket);
      run, r := [Move(t, 0)], Published(s, f.limitNs, f.advance, f.ticket);
      Moves(s, t, st + [f], run, r, st);
    } else {
      var m, g := Owned(s, t, |st|), Draining(f.limitNs, f.advance, f.ticket);
      EnterOwns(s, t, st, f.limitNs, f.advance, f.ticket);
      var rest, y := SimDrain(a.(active := true), m, t, st, g);
      var calls := TraceDrain(a.(active := true), f.limitNs, f.advance);
      Moves(s, t, st + [f], [Move(t, 0)], m, st + [g]);
      LeadsOn(s, t, st + [f], [Move(t, 0)], m, st + [g], [], rest, y, st, calls);
      assert [] + calls == calls;
      run, r := [Move(t, 0)] + rest, y;
    }
  }

  lemma {:induction false} SimDelay(a: D.Time, s: State, t: nat, st: seq<Frame>, us: nat)
    returns (run: seq<Event>, r: State)
    requires D.Good(a) && !a.aborted && Agrees(a, s) && Ready(t, st) && !D.Act(a, D.Delay(us)).aborted
    ensures Leads(s, t, st, run, r, st, TraceAct(a, D.Delay(us))) && Agrees(D.Act(a, D.Delay(us)), r)
    decreases D.Total(a.alarms), 2
  {
    var b := D.Reserve(a, us);
    var duration, target := us * NANOS_PER_MICRO, Max(s.uptimeNs, s.reservedNs) + us * NANOS_PER_MICRO;
    var m := s.(reservedNs := target, delays := s.delays + [Delay(duration, target, false)]);
    var f := Entering(target, true, |s.delays|);
    ReadyCalls(s, t, st);
    PushOn(m, t, st, f);
    ByStep(With(s, t, st), Call(t, DelayFor(us)), With(m, t, st + [f]));
    var rest, y := SimDeliver(b, m, t, st, f);
    Calls(s, t, st, [Call(t, DelayFor(us))], m, st + [f], D.Delay(us));
    LeadsOn(s, t, st, [Call(t, DelayFor(us))], m, st + [f], [D.Delay(us)], rest, y, st,
            TraceDeliver(b, b.reservedNs, true));
    run, r := [Call(t, DelayFor(us))] + rest, y;
  }

  lemma {:induction false} SimProcess(a: D.Time, s: State, t: nat, st: seq<Frame>)
    returns (run: seq<Event>, r: State)
    requires D.Good(a) && !a.aborted && Agrees(a, s) && Ready(t, st) && !D.Act(a, D.Process).aborted
    ensures Leads(s, t, st, run, r, st, TraceAct(a, D.Process)) && Agrees(D.Act(a, D.Process), r)
    decreases D.Total(a.alarms), 2
  {
    ReadyCalls(s, t, st);
    if s.service.Running? {
      var f := Entering(s.uptimeNs, false, -1);
      ProcessChecks(s, t, st);
      var rest, y := SimDeliver(a, s, t, st, f);
      Calls(s, t, st, [Call(t, Process), Move(t, 0)], s, st + [f], D.Process);
      LeadsOn(s, t, st, [Call(t, Process), Move(t, 0)], s, st + [f], [D.Process], rest, y, st,
              TraceDeliver(a, a.uptimeNs, false));
      run, r := [Call(t, Process), Move(t, 0)] + rest, y;
    } else {
      ByStep(With(s, t, st), Call(t, Process), With(s, t, st));
      run, r := [Call(t, Process)], s;
      Calls(s, t, st, run, r, st, D.Process);
      assert [D.Process] + [] == [D.Process];
    }
  }

  /** Every service call of the sequential model is a run of the machine by one thread. */
  lemma {:induction false} SimAct(a: D.Time, s: State, t: nat, st: seq<Frame>, act: D.Action)
    returns (run: seq<Event>, r: State)
    requires D.Good(a) && !a.aborted && Agrees(a, s) && Ready(t, st) && !D.Act(a, act).aborted
    ensures Leads(s, t, st, run, r, st, TraceAct(a, act)) && Agrees(D.Act(a, act), r)
    decreases D.Total(a.alarms) + D.ActionSize(act), 3
  {
    match act
    case Schedule(deadlineUs, callback) => run, r := SimSchedule(a, s, t, st, deadlineUs, callback);
    case Cancel(id) => run, r := SimCancel(a, s, t, st, id);
    case Lag(ns) => run, r := SimLag(a, s, t, st, ns);
    case Delay(us) => run, r := SimDelay(a, s, t, st, us);
    case Process => run, r := SimProcess(a, s, t, st);
    case BeginShutdown => run, r := SimBeginShutdown(a, s, t, st);
    case FinishShutdown => run, r := SimFinishShutdown(a, s, t, st);
  }

  /** The same for every script of calls, at the top level or from a callback. */
  lemma {:induction false} SimRun(a: D.Time, s: State, t: nat, st: seq<Frame>, c: D.Script)
    returns (run: seq<Event>, r: State)
    requires D.Good(a) && !a.aborted && Agrees(a, s) && Ready(t, st) && !D.Run(a, c).aborted
    ensures Leads(s, t, st, run, r, st, TraceRun(a, c)) && Agrees(D.Run(a, c), r)
    decreases D.Total(a.alarms) + D.Size(c), 4
  {
    if c.Done? {
      ReachesNothing(With(s, t, st), [], With(s, t, st));
      run, r := [], s;
    } else {
      var b := D.Act(a, c.first);
      D.ActKeeps(a, c.first);
      var first, m := SimAct(a, s, t, st, c.first);
      var rest, y := SimRun(b, m, t, st, c.rest);
      LeadsOn(s, t, st, first, m, st, TraceAct(a, c.first), rest, y, st, TraceRun(b, c.rest));
      run, r := first + rest, y;
    }
  }

  /** From power-on: every program that completes is a run of the machine by one thread that makes
      the program's own calls, in order and with their arguments, and ends in the same state,
      outside the service, with the same callbacks called in the same order. */
  lemma EveryProgramIsARun(t: nat, program: D.Script) returns (run: seq<Event>, r: State)
    requires t != WORKER && !D.Run(D.POWER_ON, program).aborted
    ensures Leads(PowerOn(false), t, [], run, r, [], TraceRun(D.POWER_ON, program))
    ensures Agrees(D.Run(D.POWER_ON, program), r)
  {
    assert Bares([]) == [] && FiredIds([]) == [];
    run, r := SimRun(D.POWER_ON, PowerOn(false), t, [], program);
  }
}
