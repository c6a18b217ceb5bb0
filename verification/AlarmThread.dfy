/** One thread's own steps through the alarm service, without a worker: which runs take it through
    a whole service call, and what they do to the shared state. */
module AlarmThread {
  import opened Int64
  import opened AlarmQueue
  import opened AlarmProtocol

  /** The state `s` with thread `t` standing at `st`. */
  function With(s: State, t: nat, st: seq<Frame>): State {
    s.(threads := s.threads[t := st])
  }

  /** A thread that may call the service: outside it, or in a callback. */
  predicate Ready(t: nat, st: seq<Frame>) {
    if |st| == 0 then t != WORKER else Top(st).InCallback?
  }

  lemma ByStep(s: State, e: Event, r: State)
    requires Enabled(s, e) && Step(s, e) == r
    ensures Reaches(s, [e], r)
  {
    OneStep(s, e);
  }

  lemma Nothing(s: State)
    ensures Reaches(s, [], s)
  {
  }

  // ---------- Stacks ----------

  lemma PushOn(s: State, t: nat, st: seq<Frame>, f: Frame)
    ensures Stack(With(s, t, st), t) == st
    ensures Push(With(s, t, st), t, f) == With(s, t, st + [f])
  {
    assert s.threads[t := st][t := st + [f]] == s.threads[t := st + [f]];
  }

  lemma TopOf(s: State, t: nat, st: seq<Frame>, f: Frame)
    ensures Stack(With(s, t, st + [f]), t) == st + [f] && Top(st + [f]) == f
    ensures Pop(With(s, t, st + [f]), t) == With(s, t, st)
  {
    assert (st + [f])[..|st|] == st;
    assert s.threads[t := st + [f]][t := st] == s.threads[t := st];
  }

  lemma ReplaceTop(s: State, t: nat, st: seq<Frame>, f: Frame, g: Frame)
    ensures Replace(With(s, t, st + [f]), t, g) == With(s, t, st + [g])
  {
    assert (st + [f])[..|st|] == st;
    assert s.threads[t := st + [f]][t := st + [g]] == s.threads[t := st + [g]];
  }

  // ---------- Steps of the top frame ----------

  function Announced(s: State): State {
    s.(generation := s.generation + 1)
  }

  lemma NotifyReturns(s: State, t: nat, st: seq<Frame>)
    ensures Reaches(With(s, t, st + [NotifyOwed]), [Move(t, 0)], With(Announced(s), t, st))
  {
    TopOf(s, t, st, NotifyOwed);
    TopOf(Announced(s), t, st, NotifyOwed);
    ByStep(With(s, t, st + [NotifyOwed]), Move(t, 0), With(Announced(s), t, st));
  }

  lemma PumpEnters(s: State, t: nat, st: seq<Frame>)
    ensures Reaches(With(s, t, st + [PumpChecked]), [Move(t, 0)], With(s, t, st + [Entering(s.uptimeNs, false, -1)]))
  {
    TopOf(s, t, st, PumpChecked);
    ReplaceTop(s, t, st, PumpChecked, Entering(s.uptimeNs, false, -1));
    ByStep(With(s, t, st + [PumpChecked]), Move(t, 0), With(s, t, st + [Entering(s.uptimeNs, false, -1)]));
  }

  /** Delivery is active elsewhere, or further down this stack: publish and return. */
  function Published(s: State, limitNs: int, advance: bool, ticket: int): State {
    Complete(if advance then s.(uptimeNs := Max(s.uptimeNs, limitNs)) else s, ticket)
  }

  lemma CompleteWith(s: State, t: nat, st: seq<Frame>, ticket: int)
    ensures Complete(With(s, t, st), ticket) == With(Complete(s, ticket), t, st)
  {
  }

  lemma EnterReturns(s: State, t: nat, st: seq<Frame>, limitNs: int, advance: bool, ticket: int)
    requires s.active && s.service.Running?
    ensures Reaches(With(s, t, st + [Entering(limitNs, advance, ticket)]), [Move(t, 0)],
                    With(Published(s, limitNs, advance, ticket), t, st))
  {
    var f, p := Entering(limitNs, advance, ticket), Published(s, limitNs, advance, ticket);
    var m := if advance then s.(uptimeNs := Max(s.uptimeNs, limitNs)) else s;
    TopOf(s, t, st, f);
    CompleteWith(m, t, st + [f], ticket);
    TopOf(p, t, st, f);
    ByStep(With(s, t, st + [f]), Move(t, 0), With(p, t, st));
  }

  function Owned(s: State, t: nat, depth: nat): State {
    s.(active := true, owner := t, depth := depth)
  }

  lemma EnterOwns(s: State, t: nat, st: seq<Frame>, limitNs: int, advance: bool, ticket: int)
    requires !s.active && s.service.Running?
    ensures Reaches(With(s, t, st + [Entering(limitNs, advance, ticket)]), [Move(t, 0)],
                    With(Owned(s, t, |st|), t, st + [Draining(limitNs, advance, ticket)]))
  {
    var f, g := Entering(limitNs, advance, ticket), Draining(limitNs, advance, ticket);
    TopOf(s, t, st, f);
    ReplaceTop(Owned(s, t, |st|), t, st, f, g);
    ByStep(With(s, t, st + [f]), Move(t, 0), With(Owned(s, t, |st|), t, st + [g]));
  }

  /** The state after the head was claimed and its callback entered. */
  function Claimed(s: State): State
    requires |s.alarms| > 0
  {
    var id := s.alarms[0].id;
    s.(alarms := s.alarms[1..], claimed := s.claimed + [id], called := s.called + [id], generation := s.generation + 1)
  }

  lemma AdvanceWith(s: State, t: nat, st: seq<Frame>, limitNs: int, advance: bool)
    ensures Advance(With(s, t, st), limitNs, advance, 0) == With(Advance(s, limitNs, advance, 0), t, st)
  {
  }

  lemma DrainClaims(s: State, t: nat, st: seq<Frame>, limitNs: int, advance: bool, ticket: int)
    requires HeadDue(Advance(s, limitNs, advance, 0))
    ensures var now := Advance(s, limitNs, advance, 0); var f := Draining(limitNs, advance, ticket);
      Reaches(With(s, t, st + [f]), [Move(t, 0), Move(t, 0)],
              With(Claimed(now), t, st + [f] + [InCallback(now.alarms[0].id)]))
  {
    var now, f := Advance(s, limitNs, advance, 0), Draining(limitNs, advance, ticket);
    var id := now.alarms[0].id;
    var m := now.(alarms := now.alarms[1..], claimed := now.claimed + [id]);
    var from, mid := With(s, t, st + [f]), With(m, t, st + [f] + [ClaimNotify(id)]);
    ClaimStep(s, t, st, limitNs, advance, ticket);
    CallbackStarts(m, t, st + [f], id);
    ReachesAppend(from, [Move(t, 0)], mid, [Move(t, 0)], With(Claimed(now), t, st + [f] + [InCallback(id)]));
  }

  lemma ClaimStep(s: State, t: nat, st: seq<Frame>, limitNs: int, advance: bool, ticket: int)
    requires HeadDue(Advance(s, limitNs, advance, 0))
    ensures var now := Advance(s, limitNs, advance, 0);
      var id, f := now.alarms[0].id, Draining(limitNs, advance, ticket);
      Reaches(With(s, t, st + [f]), [Move(t, 0)],
              With(now.(alarms := now.alarms[1..], claimed := now.claimed + [id]), t, st + [f] + [ClaimNotify(id)]))
  {
    var now, f := Advance(s, limitNs, advance, 0), Draining(limitNs, advance, ticket);
    var id := now.alarms[0].id;
    var m := now.(alarms := now.alarms[1..], claimed := now.claimed + [id]);
    TopOf(s, t, st, f);
    AdvanceWith(s, t, st + [f], limitNs, advance);
    PushOn(m, t, st + [f], ClaimNotify(id));
    DrainStepIs(With(s, t, st + [f]), With(now, t, st + [f]), t);
    ByStep(With(s, t, st + [f]), Move(t, 0), With(m, t, st + [f] + [ClaimNotify(id)]));
  }

  lemma DrainStepIs(s: State, now: State, t: nat)
    requires |Stack(s, t)| > 0 && Top(Stack(s, t)).Draining?
    requires var f := Top(Stack(s, t)); now == Advance(s, f.limitNs, f.advance, 0)
    ensures MoveEnabled(s, t)
    ensures HeadDue(now) ==>
      var id := now.alarms[0].id;
      MoveStep(s, t, 0) == Push(now.(alarms := now.alarms[1..], claimed := now.claimed + [id]), t, ClaimNotify(id))
    ensures !HeadDue(now) ==>
      |Stack(now, t)| > 0 && MoveStep(s, t, 0) == Replace(now, t, Releasing(Top(Stack(s, t)).ticket))
  {
    assert now.threads == s.threads;
  }

  lemma CallbackStarts(m: State, t: nat, st: seq<Frame>, id: nat)
    ensures Reaches(With(m, t, st + [ClaimNotify(id)]), [Move(t, 0)],
                    With(m.(generation := m.generation + 1, called := m.called + [id]), t, st + [InCallback(id)]))
  {
    var r := m.(generation := m.generation + 1, called := m.called + [id]);
    TopOf(m, t, st, ClaimNotify(id));
    ReplaceTop(r, t, st, ClaimNotify(id), InCallback(id));
    ByStep(With(m, t, st + [ClaimNotify(id)]), Move(t, 0), With(r, t, st + [InCallback(id)]));
  }

  lemma CallbackReturns(s: State, t: nat, st: seq<Frame>, id: nat)
    ensures Reaches(With(s, t, st + [InCallback(id)]), [Move(t, 0)], With(s, t, st))
  {
    TopOf(s, t, st, InCallback(id));
    ByStep(With(s, t, st + [InCallback(id)]), Move(t, 0), With(s, t, st));
  }

  lemma DrainRests(s: State, t: nat, st: seq<Frame>, limitNs: int, advance: bool, ticket: int)
    requires !HeadDue(Advance(s, limitNs, advance, 0))
    ensures Reaches(With(s, t, st + [Draining(limitNs, advance, ticket)]), [Move(t, 0)],
                    With(Advance(s, limitNs, advance, 0), t, st + [Releasing(ticket)]))
  {
    var now, f := Advance(s, limitNs, advance, 0), Draining(limitNs, advance, ticket);
    var from := With(s, t, st + [f]);
    TopOf(s, t, st, f);
    AdvanceWith(s, t, st + [f], limitNs, advance);
    DrainStepIs(from, With(now, t, st + [f]), t);
    ReplaceTop(now, t, st, f, Releasing(ticket));
    ByStep(from, Move(t, 0), With(now, t, st + [Releasing(ticket)]));
  }

  /** The state after delivery was given up and announced. */
  function Released(s: State, ticket: int): State {
    Announced(Complete(s.(active := false), ticket))
  }

  lemma ReleaseReturns(s: State, t: nat, st: seq<Frame>, ticket: int)
    ensures Reaches(With(s, t, st + [Releasing(ticket)]), [Move(t, 0), Move(t, 0)], With(Released(s, ticket), t, st))
  {
    var c := Complete(s.(active := false), ticket);
    var from, mid := With(s, t, st + [Releasing(ticket)]), With(c, t, st + [NotifyOwed]);
    TopOf(s, t, st, Releasing(ticket));
    CompleteWith(s.(active := false), t, st + [Releasing(ticket)], ticket);
    ReplaceTop(c, t, st, Releasing(ticket), NotifyOwed);
    ByStep(from, Move(t, 0), mid);
    NotifyReturns(c, t, st);
    ReachesAppend(from, [Move(t, 0)], mid, [Move(t, 0)], With(Released(s, ticket), t, st));
  }

  // ---------- Calls ----------

  lemma ReadyCalls(s: State, t: nat, st: seq<Frame>)
    requires Ready(t, st)
    ensures CanCall(With(s, t, st), t) && Stack(With(s, t, st), t) == st
  {
  }

  /** The first call of a thread. */
  lemma FirstCall(s: State, t: nat, op: Op, m: State, f: Frame)
    requires Stack(s, t) == [] && CallEnabled(s, t, op) && CallStep(s, t, op) == Push(m, t, f) && m.threads == s.threads
    ensures Reaches(s, [Call(t, op)], With(m, t, [] + [f]))
  {
    ByStep(s, Call(t, op), With(m, t, [] + [f]));
  }

  function Scheduled(s: State, deadlineUs: int): State {
    s.(alarms := Insert(s.alarms, Entry(deadlineUs, s.nextId, ())), nextId := NextId(s.nextId),
       generation := s.generation + 1)
  }

  lemma ScheduleReturns(s: State, t: nat, st: seq<Frame>, deadlineUs: int)
    requires Ready(t, st) && !s.autoSync && CallEnabled(With(s, t, st), t, Schedule(deadlineUs))
    ensures Reaches(With(s, t, st), [Call(t, Schedule(deadlineUs)), Move(t, 0)], With(Scheduled(s, deadlineUs), t, st))
  {
    var m := s.(alarms := Insert(s.alarms, Entry(deadlineUs, s.nextId, ())), nextId := NextId(s.nextId));
    PushOn(m, t, st, NotifyOwed);
    CallReturns(s, m, t, st, Schedule(deadlineUs));
  }

  /** A call whose one locked section leaves a notification to make. */
  lemma CallReturns(s: State, m: State, t: nat, st: seq<Frame>, op: Op)
    requires CallEnabled(With(s, t, st), t, op) && CallStep(With(s, t, st), t, op) == With(m, t, st + [NotifyOwed])
    ensures Reaches(With(s, t, st), [Call(t, op), Move(t, 0)], With(Announced(m), t, st))
  {
    var mid := With(m, t, st + [NotifyOwed]);
    ByStep(With(s, t, st), Call(t, op), mid);
    NotifyReturns(m, t, st);
    ReachesAppend(With(s, t, st), [Call(t, op)], mid, [Move(t, 0)], With(Announced(m), t, st));
  }

  lemma ProcessChecks(s: State, t: nat, st: seq<Frame>)
    requires Ready(t, st) && s.service.Running?
    ensures Reaches(With(s, t, st), [Call(t, Process), Move(t, 0)], With(s, t, st + [Entering(s.uptimeNs, false, -1)]))
  {
    ReadyCalls(s, t, st);
    PushOn(s, t, st, PumpChecked);
    ByStep(With(s, t, st), Call(t, Process), With(s, t, st + [PumpChecked]));
    PumpEnters(s, t, st);
    ReachesAppend(With(s, t, st), [Call(t, Process)], With(s, t, st + [PumpChecked]), [Move(t, 0)],
         With(s, t, st + [Entering(s.uptimeNs, false, -1)]));
  }
}
