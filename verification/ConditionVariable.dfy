/** The condition variable: an array of eight waiting tasks, scanned and updated in place inside a
    critical section, and the kernel's latched task notifications.  Task handles are nonzero;
    zero is the null handle. */
module ConditionVariable {

  const MAX_WAITING: nat := 8
  const NOBODY: nat := 0

  // ---------- Specification of the array operations ----------

  /** Slot `k` holds the waiter that `notify_one` picks: of highest priority, lowest slot first. */
  ghost predicate IsChosen(w: seq<nat>, priority: nat -> nat, k: nat) {
    && k < |w| && w[k] != NOBODY
    && forall j :: 0 <= j < |w| && w[j] != NOBODY ==>
         priority(w[j]) <= priority(w[k]) && (priority(w[j]) == priority(w[k]) ==> k <= j)
  }

  ghost predicate Empty(w: seq<nat>) {
    forall j :: 0 <= j < |w| ==> w[j] == NOBODY
  }

  ghost predicate Distinct(w: seq<nat>) {
    forall i, j :: 0 <= i < j < |w| && w[i] != NOBODY ==> w[i] != w[j]
  }

  /** The tasks in the array. */
  function Tasks(w: seq<nat>): set<nat> {
    set i | 0 <= i < |w| && w[i] != NOBODY :: w[i]
  }

  /** The array after its first occurrence of `x` was overwritten with `y`. */
  function ReplaceFirst(w: seq<nat>, x: nat, y: nat): (r: seq<nat>)
    ensures |r| == |w|
  {
    if |w| == 0 then []
    else if w[0] == x then [y] + w[1..]
    else [w[0]] + ReplaceFirst(w[1..], x, y)
  }

  lemma {:induction false} ReplaceFirstAt(w: seq<nat>, k: nat, y: nat)
    requires k < |w| && forall j :: 0 <= j < k ==> w[j] != w[k]
    ensures ReplaceFirst(w, w[k], y) == w[k := y]
    decreases |w|
  {
    if k == 0 {
      assert w[0 := y] == [y] + w[1..];
    } else {
      ReplaceFirstAt(w[1..], k - 1, y);
      assert w[k := y] == [w[0]] + w[1..][k - 1 := y];
    }
  }

  lemma {:induction false} ReplaceNone(w: seq<nat>, x: nat, y: nat)
    requires x !in w
    ensures ReplaceFirst(w, x, y) == w
    decreases |w|
  {
    if |w| > 0 {
      ReplaceNone(w[1..], x, y);
      assert w == [w[0]] + w[1..];
    }
  }

  // ---------- The object ----------

  class ConditionVariable {
    const waiting: array<nat>
    /** Tasks whose notification is latched. */
    var notified: set<nat>

    ghost predicate Valid()
      reads this
    {
      waiting.Length == MAX_WAITING
    }

    constructor ()
      ensures Valid() && fresh(waiting) && Empty(waiting[..]) && notified == {}
    {
      waiting := new nat[MAX_WAITING](_ => NOBODY);
      notified := {};
    }

    /** Scans for the task to notify and takes it out of the array. */
    method NotifyOne(priority: nat -> nat)
      requires Valid()
      modifies waiting, this`notified
      ensures Empty(old(waiting[..])) ==> waiting[..] == old(waiting[..]) && notified == old(notified)
      ensures !Empty(old(waiting[..])) ==>
        exists k: nat ::
          && IsChosen(old(waiting[..]), priority, k)
          && waiting[..] == old(waiting[..])[k := NOBODY]
          && notified == old(notified) + {old(waiting[..])[k]}
    {
      var chosen: nat := MAX_WAITING;
      var i: nat := 0;
      while i < MAX_WAITING
        invariant i <= MAX_WAITING && (chosen < i || chosen == MAX_WAITING)
        invariant chosen == MAX_WAITING ==> forall j :: 0 <= j < i ==> waiting[j] == NOBODY
        invariant chosen < MAX_WAITING ==> IsChosen(waiting[..i], priority, chosen)
      {
        if waiting[i] != NOBODY {
          if chosen == MAX_WAITING || priority(waiting[chosen]) < priority(waiting[i]) {
            chosen := i;
          }
        }
        i := i + 1;
      }
      assert waiting[..MAX_WAITING] == waiting[..];
      if chosen != MAX_WAITING {
        ghost var before := waiting[..];
        assert before[chosen] != NOBODY;
        notified := notified + {waiting[chosen]};
        waiting[chosen] := NOBODY;
        assert IsChosen(before, priority, chosen) && waiting[..] == before[chosen := NOBODY];
      }
    }

    method NotifyAll()
      requires Valid()
      modifies waiting, this`notified
      ensures Empty(waiting[..])
      ensures notified == old(notified) + Tasks(old(waiting[..]))
    {
      ghost var before := waiting[..];
      var i := 0;
      while i < MAX_WAITING
        invariant i <= MAX_WAITING
        invariant forall j :: 0 <= j < i ==> waiting[j] == NOBODY
        invariant forall j :: i <= j < MAX_WAITING ==> waiting[j] == before[j]
        invariant notified == old(notified) + Tasks(before[..i])
      {
        assert before[..i + 1] == before[..i] + [before[i]];
        TasksAppend(before[..i], before[i]);
        if waiting[i] != NOBODY {
          notified := notified + {waiting[i]};
          waiting[i] := NOBODY;
        }
        i := i + 1;
      }
      assert before[..MAX_WAITING] == before;
    }

    /** The first critical section of `wait`: take the first free slot. */
    method Enqueue(me: nat) returns (queued: bool)
      requires Valid() && me != NOBODY
      modifies waiting
      ensures queued <==> NOBODY in old(waiting[..])
      ensures waiting[..] == ReplaceFirst(old(waiting[..]), NOBODY, me)
    {
      queued := Overwrite(NOBODY, me);
    }

    /** The last critical section of `wait`: leave the array if still in it. */
    method Leave(me: nat)
      requires Valid() && me != NOBODY
      modifies waiting
      ensures waiting[..] == ReplaceFirst(old(waiting[..]), me, NOBODY)
    {
      var _ := Overwrite(me, NOBODY);
    }

    method Overwrite(x: nat, y: nat) returns (found: bool)
      requires Valid()
      modifies waiting
      ensures found <==> x in old(waiting[..])
      ensures waiting[..] == ReplaceFirst(old(waiting[..]), x, y)
    {
      found := false;
      ghost var before := waiting[..];
      var i := 0;
      while i < MAX_WAITING && !found
        invariant i <= MAX_WAITING
        invariant !found ==> waiting[..] == before && forall j :: 0 <= j < i ==> before[j] != x
        invariant found ==> x in before && waiting[..] == ReplaceFirst(before, x, y)
        decreases MAX_WAITING - i, !found
      {
        if waiting[i] == x {
          ReplaceFirstAt(before, i, y);
          waiting[i] := y;
          found := true;
          assert waiting[..] == before[i := y];
        } else {
          i := i + 1;
        }
      }
      if !found { ReplaceNone(before, x, y); }
    }
  }

  lemma TasksAppend(w: seq<nat>, x: nat)
    ensures Tasks(w + [x]) == Tasks(w) + if x == NOBODY then {} else {x}
  {
    var r := w + [x];
    forall t | t in Tasks(w) ensures t in Tasks(r) {
      var i :| 0 <= i < |w| && w[i] == t && w[i] != NOBODY;
      assert r[i] == t;
    }
    assert r[|w|] == x;
  }

  // ---------- Runs of waits and notifications ----------

  /** A task inside `wait`: blocked on its notification, or woken and on its way out. */
  datatype Phase = Blocked | Woken

  datatype State = State(
    waiting: seq<nat>,
    notified: set<nat>,
    inside: map<nat, Phase>,
    signals: map<nat, nat>,
    returned: map<nat, nat>)

  /** One critical section, or one return from the kernel's notification wait.  `slot` is the
      array slot that `notify_one` picked. */
  datatype Event =
    | Wait(task: nat)
    | NotifyOne(priority: nat -> nat, slot: nat)
    | NotifyAll
    | Wake(task: nat)
    | Return(task: nat)

  function Created(): State {
    State(seq(MAX_WAITING, _ => NOBODY), {}, map[], map[], map[])
  }

  function Count(m: map<nat, nat>, t: nat): nat {
    if t in m then m[t] else 0
  }

  /** Notifications are used for nothing else, and at most eight tasks wait. */
  ghost predicate Enabled(s: State, e: Event) {
    match e
    case Wait(t) => t != NOBODY && t !in s.inside && NOBODY in s.waiting
    case NotifyOne(priority, slot) => Empty(s.waiting) || IsChosen(s.waiting, priority, slot)
    case NotifyAll => true
    case Wake(t) => t in s.inside && s.inside[t].Blocked? && t in s.notified
    case Return(t) => t in s.inside && s.inside[t].Woken?
  }

  function Signalled(m: map<nat, nat>, ts: set<nat>): map<nat, nat> {
    map t | t in m.Keys + ts :: Count(m, t) + if t in ts then 1 else 0
  }

  ghost function Step(s: State, e: Event): State
    requires Enabled(s, e)
  {
    match e
    case Wait(t) => s.(waiting := ReplaceFirst(s.waiting, NOBODY, t), inside := s.inside[t := Blocked])
    case NotifyOne(_, slot) =>
      if Empty(s.waiting) then s
      else
        var t := s.waiting[slot];
        s.(waiting := s.waiting[slot := NOBODY], notified := s.notified + {t}, signals := Signalled(s.signals, {t}))
    case NotifyAll =>
      s.(waiting := seq(|s.waiting|, _ => NOBODY), notified := s.notified + Tasks(s.waiting),
         signals := Signalled(s.signals, Tasks(s.waiting)))
    case Wake(t) => s.(notified := s.notified - {t}, inside := s.inside[t := Woken])
    case Return(t) =>
      s.(waiting := ReplaceFirst(s.waiting, t, NOBODY), inside := s.inside - {t},
         returned := s.returned[t := Count(s.returned, t) + 1])
  }

  /** A blocked task is in the array unsignalled, or out of it with one latched signal; nobody
      else is in either place; and signals and returns match up to the one on its way. */
  predicate TaskFits(s: State, t: nat) {
    && (t in Tasks(s.waiting) ==> t in s.inside && s.inside[t].Blocked?)
    && (t in s.notified ==> t in s.inside && s.inside[t].Blocked?)
    && (t in s.inside && s.inside[t].Blocked? ==> (t in Tasks(s.waiting) <==> t !in s.notified))
    && Count(s.signals, t) == Count(s.returned, t) +
         if t in s.notified || (t in s.inside && s.inside[t].Woken?) then 1 else 0
  }

  ghost predicate Inv(s: State) {
    && |s.waiting| == MAX_WAITING && Distinct(s.waiting)
    && NOBODY !in s.inside
    && forall t: nat :: TaskFits(s, t)
  }

  lemma FreeSlot(w: seq<nat>) returns (k: nat)
    requires NOBODY in w
    ensures k < |w| && w[k] == NOBODY && forall j :: 0 <= j < k ==> w[j] != NOBODY
  {
    k := 0;
    while w[k] != NOBODY
      invariant k < |w| && forall j :: 0 <= j < k ==> w[j] != NOBODY
      decreases |w| - k
    {
      k := k + 1;
    }
  }

  lemma TasksAre(w: seq<nat>, t: nat)
    requires t != NOBODY
    ensures t in Tasks(w) <==> t in w
  {
    if i :| 0 <= i < |w| && w[i] == t { assert t in Tasks(w); }
  }

  lemma NoTasks(w: seq<nat>)
    ensures Tasks(w) == {} <==> Empty(w)
  {
    if i :| 0 <= i < |w| && w[i] != NOBODY { assert w[i] in Tasks(w); }
  }

  lemma TasksUpdate(w: seq<nat>, k: nat, y: nat)
    requires k < |w| && Distinct(w) && (y != NOBODY ==> y !in w && w[k] == NOBODY)
    ensures Distinct(w[k := y])
    ensures Tasks(w[k := y]) == Tasks(w) - {w[k]} + if y == NOBODY then {} else {y}
  {
    var r := w[k := y];
    forall t | t in Tasks(w) && t != w[k] ensures t in Tasks(r) {
      var i :| 0 <= i < |w| && w[i] == t && w[i] != NOBODY;
      assert r[i] == t;
    }
    assert r[k] == y;
  }

  lemma WaitKeeps(s: State, t: nat)
    requires Inv(s) && Enabled(s, Wait(t))
    ensures Inv(Step(s, Wait(t)))
  {
    var r := Step(s, Wait(t));
    var k := FreeSlot(s.waiting);
    ReplaceFirstAt(s.waiting, k, t);
    assert TaskFits(s, t);
    TasksAre(s.waiting, t);
    TasksUpdate(s.waiting, k, t);
    forall u: nat ensures TaskFits(r, u) { assert TaskFits(s, u); }
  }

  lemma NotifyOneKeeps(s: State, e: Event)
    requires Inv(s) && e.NotifyOne? && Enabled(s, e)
    ensures Inv(Step(s, e))
  {
    if !Empty(s.waiting) {
      var r := Step(s, e);
      TasksUpdate(s.waiting, e.slot, NOBODY);
      assert s.waiting[e.slot] in Tasks(s.waiting);
      forall u: nat ensures TaskFits(r, u) { assert TaskFits(s, u); }
    }
  }

  lemma NotifyAllKeeps(s: State)
    requires Inv(s)
    ensures Inv(Step(s, NotifyAll))
  {
    var r := Step(s, NotifyAll);
    assert Tasks(r.waiting) == {};
    forall u: nat ensures TaskFits(r, u) { assert TaskFits(s, u); }
  }

  lemma ReturnKeeps(s: State, t: nat)
    requires Inv(s) && Enabled(s, Return(t))
    ensures Inv(Step(s, Return(t)))
  {
    var r := Step(s, Return(t));
    assert TaskFits(s, t);
    TasksAre(s.waiting, t);
    ReplaceNone(s.waiting, t, NOBODY);
    forall u: nat ensures TaskFits(r, u) { assert TaskFits(s, u); }
  }

  lemma StepKeeps(s: State, e: Event)
    requires Inv(s) && Enabled(s, e)
    ensures Inv(Step(s, e))
  {
    match e
    case Wait(t) => WaitKeeps(s, t);
    case NotifyOne(_, _) => NotifyOneKeeps(s, e);
    case NotifyAll => NotifyAllKeeps(s);
    case Wake(t) =>
      var r := Step(s, e);
      forall u: nat ensures TaskFits(r, u) { assert TaskFits(s, u); }
    case Return(t) => ReturnKeeps(s, t);
  }

  ghost predicate Runs(s: State, run: seq<Event>)
    decreases |run|
  {
    |run| == 0 || (Enabled(s, run[0]) && Runs(Step(s, run[0]), run[1..]))
  }

  ghost function After(s: State, run: seq<Event>): State
    requires Runs(s, run)
    decreases |run|
  {
    if |run| == 0 then s else After(Step(s, run[0]), run[1..])
  }

  lemma CreatedIsGood()
    ensures Inv(Created())
  {
    assert Tasks(Created().waiting) == {};
  }

  /** Condition variable exactness over every run: no task is in the array twice, every blocked
      task is either in it unsignalled or out of it with exactly one latched signal, a woken task
      holds no place, and each task's returns match its signals one to one. */
  lemma {:induction false} RunKeeps(s: State, run: seq<Event>)
    requires Inv(s) && Runs(s, run)
    ensures Inv(After(s, run))
    decreases |run|
  {
    if |run| > 0 {
      StepKeeps(s, run[0]);
      RunKeeps(Step(s, run[0]), run[1..]);
    }
  }

  /** When anybody waits, `notify_one` has exactly one task to pick. */
  lemma ChosenIsUnique(w: seq<nat>, priority: nat -> nat)
    requires !Empty(w)
    ensures exists k: nat :: IsChosen(w, priority, k)
    ensures forall j: nat, k: nat :: IsChosen(w, priority, j) && IsChosen(w, priority, k) ==> j == k
  {
    var i :| 0 <= i < |w| && w[i] != NOBODY;
    var best: nat := 0;
    while w[best] == NOBODY
      invariant best < |w| && best <= i && forall j :: 0 <= j < best ==> w[j] == NOBODY
      decreases i - best
    {
      best := best + 1;
    }
    var n: nat := best + 1;
    while n < |w|
      invariant best < n <= |w| && w[best] != NOBODY
      invariant IsChosen(w[..n], priority, best)
    {
      assert w[..n + 1] == w[..n] + [w[n]];
      if w[n] != NOBODY && priority(w[best]) < priority(w[n]) { best := n; }
      n := n + 1;
    }
    assert w[..|w|] == w;
  }

  // ---------- Notifications reach the waiters ----------

  lemma {:induction false} SignalsGrow(s: State, run: seq<Event>, t: nat)
    requires Runs(s, run)
    ensures Count(After(s, run).signals, t) >= Count(s.signals, t)
    decreases |run|
  {
    if |run| > 0 { SignalsGrow(Step(s, run[0]), run[1..], t); }
  }

  /** Whatever runs before and after it, a `notify_all` signals every task that was waiting when
      the run began, unless something signalled the task first. */
  lemma {:induction false} NotifyAllReachesEveryone(s: State, run: seq<Event>, t: nat)
    requires Inv(s) && Runs(s, run) && NotifyAll in run && t in Tasks(s.waiting)
    ensures Count(After(s, run).signals, t) > Count(s.signals, t)
    decreases |run|
  {
    var r := Step(s, run[0]);
    StepKeeps(s, run[0]);
    if t in Tasks(r.waiting) {
      NotAllLeavesNobody(s, run[0], t);
      NotifyAllReachesEveryone(r, run[1..], t);
    } else {
      assert TaskFits(s, t) && TaskFits(r, t);
      LeavesSignalled(s, run[0], t);
      SignalsGrow(r, run[1..], t);
    }
  }

  lemma NotAllLeavesNobody(s: State, e: Event, t: nat)
    requires Inv(s) && Enabled(s, e) && t in Tasks(Step(s, e).waiting)
    ensures e != NotifyAll
    ensures Count(Step(s, e).signals, t) >= Count(s.signals, t)
  {
  }

  /** A task leaves the array only by being signalled. */
  lemma LeavesSignalled(s: State, e: Event, t: nat)
    requires Inv(s) && Enabled(s, e) && t in Tasks(s.waiting) && t !in Tasks(Step(s, e).waiting)
    ensures Count(Step(s, e).signals, t) == Count(s.signals, t) + 1
  {
    StepKeeps(s, e);
    var r := Step(s, e);
    assert TaskFits(s, t) && TaskFits(r, t);
  }

  function NotifyOnes(run: seq<Event>): nat
    decreases |run|
  {
    if |run| == 0 then 0 else NotifyOnes(run[1..]) + if run[0].NotifyOne? then 1 else 0
  }

  lemma NotifyAllEmpties(s: State)
    ensures Step(s, NotifyAll).waiting == s.waiting || |Tasks(Step(s, NotifyAll).waiting)| < |Tasks(s.waiting)|
  {
    var r := Step(s, NotifyAll);
    assert Tasks(r.waiting) == {};
    NoTasks(s.waiting);
    assert Empty(s.waiting) ==> r.waiting == s.waiting;
  }

  lemma NotifyShrinks(s: State, e: Event)
    requires Inv(s) && Enabled(s, e) && !e.Wait?
    ensures Step(s, e).waiting == s.waiting
         || |Tasks(Step(s, e).waiting)| < |Tasks(s.waiting)|
    ensures e.NotifyOne? && Tasks(s.waiting) != {} ==> |Tasks(Step(s, e).waiting)| < |Tasks(s.waiting)|
  {
    match e
    case NotifyOne(_, slot) =>
      if !Empty(s.waiting) {
        TasksUpdate(s.waiting, slot, NOBODY);
        assert s.waiting[slot] in Tasks(s.waiting);
      }
    case NotifyAll => NotifyAllEmpties(s);
    case Wake(_) =>
    case Return(t) =>
      assert TaskFits(s, t);
      TasksAre(s.waiting, t);
      ReplaceNone(s.waiting, t, NOBODY);
  }

  /** With nobody new arriving, as many calls of `notify_one` as there are waiters reach all of
      them: no call is spent on a task that was signalled already. */
  lemma {:induction false} EachNotifyReachesAnother(s: State, run: seq<Event>)
    requires Inv(s) && Runs(s, run) && (forall e :: e in run ==> !e.Wait?)
    requires NotifyOnes(run) >= |Tasks(s.waiting)|
    ensures Tasks(After(s, run).waiting) == {}
    decreases |run|
  {
    if |run| > 0 {
      StepKeeps(s, run[0]);
      NotifyShrinks(s, run[0]);
      EachNotifyReachesAnother(Step(s, run[0]), run[1..]);
    }
  }

  /** A signalled task does return: its own two steps take it out of `wait`, with its signal used up. */
  lemma SignalledTaskReturns(s: State, t: nat)
    requires Inv(s) && t in s.notified
    ensures Enabled(s, Wake(t)) && Enabled(Step(s, Wake(t)), Return(t))
    ensures var r := Step(Step(s, Wake(t)), Return(t));
      t !in r.inside && t !in r.notified && Count(r.returned, t) == Count(s.returned, t) + 1 && r.waiting == s.waiting
  {
    assert TaskFits(s, t);
    var m := Step(s, Wake(t));
    StepKeeps(s, Wake(t));
    assert TaskFits(m, t);
    TasksAre(m.waiting, t);
    ReplaceNone(m.waiting, t, NOBODY);
  }

  /** A waiting task is in the array, unsignalled, from the moment it waits. */
  lemma WaiterIsQueued(s: State, t: nat)
    requires Inv(s) && Enabled(s, Wait(t))
    ensures var r := Step(s, Wait(t)); t !in r.notified && Tasks(r.waiting) == Tasks(s.waiting) + {t}
  {
    var k := FreeSlot(s.waiting);
    ReplaceFirstAt(s.waiting, k, t);
    assert TaskFits(s, t);
    TasksAre(s.waiting, t);
    TasksUpdate(s.waiting, k, t);
    NobodyIsNoTask(s.waiting);
  }

  lemma NobodyIsNoTask(w: seq<nat>)
    ensures NOBODY !in Tasks(w)
  {
  }
}
