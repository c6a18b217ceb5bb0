/** Which alarms a drain runs, in which order, and what time each callback sees. */
module AlarmOrder {
  import opened Int64
  import opened AlarmQueue
  import opened AlarmDelivery
  import opened AlarmTheorems

  // ---------- Callbacks that do not move time ----------

  /** A callback that does not move time, nor do the callbacks it registers; with `mayInsert`
      false it registers none.  It may cancel, pump and ask for shutdown. */
  predicate Timeless(c: Script, mayInsert: bool)
    decreases c
  {
    match c
    case Done => true
    case Then(a, rest) =>
      && Timeless(rest, mayInsert)
      && match a
         case Schedule(_, callback) => mayInsert && Timeless(callback, true)
         case Lag(_) => false
         case Delay(_) => false
         case FinishShutdown => false
         case _ => true
  }

  ghost predicate AllTimeless(q: seq<Alarm>, mayInsert: bool) {
    forall e :: e in q ==> Timeless(e.payload, mayInsert)
  }

  // ---------- What time each callback sees ----------

  /** Alarm `j` lies strictly after the previous one, the first strictly after the uptime. */
  predicate StrictlyLater(q: seq<Alarm>, j: nat, uptimeNs: int)
    requires j < |q|
  {
    (if j == 0 then uptimeNs else q[j - 1].deadline * NANOS_PER_MICRO) < q[j].deadline * NANOS_PER_MICRO
  }

  ghost predicate Chain(q: seq<Alarm>, i: nat, uptimeNs: int)
    requires i < |q|
  {
    forall j :: 0 <= j <= i ==> StrictlyLater(q, j, uptimeNs)
  }

  /** The uptime that callback `i` of a drain to `limitNs` sees: its own deadline as long as
      deadlines have been distinct and ahead, and the limit from the first tie or overdue one. */
  ghost function SeenAt(q: seq<Alarm>, i: nat, uptimeNs: int, limitNs: int): int
    requires i < |q|
  {
    if Chain(q, i, uptimeNs) then q[i].deadline * NANOS_PER_MICRO else limitNs
  }

  ghost function Firings(q: seq<Alarm>, uptimeNs: int, limitNs: int): (f: seq<Firing>)
    ensures |f| == |q|
  {
    seq(|q|, i requires 0 <= i < |q| => Firing(q[i].id, q[i].deadline, SeenAt(q, i, uptimeNs, limitNs)))
  }

  lemma SeenAtTail(q: seq<Alarm>, i: nat, uptimeNs: int, limitNs: int)
    requires 0 < i < |q| && q[i].deadline * NANOS_PER_MICRO <= limitNs && Sorted(q)
    ensures SeenAt(q, i, uptimeNs, limitNs)
         == SeenAt(q[1..], i - 1, SeenAt(q, 0, uptimeNs, limitNs), limitNs)
  {
    var now := SeenAt(q, 0, uptimeNs, limitNs);
    var t := q[1..];
    assert Chain(q, 0, uptimeNs) <==> StrictlyLater(q, 0, uptimeNs);
    assert Before(q[0], q[1]);
    if StrictlyLater(q, 0, uptimeNs) {
      assert forall j :: 0 < j <= i ==> (StrictlyLater(q, j, uptimeNs) <==> StrictlyLater(t, j - 1, now));
      if Chain(t, i - 1, now) {
        forall j | 0 <= j <= i ensures StrictlyLater(q, j, uptimeNs) {
          assert j > 0 ==> StrictlyLater(t, j - 1, now);
        }
      } else {
        var j :| 0 <= j <= i - 1 && !StrictlyLater(t, j, now);
        assert !StrictlyLater(q, j + 1, uptimeNs);
      }
    } else {
      assert q[1] == q[i] || Before(q[1], q[i]);
      assert !StrictlyLater(t, 0, now);
    }
  }

  lemma FiringsTail(q: seq<Alarm>, uptimeNs: int, limitNs: int)
    requires Sorted(q) && |q| > 0 && AllDue(q, limitNs)
    ensures var now := SeenAt(q, 0, uptimeNs, limitNs);
            Firings(q, uptimeNs, limitNs) == [Firing(q[0].id, q[0].deadline, now)] + Firings(q[1..], now, limitNs)
  {
    forall i | 0 < i < |q|
      ensures SeenAt(q, i, uptimeNs, limitNs)
           == SeenAt(q[1..], i - 1, SeenAt(q, 0, uptimeNs, limitNs), limitNs)
    {
      SeenAtTail(q, i, uptimeNs, limitNs);
    }
  }

  // ---------- Which alarms run ----------

  predicate DueBy(e: Alarm, limitNs: int) {
    e.deadline * NANOS_PER_MICRO <= limitNs
  }

  ghost predicate AllDue(q: seq<Alarm>, limitNs: int) {
    forall i :: 0 <= i < |q| ==> DueBy(q[i], limitNs)
  }

  /** The ids that a callback cancels. */
  function CancelIds(c: Script): set<nat> {
    match c
    case Done => {}
    case Then(a, rest) => CancelIds(rest) + if a.Cancel? then {a.id} else {}
  }

  function Without(q: seq<Alarm>, ids: set<nat>): (r: seq<Alarm>)
    ensures |r| <= |q|
  {
    if |q| == 0 then []
    else if q[0].id in ids then Without(q[1..], ids)
    else [q[0]] + Without(q[1..], ids)
  }

  /** What remains of the queue after its head ran. */
  function Next(q: seq<Alarm>): (r: seq<Alarm>)
    requires |q| > 0
    ensures |r| < |q|
  {
    Without(q[1..], CancelIds(q[0].payload))
  }

  /** The alarms that run on the way to the limit, in order: each due alarm unless one that ran
      before cancelled it. */
  function RunOrder(q: seq<Alarm>, limitNs: int): seq<Alarm>
    decreases |q|
  {
    if |q| == 0 || !DueBy(q[0], limitNs) then [] else [q[0]] + RunOrder(Next(q), limitNs)
  }

  /** The alarms that are still pending afterwards. */
  function Left(q: seq<Alarm>, limitNs: int): seq<Alarm>
    decreases |q|
  {
    if |q| == 0 || !DueBy(q[0], limitNs) then q else Left(Next(q), limitNs)
  }

  lemma {:induction false} WithoutMembers(q: seq<Alarm>, ids: set<nat>)
    ensures forall e :: e in Without(q, ids) <==> e in q && e.id !in ids
    ensures Sorted(q) ==> Sorted(Without(q, ids))
    decreases |q|
  {
    if |q| > 0 {
      WithoutMembers(q[1..], ids);
      assert q == [q[0]] + q[1..];
      var w := Without(q[1..], ids);
      if Sorted(q) {
        assert forall e :: e in w ==> e in q[1..];
        assert forall e :: e in q[1..] ==> Before(q[0], e);
      }
    }
  }

  lemma {:induction false} WithoutNone(q: seq<Alarm>, ids: set<nat>)
    requires forall e :: e in q ==> e.id !in ids
    ensures Without(q, ids) == q
    decreases |q|
  {
    if |q| > 0 { WithoutNone(q[1..], ids); }
  }

  lemma {:induction false} WithoutTwice(q: seq<Alarm>, a: set<nat>, b: set<nat>)
    ensures Without(Without(q, a), b) == Without(q, a + b)
    decreases |q|
  {
    if |q| > 0 {
      WithoutTwice(q[1..], a, b);
      var w := Without(q[1..], a);
      assert ([q[0]] + w)[1..] == w;
    }
  }

  /** Cancelling is removing the id. */
  lemma {:induction false} CancelRemoves(q: seq<Alarm>, id: nat)
    requires DistinctIds(q)
    ensures var k := Find(q, id); Without(q, {id}) == if k < |q| then RemoveAt(q, k) else q
    decreases |q|
  {
    if |q| > 0 {
      if q[0].id == id {
        CancelsHead(q);
      } else {
        CancelRemoves(q[1..], id);
        RemoveFromTail(q, Find(q[1..], id));
      }
    }
  }

  lemma CancelsHead(q: seq<Alarm>)
    requires DistinctIds(q) && |q| > 0
    ensures Without(q, {q[0].id}) == RemoveAt(q, 0)
  {
    forall e | e in q[1..] ensures e.id !in {q[0].id} {
      var i :| 0 <= i < |q| - 1 && q[1..][i] == e;
      assert q[i + 1] == e;
    }
    WithoutNone(q[1..], {q[0].id});
    assert RemoveAt(q, 0) == q[1..];
  }

  lemma RemoveFromTail(q: seq<Alarm>, k: nat)
    requires 0 < |q|
    ensures k < |q| - 1 ==> RemoveAt(q, k + 1) == [q[0]] + RemoveAt(q[1..], k)
    ensures q == [q[0]] + q[1..]
  {
  }

  lemma CancelIs(s: Time, id: nat)
    requires Good(s)
    ensures DoCancel(s, id) == s.(alarms := Without(s.alarms, {id}))
  {
    CancelRemoves(s.alarms, id);
    if id == 0 { WithoutNone(s.alarms, {0}); }
  }

  /** All that a callback does that neither moves time nor inserts. */
  lemma {:induction false} CallbackCancels(s: Time, c: Script)
    requires Good(s) && s.active && !s.aborted && Timeless(c, false)
    ensures Run(s, c) == s.(alarms := Without(s.alarms, CancelIds(c)))
    decreases c
  {
    if c.Done? {
      WithoutNone(s.alarms, {});
    } else {
      var t := Act(s, c.first);
      ActKeeps(s, c.first);
      if c.first.Cancel? {
        CancelIs(s, c.first.id);
        WithoutTwice(s.alarms, {c.first.id}, CancelIds(c.rest));
        assert {c.first.id} + CancelIds(c.rest) == CancelIds(c);
      } else {
        NestedDeliver(s, s.uptimeNs, false);
        assert t == s;
        assert CancelIds(c.rest) == CancelIds(c);
      }
      CallbackCancels(t, c.rest);
    }
  }

  lemma {:induction false} RunOrderIsSorted(q: seq<Alarm>, limitNs: int)
    requires Sorted(q)
    ensures var o := RunOrder(q, limitNs); Sorted(o) && AllDue(o, limitNs) && forall e :: e in o ==> e in q
    decreases |q|
  {
    if |q| > 0 && DueBy(q[0], limitNs) {
      NextIsSorted(q);
      RunOrderIsSorted(Next(q), limitNs);
      var o := RunOrder(Next(q), limitNs);
      assert forall i :: 0 <= i < |o| ==> o[i] in o;
    }
  }

  lemma NextIsSorted(q: seq<Alarm>)
    requires Sorted(q) && |q| > 0
    ensures Sorted(Next(q)) && forall e :: e in Next(q) ==> e in q && Before(q[0], e)
  {
    WithoutMembers(q[1..], CancelIds(q[0].payload));
  }

  /** An alarm runs if it is due and no pending callback cancels it. */
  lemma {:induction false} UncancelledIsInOrder(q: seq<Alarm>, limitNs: int, e: Alarm)
    requires Sorted(q) && e in q && DueBy(e, limitNs) && forall x :: x in q ==> e.id !in CancelIds(x.payload)
    ensures e in RunOrder(q, limitNs)
    decreases |q|
  {
    assert q[0] in q && (e == q[0] || Before(q[0], e));
    if e != q[0] {
      WithoutMembers(q[1..], CancelIds(q[0].payload));
      NextIsSorted(q);
      UncancelledIsInOrder(Next(q), limitNs, e);
    }
  }

  /** Without cancellations, what runs is what is due. */
  lemma {:induction false} RunOrderWithoutCancels(q: seq<Alarm>, limitNs: int)
    requires forall e :: e in q ==> CancelIds(e.payload) == {}
    ensures var k := UpperBound(q, limitNs / NANOS_PER_MICRO);
            RunOrder(q, limitNs) == q[..k] && Left(q, limitNs) == q[k..]
    decreases |q|
  {
    if |q| > 0 && DueBy(q[0], limitNs) {
      assert q[0] in q && forall e :: e in q[1..] ==> e in q;
      WithoutNone(q[1..], {});
      assert Next(q) == q[1..];
      RunOrderWithoutCancels(q[1..], limitNs);
      SplitAfterHead(q, UpperBound(q[1..], limitNs / NANOS_PER_MICRO));
    }
  }

  lemma SplitAfterHead(q: seq<Alarm>, k: nat)
    requires k < |q|
    ensures q[..k + 1] == [q[0]] + q[1..][..k] && q[k + 1..] == q[1..][k..]
  {
  }

  // ---------- The closed form ----------

  /** The state `s` after everything due was delivered on the way to the limit. */
  ghost function Delivered(s: Time, limitNs: int): Time {
    s.(uptimeNs := limitNs, active := false, alarms := Left(s.alarms, limitNs),
       fired := s.fired + Firings(RunOrder(s.alarms, limitNs), s.uptimeNs, limitNs))
  }

  /** Never early, never past the limit, in order: a drain over callbacks that neither move time
      nor insert, but may cancel one another, runs exactly the alarms of `RunOrder`, at the times
      `SeenAt` gives, and ends at the limit with only later alarms pending. */
  lemma {:induction false} DrainsInOrder(s: Time, limitNs: int)
    requires Good(s) && s.active && !s.aborted && s.uptimeNs <= limitNs <= s.reservedNs
    requires AllTimeless(s.alarms, false)
    ensures Drain(s, limitNs, true) == Delivered(s, limitNs)
    decreases |s.alarms|
  {
    var q, now := s.alarms, Advance(s, limitNs, true);
    AdvanceKeeps(s, limitNs, true);
    if !HeadDue(now) {
      assert s.fired + Firings([], s.uptimeNs, limitNs) == s.fired;
    } else {
      ClaimIsGood(now);
      assert q[0] in q;
      CallbackCancels(Claim(now), q[0].payload);
      RunKeeps(Claim(now), q[0].payload);
      var t := Run(Claim(now), q[0].payload);
      WithoutMembers(q[1..], CancelIds(q[0].payload));
      DrainsInOrder(t, limitNs);
      HeadSees(s, limitNs);
      DeliveredTail(s, t, limitNs);
    }
  }

  lemma HeadSees(s: Time, limitNs: int)
    requires Good(s) && s.uptimeNs <= limitNs && |s.alarms| > 0 && DueBy(s.alarms[0], limitNs)
    ensures var o := RunOrder(s.alarms, limitNs);
            |o| > 0 && o[0] == s.alarms[0] && Advance(s, limitNs, true).uptimeNs == SeenAt(o, 0, s.uptimeNs, limitNs)
  {
    var o := RunOrder(s.alarms, limitNs);
    assert Chain(o, 0, s.uptimeNs) <==> StrictlyLater(o, 0, s.uptimeNs);
  }

  lemma DeliveredTail(s: Time, t: Time, limitNs: int)
    requires |s.alarms| > 0 && Sorted(s.alarms) && DueBy(s.alarms[0], limitNs)
    requires var o := RunOrder(s.alarms, limitNs); var now := SeenAt(o, 0, s.uptimeNs, limitNs);
             t == s.(uptimeNs := now, alarms := Next(s.alarms),
                     fired := s.fired + [Firing(s.alarms[0].id, s.alarms[0].deadline, now)])
    ensures Delivered(t, limitNs) == Delivered(s, limitNs)
  {
    var o := RunOrder(s.alarms, limitNs);
    RunOrderIsSorted(s.alarms, limitNs);
    assert o[1..] == RunOrder(Next(s.alarms), limitNs);
    FiredTail(s.fired, o, s.uptimeNs, limitNs);
  }

  lemma FiredTail(fired: seq<Firing>, o: seq<Alarm>, uptimeNs: int, limitNs: int)
    requires Sorted(o) && |o| > 0 && AllDue(o, limitNs)
    ensures var now := SeenAt(o, 0, uptimeNs, limitNs);
      fired + Firings(o, uptimeNs, limitNs)
        == fired + [Firing(o[0].id, o[0].deadline, now)] + Firings(o[1..], now, limitNs)
  {
    FiringsTail(o, uptimeNs, limitNs);
  }

  // ---------- Exact times ----------

  /** No alarm short of the limit is tied with its predecessor or overdue at the start. */
  ghost predicate Untied(o: seq<Alarm>, uptimeNs: int, limitNs: int) {
    forall i :: 0 <= i < |o| ==> StrictlyLater(o, i, uptimeNs) || o[i].deadline * NANOS_PER_MICRO == limitNs
  }

  lemma ExactTimesIff(o: seq<Alarm>, uptimeNs: int, limitNs: int)
    requires Sorted(o) && AllDue(o, limitNs)
    ensures (forall i :: 0 <= i < |o| ==> SeenAt(o, i, uptimeNs, limitNs) == o[i].deadline * NANOS_PER_MICRO)
            <==> Untied(o, uptimeNs, limitNs)
  {
    if Untied(o, uptimeNs, limitNs) {
      forall i | 0 <= i < |o| ensures SeenAt(o, i, uptimeNs, limitNs) == o[i].deadline * NANOS_PER_MICRO {
        if o[i].deadline * NANOS_PER_MICRO != limitNs {
          forall j | 0 <= j <= i ensures StrictlyLater(o, j, uptimeNs) {
            assert j < i ==> Before(o[j], o[i]);
            assert DueBy(o[i], limitNs);
          }
        }
      }
    } else {
      var i :| 0 <= i < |o| && !(StrictlyLater(o, i, uptimeNs) || o[i].deadline * NANOS_PER_MICRO == limitNs);
      assert !Chain(o, i, uptimeNs);
    }
  }

  ghost predicate AllExact(fired: seq<Firing>, n: nat) {
    forall k :: n <= k < |fired| ==> fired[k].uptimeNs == fired[k].deadlineUs * NANOS_PER_MICRO
  }

  /** Every callback of the drain runs at exactly its deadline if and only if, among the alarms
      that run, none short of the limit is tied with its predecessor or overdue at the start.  The
      condition can be read off the queue beforehand. */
  lemma DrainIsExactIff(s: Time, limitNs: int)
    requires Good(s) && s.active && !s.aborted && s.uptimeNs <= limitNs <= s.reservedNs
    requires AllTimeless(s.alarms, false)
    ensures AllExact(Drain(s, limitNs, true).fired, |s.fired|)
            <==> Untied(RunOrder(s.alarms, limitNs), s.uptimeNs, limitNs)
  {
    var o := RunOrder(s.alarms, limitNs);
    DrainsInOrder(s, limitNs);
    RunOrderIsSorted(s.alarms, limitNs);
    ExactTimesIff(o, s.uptimeNs, limitNs);
    FiringsExactIff(s.fired, o, s.uptimeNs, limitNs);
  }

  lemma FiringsExactIff(fired: seq<Firing>, o: seq<Alarm>, uptimeNs: int, limitNs: int)
    ensures AllExact(fired + Firings(o, uptimeNs, limitNs), |fired|)
            <==> forall i :: 0 <= i < |o| ==> SeenAt(o, i, uptimeNs, limitNs) == o[i].deadline * NANOS_PER_MICRO
  {
    var n, f := |fired|, Firings(o, uptimeNs, limitNs);
    if AllExact(fired + f, n) {
      forall i | 0 <= i < |o| ensures SeenAt(o, i, uptimeNs, limitNs) == o[i].deadline * NANOS_PER_MICRO {
        assert (fired + f)[n + i] == f[i];
      }
    }
  }

  /** Two alarms at 2 us and a delay to 10 us: the second callback sees 10 us, not 2 us. */
  lemma TieJumpsToLimit()
    ensures var s := Run(POWER_ON, Then(Schedule(2, Done), Then(Schedule(2, Done), Then(Delay(10), Done))));
            s.fired == [Firing(1, 2, 2_000), Firing(2, 2, 10_000)]
  {
    var a, b := Entry(2, 1, Done), Entry(2, 2, Done);
    var s1 := Act(POWER_ON, Schedule(2, Done));
    assert s1.alarms == [a];
    var s2 := Act(s1, Schedule(2, Done));
    assert [a][1..] == [];
    assert s2.alarms == [a, b];
    ActKeeps(POWER_ON, Schedule(2, Done));
    ActKeeps(s1, Schedule(2, Done));
    TieFirings(s2, a, b);
    assert Run(s2, Then(Delay(10), Done)) == Act(s2, Delay(10));
  }

  lemma TieFirings(s: Time, a: Alarm, b: Alarm)
    requires Good(s) && s.alarms == [a, b] && a == Entry(2, 1, Done) && b == Entry(2, 2, Done)
    requires s == POWER_ON.(alarms := s.alarms, nextId := 3)
    ensures Act(s, Delay(10)).fired == [Firing(1, 2, 2_000), Firing(2, 2, 10_000)]
  {
    TieOrder(a, b);
    DelayRunsInOrder(s, 10);
    assert StrictlyLater([a, b], 0, 0) && !StrictlyLater([a, b], 1, 0);
  }

  lemma TieOrder(a: Alarm, b: Alarm)
    requires a == Entry(2, 1, Done) && b == Entry(2, 2, Done)
    ensures RunOrder([a, b], 10_000) == [a, b]
  {
    RunOrderWithoutCancels([a, b], 10_000);
    assert UpperBound([a, b], 10) == 2 by { assert [a, b][1..] == [b]; assert [b][1..] == []; }
  }

  // ---------- Times and order when callbacks may insert ----------

  lemma TimelessCallback(s: Time, c: Script, mayInsert: bool)
    requires Good(s) && s.active && AllTimeless(s.alarms, mayInsert) && Timeless(c, mayInsert)
    ensures var r := Run(s, c);
            && r.uptimeNs == s.uptimeNs && r.fired == s.fired && AllTimeless(r.alarms, mayInsert)
            && (!mayInsert ==> r.aborted == s.aborted && forall e :: e in r.alarms ==> e in s.alarms)
    decreases c
  {
    if !s.aborted && c.Then? {
      ActKeeps(s, c.first);
      var t := Act(s, c.first);
      if c.first.Schedule? {
        TimelessSchedule(s, c.first.deadlineUs, c.first.callback);
      } else if c.first.Cancel? {
        TimelessCancel(s, c.first.id, mayInsert);
      } else {
        NestedDeliver(s, s.uptimeNs, false);
      }
      if !t.aborted { TimelessCallback(t, c.rest, mayInsert); }
    }
  }

  lemma TimelessSchedule(s: Time, deadlineUs: int, callback: Script)
    requires AllTimeless(s.alarms, true) && Timeless(callback, true)
    ensures AllTimeless(DoSchedule(s, deadlineUs, callback).alarms, true)
  {
    var e := Entry(deadlineUs, s.nextId, callback);
    InsertAtAddsOne(s.alarms, UpperBound(s.alarms, deadlineUs), e);
  }

  lemma TimelessCancel(s: Time, id: nat, mayInsert: bool)
    requires Good(s) && AllTimeless(s.alarms, mayInsert)
    ensures AllTimeless(DoCancel(s, id).alarms, mayInsert) && forall e :: e in DoCancel(s, id).alarms ==> e in s.alarms
  {
    var k := Find(s.alarms, id);
    if k < |s.alarms| { RemoveKeepsOrder(s.alarms, k); }
  }

  /** The firings from number `n` on saw uptimes from `fromNs` to the limit, none early, and
      never going back. */
  ghost predicate Within(fired: seq<Firing>, n: nat, fromNs: int, limitNs: int) {
    && n <= |fired|
    && (forall k :: n <= k < |fired| ==> fromNs <= fired[k].uptimeNs <= limitNs)
    && (forall k :: n <= k < |fired| ==> fired[k].deadlineUs * NANOS_PER_MICRO <= fired[k].uptimeNs)
    && (forall k, l :: n <= k < l < |fired| ==> fired[k].uptimeNs <= fired[l].uptimeNs)
  }

  /** Never early and never past the limit, whatever ties and overdue alarms exist and whatever
      the callbacks register or cancel, as long as none of them moves time. */
  lemma {:induction false} DrainStaysWithin(s: Time, limitNs: int, mayInsert: bool)
    requires Good(s) && s.active && !s.aborted && s.uptimeNs <= limitNs <= s.reservedNs
    requires AllTimeless(s.alarms, mayInsert)
    ensures var r := Drain(s, limitNs, true);
            && Within(r.fired, |s.fired|, s.uptimeNs, limitNs)
            && (r.aborted || (r.uptimeNs == limitNs && !HeadDue(r)))
            && (!mayInsert ==> !r.aborted)
    decreases Total(s.alarms)
  {
    var now := Advance(s, limitNs, true);
    AdvanceKeeps(s, limitNs, true);
    if HeadDue(now) {
      var c, head := Claim(now), now.alarms[0];
      ClaimIsGood(now);
      assert head in s.alarms;
      RunKeeps(c, head.payload);
      TimelessCallback(c, head.payload, mayInsert);
      var t := Run(c, head.payload);
      if t.aborted {
        assert Drain(t, limitNs, true) == t;
      } else {
        DrainStaysWithin(t, limitNs, mayInsert);
        DrainKeeps(t, limitNs, true);
        WithinAfterClaim(s, t, Drain(t, limitNs, true), limitNs, Firing(head.id, head.deadline, now.uptimeNs));
      }
    }
  }

  lemma WithinAfterClaim(s: Time, t: Time, r: Time, limitNs: int, f: Firing)
    requires t.fired == s.fired + [f] && t.fired <= r.fired && s.uptimeNs <= f.uptimeNs == t.uptimeNs <= limitNs
    requires f.deadlineUs * NANOS_PER_MICRO <= f.uptimeNs && Within(r.fired, |t.fired|, t.uptimeNs, limitNs)
    ensures Within(r.fired, |s.fired|, s.uptimeNs, limitNs)
  {
    assert r.fired[|s.fired|] == t.fired[|s.fired|] == f;
  }

  /** One of these alarms. */
  ghost predicate IsOf(f: Firing, q: seq<Alarm>) {
    exists e :: e in q && e.id == f.id && e.deadline == f.deadlineUs
  }

  predicate FiredBefore(a: Firing, b: Firing) {
    a.deadlineUs < b.deadlineUs || (a.deadlineUs == b.deadlineUs && a.id < b.id)
  }

  ghost predicate InOrder(fired: seq<Firing>, n: nat, q: seq<Alarm>) {
    && (forall k :: n <= k < |fired| ==> IsOf(fired[k], q))
    && (forall k, l :: n <= k < l < |fired| ==> FiredBefore(fired[k], fired[l]))
  }

  /** In order: callbacks that insert nothing, but may cancel each other, run in deadline order
      and first registered first, each alarm at most once. */
  lemma {:induction false} DrainKeepsOrder(s: Time, limitNs: int)
    requires Good(s) && s.active && !s.aborted && s.uptimeNs <= limitNs <= s.reservedNs
    requires AllTimeless(s.alarms, false)
    ensures InOrder(Drain(s, limitNs, true).fired, |s.fired|, s.alarms)
    decreases Total(s.alarms)
  {
    var now := Advance(s, limitNs, true);
    AdvanceKeeps(s, limitNs, true);
    if HeadDue(now) {
      var c, head := Claim(now), now.alarms[0];
      ClaimIsGood(now);
      assert head in s.alarms;
      RunKeeps(c, head.payload);
      TimelessCallback(c, head.payload, false);
      var t := Run(c, head.payload);
      DrainKeepsOrder(t, limitNs);
      DrainKeeps(t, limitNs, true);
      OrderAfterClaim(s, t, Drain(t, limitNs, true), Firing(head.id, head.deadline, now.uptimeNs));
    }
  }

  lemma OrderAfterClaim(s: Time, t: Time, r: Time, f: Firing)
    requires |s.alarms| > 0 && Sorted(s.alarms) && f.id == s.alarms[0].id && f.deadlineUs == s.alarms[0].deadline
    requires t.fired == s.fired + [f] && t.fired <= r.fired && InOrder(r.fired, |t.fired|, t.alarms)
    requires forall e :: e in t.alarms ==> e in s.alarms[1..]
    ensures InOrder(r.fired, |s.fired|, s.alarms)
  {
    assert r.fired[|s.fired|] == t.fired[|s.fired|] == f;
    assert s.alarms[0] in s.alarms;
    forall k | |t.fired| <= k < |r.fired| ensures IsOf(r.fired[k], s.alarms) && FiredBefore(f, r.fired[k]) {
      var e :| e in t.alarms && e.id == r.fired[k].id && e.deadline == r.fired[k].deadlineUs;
      assert e in s.alarms[1..] && Before(s.alarms[0], e);
    }
  }

  // ---------- No due alarm is left out ----------

  /** The callback, or one that it registers, cancels the alarm. */
  predicate MayCancel(c: Script, id: nat)
    decreases c
  {
    match c
    case Done => false
    case Then(a, rest) =>
      MayCancel(rest, id) || (a.Cancel? && a.id == id) || (a.Schedule? && MayCancel(a.callback, id))
  }

  ghost predicate NobodyCancels(q: seq<Alarm>, id: nat) {
    forall x :: x in q ==> !MayCancel(x.payload, id)
  }

  lemma {:induction false} CallbackSpares(s: Time, c: Script, mayInsert: bool, e: Alarm)
    requires Good(s) && s.active && AllTimeless(s.alarms, mayInsert) && Timeless(c, mayInsert)
    requires NobodyCancels(s.alarms, e.id) && !MayCancel(c, e.id) && e in s.alarms
    ensures var r := Run(s, c); e in r.alarms && NobodyCancels(r.alarms, e.id)
    decreases c
  {
    if !s.aborted && c.Then? {
      ActKeeps(s, c.first);
      var t := Act(s, c.first);
      if c.first.Schedule? {
        TimelessSchedule(s, c.first.deadlineUs, c.first.callback);
        ScheduleSpares(s, c.first.deadlineUs, c.first.callback, e);
      } else if c.first.Cancel? {
        TimelessCancel(s, c.first.id, mayInsert);
        CancelIs(s, c.first.id);
        WithoutMembers(s.alarms, {c.first.id});
      } else {
        NestedDeliver(s, s.uptimeNs, false);
      }
      if !t.aborted { CallbackSpares(t, c.rest, mayInsert, e); }
    }
  }

  lemma ScheduleSpares(s: Time, deadlineUs: int, callback: Script, e: Alarm)
    requires NobodyCancels(s.alarms, e.id) && !MayCancel(callback, e.id) && e in s.alarms
    ensures var r := DoSchedule(s, deadlineUs, callback); e in r.alarms && NobodyCancels(r.alarms, e.id)
  {
    InsertAtAddsOne(s.alarms, UpperBound(s.alarms, deadlineUs), Entry(deadlineUs, s.nextId, callback));
  }

  /** One of the firings from number `n` on is of this alarm. */
  ghost predicate HasFired(fired: seq<Firing>, n: nat, e: Alarm) {
    exists k :: n <= k < |fired| && fired[k].id == e.id && fired[k].deadlineUs == e.deadline
  }

  /** Every alarm due by the limit that no pending callback, and no callback registered on the way,
      cancels is run by the drain, unless the drain aborts. */
  lemma {:induction false} DueAlarmRuns(s: Time, limitNs: int, mayInsert: bool, e: Alarm)
    requires Good(s) && s.active && !s.aborted && s.uptimeNs <= limitNs <= s.reservedNs
    requires AllTimeless(s.alarms, mayInsert)
    requires e in s.alarms && DueBy(e, limitNs) && NobodyCancels(s.alarms, e.id)
    ensures var r := Drain(s, limitNs, true); r.aborted || HasFired(r.fired, |s.fired|, e)
    decreases Total(s.alarms)
  {
    var now := Advance(s, limitNs, true);
    AdvanceKeeps(s, limitNs, true);
    assert s.alarms[0] == e || Before(s.alarms[0], e);
    var c, head := Claim(now), now.alarms[0];
    ClaimIsGood(now);
    assert head in s.alarms;
    RunKeeps(c, head.payload);
    TimelessCallback(c, head.payload, mayInsert);
    var t := Run(c, head.payload);
    if !t.aborted {
      DrainKeeps(t, limitNs, true);
      var f := Firing(head.id, head.deadline, now.uptimeNs);
      if head == e {
        assert Drain(t, limitNs, true).fired[|s.fired|] == t.fired[|s.fired|] == f;
      } else {
        CallbackSpares(c, head.payload, mayInsert, e);
        DueAlarmRuns(t, limitNs, mayInsert, e);
      }
    }
  }

  // ---------- Delays made at the top level ----------

  /** Every delay over callbacks that neither move time nor insert runs the alarms of `RunOrder`, in
      order, and returns with the uptime at its target. */
  lemma DelayRunsInOrder(s: Time, us: nat)
    requires CanDelay(s, us) && AllTimeless(s.alarms, false)
    ensures DeliveredInOrder(s, Act(s, Delay(us)), Target(s, us))
  {
    ReserveIsGood(s, us);
    DrainsInOrder(Reserved(s, us), Target(s, us));
    DelayIsDrain(s, us);
  }

  ghost predicate DeliveredInOrder(s: Time, r: Time, limitNs: int) {
    && r.alarms == Left(s.alarms, limitNs) && r.uptimeNs == limitNs && !r.active && !r.aborted
    && r.fired == s.fired + Firings(RunOrder(s.alarms, limitNs), s.uptimeNs, limitNs)
  }

  // ---------- Pumps made at the top level ----------

  /** A drain whose limit has been reached does not move time, whether or not it may. */
  lemma {:induction false} PumpIsDrain(s: Time, limitNs: int)
    requires Good(s) && s.active && limitNs <= s.uptimeNs
    ensures Drain(s, limitNs, false) == Drain(s, limitNs, true)
    decreases Total(s.alarms)
  {
    if !s.aborted && HeadDue(s) {
      ClaimIsGood(s);
      RunKeeps(Claim(s), s.alarms[0].payload);
      var t := Run(Claim(s), s.alarms[0].payload);
      if !t.aborted { PumpIsDrain(t, limitNs); }
    }
  }

  /** The firings of these alarms, all at one time. */
  function FiringsAt(o: seq<Alarm>, uptimeNs: int): (f: seq<Firing>)
    ensures |f| == |o|
  {
    seq(|o|, i requires 0 <= i < |o| => Firing(o[i].id, o[i].deadline, uptimeNs))
  }

  lemma PumpFirings(o: seq<Alarm>, uptimeNs: int)
    requires AllDue(o, uptimeNs)
    ensures Firings(o, uptimeNs, uptimeNs) == FiringsAt(o, uptimeNs)
  {
    forall i | 0 <= i < |o| ensures SeenAt(o, i, uptimeNs, uptimeNs) == uptimeNs {
      assert DueBy(o[0], uptimeNs) && DueBy(o[i], uptimeNs);
      assert !StrictlyLater(o, 0, uptimeNs);
    }
  }

  /** Every pump over callbacks that neither move time nor insert runs exactly the alarms due at the
      present uptime, in order and each at that uptime, leaves the others, and moves no clock. */
  lemma PumpRunsWhatIsDue(s: Time)
    requires Good(s) && !s.active && s.service.Running? && !s.aborted && AllTimeless(s.alarms, false)
    ensures Act(s, Process) ==
      s.(alarms := Left(s.alarms, s.uptimeNs),
         fired := s.fired + FiringsAt(RunOrder(s.alarms, s.uptimeNs), s.uptimeNs))
  {
    var t := s.(active := true);
    PumpIsDrain(t, s.uptimeNs);
    DrainsInOrder(t, s.uptimeNs);
    RunOrderIsSorted(s.alarms, s.uptimeNs);
    PumpFirings(RunOrder(s.alarms, s.uptimeNs), s.uptimeNs);
    assert Act(s, Process) == Drain(t, s.uptimeNs, false);
  }

  /** A pump moves no clock as long as no callback does, whatever callbacks insert. */
  lemma PumpKeepsTime(s: Time)
    requires Good(s) && !s.active && s.service.Running? && !s.aborted && AllTimeless(s.alarms, true)
    ensures var r := Act(s, Process); r.aborted || (r.uptimeNs == s.uptimeNs && !HeadDue(r))
  {
    var t := s.(active := true);
    PumpIsDrain(t, s.uptimeNs);
    DrainStaysWithin(t, s.uptimeNs, true);
    assert Act(s, Process) == Drain(t, s.uptimeNs, false);
  }
}
