/** The alarm service as the object it is: a multimap of nodes in key order, an index from ids to
    nodes, the clock, and the flags, changed in place.  Every method is proved against the value
    semantics in `AlarmDelivery`, whose alarm list knows nothing of nodes or of the index. */
module SystemTimeService {
  import opened Int64
  import opened AlarmQueue
  import opened AlarmDelivery

  /** Index and queue are a bijection: each node is indexed under its id, and nothing else is.
      An index entry is the node that its iterator denotes. */
  ghost predicate Indexed(q: seq<Alarm>, index: map<nat, Alarm>) {
    && (forall e :: e in q ==> e.id in index && index[e.id] == e)
    && (forall id :: id in index ==> index[id] in q && index[id].id == id)
  }

  lemma IndexInsert(q: seq<Alarm>, index: map<nat, Alarm>, e: Alarm)
    requires Indexed(q, index) && e.id !in index
    ensures Indexed(Insert(q, e), index[e.id := e])
  {
    InsertAtAddsOne(q, UpperBound(q, e.deadline), e);
  }

  lemma IndexRemove(q: seq<Alarm>, index: map<nat, Alarm>, k: nat)
    requires Indexed(q, index) && k < |q| && DistinctIds(q) && Sorted(q)
    ensures Indexed(RemoveAt(q, k), index - {q[k].id})
  {
    RemoveKeepsOrder(q, k);
    var r, x := RemoveAt(q, k), index - {q[k].id};
    assert q[k] in q;
    forall e | e in r ensures e.id in x && x[e.id] == e {
      assert e in q && e != q[k] && index[e.id] == e && index[q[k].id] == q[k];
    }
  }

  lemma FreshId(s: Time, index: map<nat, Alarm>)
    requires Good(s) && Indexed(s.alarms, index) && s.nextId != 0
    ensures s.nextId !in index
  {
    assert forall id :: id in index ==> Registered(index[id], IdBound(s.nextId));
  }

  lemma ScheduleAborts(s: Time, deadlineUs: int, callback: Script)
    requires Good(s) && !(MIN_ALARM_US <= deadlineUs <= MAX_ALARM_US && s.service == Running && s.nextId != 0)
    ensures DoSchedule(s, deadlineUs, callback) == Abort(s) && Good(Abort(s))
  {
  }

  lemma ScheduleIndexes(s: Time, index: map<nat, Alarm>, deadlineUs: int, callback: Script)
    requires Good(s) && !s.aborted && Indexed(s.alarms, index)
    requires MIN_ALARM_US <= deadlineUs <= MAX_ALARM_US && s.service == Running && s.nextId != 0
    ensures var e := Entry(deadlineUs, s.nextId, callback); var r := DoSchedule(s, deadlineUs, callback);
      && r == s.(alarms := Insert(s.alarms, e), nextId := NextId(s.nextId)) && Good(r)
      && s.nextId !in index && Indexed(r.alarms, index[s.nextId := e])
  {
    ScheduleKeeps(s, deadlineUs, callback);
    FreshId(s, index);
    IndexInsert(s.alarms, index, Entry(deadlineUs, s.nextId, callback));
  }

  /** `multimap::emplace`: scans for the insertion point of the new key. */
  method EmplaceNode(q: seq<Alarm>, e: Alarm) returns (r: seq<Alarm>)
    ensures r == Insert(q, e)
  {
    var k := 0;
    while k < |q| && q[k].deadline <= e.deadline
      invariant k <= |q|
      invariant UpperBound(q, e.deadline) == k + UpperBound(q[k..], e.deadline)
    {
      assert q[k..][1..] == q[k + 1..];
      k := k + 1;
    }
    r := q[..k] + [e] + q[k..];
  }

  /** `multimap::erase`: unlinks the node that an iterator denotes. */
  method EraseNode(q: seq<Alarm>, node: Alarm) returns (r: seq<Alarm>)
    requires node in q && DistinctIds(q)
    ensures Find(q, node.id) < |q| && r == RemoveAt(q, Find(q, node.id))
  {
    var k := 0;
    while q[k] != node
      invariant k < |q| && node in q[k..]
      invariant Find(q, node.id) == k + Find(q[k..], node.id)
      decreases |q| - k
    {
      assert q[k..] == [q[k]] + q[k + 1..];
      assert q[k..][1..] == q[k + 1..];
      ghost var j :| 0 <= j < |q[k..]| && q[k..][j] == node;
      assert q[k].id != q[k + j].id;
      k := k + 1;
    }
    assert q[k..][0] == node;
    r := q[..k] + q[k + 1..];
  }

  lemma FindMissing(q: seq<Alarm>, id: nat)
    requires forall e :: e in q ==> e.id != id
    ensures Find(q, id) == |q|
  {
  }

  class SystemTimeService {
    var uptimeNs: int
    var reservedNs: int
    var queue: seq<Alarm>
    var index: map<nat, Alarm>
    var nextId: nat
    var deliveryActive: bool
    var service: Service
    var fired: seq<Firing>
    var aborted: bool
    ghost var delayedNs: nat

    ghost function Abs(): Time
      reads this
    {
      Time(uptimeNs, reservedNs, queue, nextId, deliveryActive, service, fired, delayedNs, aborted)
    }

    ghost predicate Valid()
      reads this
    {
      Good(Abs()) && Indexed(queue, index)
    }

    constructor ()
      ensures Valid() && Abs() == POWER_ON
    {
      uptimeNs, reservedNs, queue, index := 0, 0, [], map[];
      nextId, deliveryActive, service, fired, aborted, delayedNs := 1, false, Running, [], false, 0;
    }

    method ScheduleAlarm(deadlineUs: int, callback: Script) returns (id: nat)
      requires Valid() && !aborted
      modifies this
      ensures Valid() && Abs() == DoSchedule(old(Abs()), deadlineUs, callback)
      ensures !aborted ==> id == old(nextId) && id in index && id !in old(index)
    {
      id := 0;
      if deadlineUs < MIN_ALARM_US || MAX_ALARM_US < deadlineUs || service != Running || nextId == 0 {
        ScheduleAborts(Abs(), deadlineUs, callback);
        aborted := true;
        return;
      }
      id := nextId;
      var e := Entry(deadlineUs, id, callback);
      ScheduleIndexes(Abs(), index, deadlineUs, callback);
      queue := EmplaceNode(queue, e);
      index := index[id := e];
      nextId := NextId(nextId);
      assert Abs() == DoSchedule(old(Abs()), deadlineUs, callback);
    }

    method CancelAlarm(id: nat)
      requires Valid() && !aborted
      modifies this
      ensures Valid() && Abs() == DoCancel(old(Abs()), id)
      ensures id != 0 ==> id !in index
    {
      CancelKeeps(Abs(), id);
      if id == 0 || id !in index {
        if id != 0 { FindMissing(queue, id); }
        return;
      }
      IndexRemove(queue, index, Find(queue, id));
      queue := EraseNode(queue, index[id]);
      index := index - {id};
    }

    /** The earliest pending deadline, or `INT64_MAX` exactly when nothing is pending. */
    method NextDeadline() returns (deadlineUs: int)
      requires Valid()
      ensures deadlineUs == INT64_MAX <==> queue == []
      ensures queue != [] ==> exists i :: 0 <= i < |queue| && queue[i].deadline == deadlineUs
      ensures forall i :: 0 <= i < |queue| ==> deadlineUs <= queue[i].deadline
    {
      if |queue| == 0 {
        return INT64_MAX;
      }
      deadlineUs := queue[0].deadline;
      assert queue[0] in queue;
      assert forall i :: 0 < i < |queue| ==> Before(queue[0], queue[i]);
    }

    method LagNs(ns: nat)
      requires Valid() && !aborted
      modifies this
      ensures Valid() && Abs() == DoLag(old(Abs()), ns)
      ensures !aborted ==> uptimeNs == old(uptimeNs) + ns
    {
      LagKeeps(Abs(), ns);
      if ns > INT64_MAX || service != Running || ns > INT64_MAX - uptimeNs {
        aborted := true;
      } else {
        uptimeNs := uptimeNs + ns;
        if reservedNs < uptimeNs { reservedNs := uptimeNs; }
      }
    }

    method PublishUptimeAtLeast(candidateNs: int)
      modifies this`uptimeNs
      ensures Abs() == PublishAtLeast(old(Abs()), candidateNs)
    {
      if uptimeNs < candidateNs { uptimeNs := candidateNs; }
    }

    method DelayMicros(us: nat)
      requires Valid() && !aborted
      modifies this
      ensures Valid() && Abs() == Act(old(Abs()), Delay(us))
      ensures old(deliveryActive) && !aborted ==> uptimeNs == old(reservedNs) + us * NANOS_PER_MICRO
      decreases Total(Abs().alarms), 3
    {
      ActKeeps(Abs(), Delay(us));
      var base := if uptimeNs < reservedNs then reservedNs else uptimeNs;
      if us > MAX_ALARM_US || service != Running || us * NANOS_PER_MICRO > INT64_MAX - base {
        aborted := true;
      } else {
        reservedNs := base + us * NANOS_PER_MICRO;
        delayedNs := delayedNs + us * NANOS_PER_MICRO;
        assert Abs() == Reserve(old(Abs()), us);
        DeliverAlarmsThrough(reservedNs, true);
      }
    }

    method ProcessAlarms()
      requires Valid() && !aborted
      modifies this
      ensures Valid() && Abs() == Act(old(Abs()), Process)
      ensures old(deliveryActive) || old(service) != Running ==> Abs() == old(Abs())
      decreases Total(Abs().alarms), 3
    {
      ActKeeps(Abs(), Process);
      if service == Running {
        DeliverAlarmsThrough(uptimeNs, false);
      }
    }

    method DeliverAlarmsThrough(limitNs: int, advanceTime: bool)
      requires Valid() && !aborted && limitNs <= reservedNs
      modifies this
      ensures Valid() && Abs() == Deliver(old(Abs()), limitNs, advanceTime)
      decreases Total(Abs().alarms), 2
    {
      DeliverKeeps(Abs(), limitNs, advanceTime);
      if service != Running {
      } else if deliveryActive {
        if advanceTime { PublishUptimeAtLeast(limitNs); }
      } else {
        deliveryActive := true;
        DrainAlarms(limitNs, advanceTime);
      }
    }

    /** The drain loop of the delivery owner. */
    method DrainAlarms(limitNs: int, advanceTime: bool)
      requires Valid() && !aborted && deliveryActive && limitNs <= reservedNs
      modifies this
      ensures Valid() && Abs() == Drain(old(Abs()), limitNs, advanceTime)
      decreases Total(Abs().alarms), 1
    {
      var idle := false;
      while !idle && !aborted
        invariant Valid() && limitNs <= reservedNs
        invariant !idle && !aborted ==> deliveryActive
        invariant idle ==> Abs() == Drain(old(Abs()), limitNs, advanceTime)
        invariant !idle ==> Drain(Abs(), limitNs, advanceTime) == Drain(old(Abs()), limitNs, advanceTime)
        invariant Total(Abs().alarms) <= Total(old(Abs()).alarms)
        decreases Total(Abs().alarms), !idle
      {
        idle := DrainOnce(limitNs, advanceTime);
      }
    }

    /** One iteration: a locked section that claims the due head or gives up delivery, then the
        callback, which may call back into the service; ownership makes those calls return
        without draining. */
    method DrainOnce(limitNs: int, advanceTime: bool) returns (idle: bool)
      requires Valid() && !aborted && deliveryActive && limitNs <= reservedNs
      modifies this
      ensures Valid() && limitNs <= reservedNs
      ensures idle ==> Abs() == Drain(old(Abs()), limitNs, advanceTime)
      ensures idle ==> Total(Abs().alarms) <= Total(old(Abs()).alarms)
      ensures !idle ==> Drain(Abs(), limitNs, advanceTime) == Drain(old(Abs()), limitNs, advanceTime)
      ensures !idle ==> Total(Abs().alarms) < Total(old(Abs()).alarms) && (aborted || deliveryActive)
      decreases Total(Abs().alarms), 0
    {
      AdvanceKeeps(Abs(), limitNs, advanceTime);
      if advanceTime { AdvanceToward(limitNs); }
      if |queue| == 0 || uptimeNs < queue[0].deadline * NANOS_PER_MICRO {
        deliveryActive := false;
        return true;
      }
      idle := false;
      var callback := ClaimHead();
      RunKeeps(Abs(), callback);
      RunCallback(callback);
    }

    /** Moves the uptime to the head deadline, or to the limit, as one drain iteration does. */
    method AdvanceToward(limitNs: int)
      modifies this`uptimeNs
      ensures Abs() == Advance(old(Abs()), limitNs, true)
    {
      if uptimeNs < limitNs {
        if |queue| > 0 {
          var deadlineNs := queue[0].deadline * NANOS_PER_MICRO;
          if uptimeNs < deadlineNs <= limitNs {
            PublishUptimeAtLeast(deadlineNs);
          } else {
            PublishUptimeAtLeast(limitNs);
          }
        } else {
          PublishUptimeAtLeast(limitNs);
        }
      }
    }

    /** Takes the due head out of the queue and the index before its callback runs. */
    method ClaimHead() returns (callback: Script)
      requires Valid() && HeadDue(Abs()) && deliveryActive
      modifies this
      ensures Valid() && Abs() == Claim(old(Abs())) && callback == old(queue)[0].payload
      ensures old(queue)[0].id !in index
    {
      ClaimIsGood(Abs());
      var head := queue[0];
      IndexRemove(queue, index, 0);
      assert RemoveAt(queue, 0) == queue[1..];
      callback := head.payload;
      index := index - {head.id};
      queue := queue[1..];
      fired := fired + [Firing(head.id, head.deadline, uptimeNs)];
    }

    method RunCallback(callback: Script)
      requires Valid()
      modifies this
      ensures Valid() && Abs() == Run(old(Abs()), callback)
      decreases Total(Abs().alarms) + Size(callback), 5
    {
      RunKeeps(Abs(), callback);
      if aborted { return; }
      match callback
      case Done =>
      case Then(action, rest) =>
        Perform(action);
        RunCallback(rest);
    }

    method Perform(action: Action)
      requires Valid() && !aborted
      modifies this
      ensures Valid() && Abs() == Act(old(Abs()), action)
      decreases Total(Abs().alarms) + ActionSize(action), 4
    {
      match action
      case Schedule(deadlineUs, callback) => var _ := ScheduleAlarm(deadlineUs, callback);
      case Cancel(id) => CancelAlarm(id);
      case Lag(ns) => LagNs(ns);
      case Delay(us) => DelayMicros(us);
      case Process => ProcessAlarms();
      case BeginShutdown => var _ := TryBeginShutdown();
      case FinishShutdown => var _ := FinishServiceShutdown();
    }

    method TryBeginShutdown() returns (begun: bool)
      requires Valid() && !aborted
      modifies this`service
      ensures Valid() && Abs() == Act(old(Abs()), BeginShutdown)
      ensures begun <==> !old(deliveryActive) && old(service) == Running
      ensures service == if begun then Closing else old(service)
    {
      begun := !deliveryActive && service == Running;
      if begun { service := Closing; }
    }

    /** Discards the pending callbacks, in delivery order. */
    method FinishServiceShutdown() returns (discarded: seq<Script>)
      requires Valid() && !aborted
      modifies this
      ensures Valid() && Abs() == Act(old(Abs()), FinishShutdown)
      ensures aborted <==> old(service) != Closing
      ensures !aborted ==> service == Stopped && queue == [] && index == map[]
      ensures !aborted ==> |discarded| == |old(queue)|
      ensures !aborted ==> forall i :: 0 <= i < |old(queue)| ==> discarded[i] == old(queue)[i].payload
    {
      discarded := [];
      if service != Closing {
        aborted := true;
        return;
      }
      var k := 0;
      while k < |queue|
        invariant k == |discarded| <= |queue|
        invariant forall i :: 0 <= i < k ==> discarded[i] == queue[i].payload
      {
        discarded := discarded + [queue[k].payload];
        k := k + 1;
      }
      queue, index, service := [], map[], Stopped;
    }
  }
}
