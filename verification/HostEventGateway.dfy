/** The gateway's table and endpoint objects, updated in place: `connect`, `disconnect`, the tick
    hook and one pass of the delivery loop, each as it runs when nothing interleaves with it. */
module HostEventGateway {
  import opened HostEventProtocol

  class HostEventEndpoint {
    var pending: bool
    var routine: Routine
    var slot: int

    constructor ()
      ensures !pending && routine == NO_ROUTINE && slot == NO_SLOT
    {
      pending, routine, slot := false, NO_ROUTINE, NO_SLOT;
    }
  }

  /** What a pass finds at one place of the table. */
  datatype Place = Quiet | Due(routine: Routine)

  /** The calls a pass makes for what it finds, in table order. */
  function CallsFor(places: seq<Place>): seq<Routine> {
    if |places| == 0 then []
    else CallsFor(places[..|places| - 1]) + match places[|places| - 1] case Quiet => [] case Due(r) => [r]
  }

  function DuePlaces(places: seq<Place>, r: Routine): set<nat> {
    set i: nat | i < |places| && places[i] == Due(r)
  }

  lemma DuePlacesGrow(places: seq<Place>, r: Routine)
    requires |places| > 0
    ensures |DuePlaces(places, r)| == |DuePlaces(places[..|places| - 1], r)| +
      if places[|places| - 1] == Due(r) then 1 else 0
  {
    var n := |places| - 1;
    var before := DuePlaces(places[..n], r);
    assert n !in before;
    assert DuePlaces(places, r) == before + if places[n] == Due(r) then {n} else {};
  }

  /** A pass makes one call for each place that is due, and no other. */
  lemma {:induction false} OneCallPerDuePlace(places: seq<Place>, r: Routine)
    ensures multiset(CallsFor(places))[r] == |DuePlaces(places, r)|
    decreases |places|
  {
    if |places| > 0 {
      OneCallPerDuePlace(places[..|places| - 1], r);
      DuePlacesGrow(places, r);
    }
  }

  /** The calls come in table order: those for a first part of the table before those for the rest. */
  lemma {:induction false} CallsInTableOrder(first: seq<Place>, rest: seq<Place>, r: Routine)
    ensures CallsFor(first + rest) == CallsFor(first) + CallsFor(rest)
    ensures CallsFor([Due(r)]) == [r] && CallsFor([Quiet]) == []
    decreases |rest|
  {
    if |rest| == 0 {
      assert first + rest == first;
    } else {
      var n := |rest| - 1;
      CallsInTableOrder(first, rest[..n], r);
      assert (first + rest)[..|first| + n] == first + rest[..n];
    }
    assert [Due(r)][..0] == [] && [Quiet][..0] == [];
  }

  class HostEventGateway {
    const endpoints: array<HostEventEndpoint?>
    var started: bool
    /** The gateway task's notification value. */
    var notified: nat
    /** The handler calls made, with their contexts. */
    var calls: seq<Routine>
    /** Every endpoint object there is. */
    ghost var known: set<HostEventEndpoint>

    ghost predicate Located(e: HostEventEndpoint)
      reads e, endpoints
    {
      e.slot == NO_SLOT || (0 <= e.slot < endpoints.Length && endpoints[e.slot] == e)
    }

    ghost predicate Filled(i: nat)
      requires i < endpoints.Length
      reads this`known, endpoints, known
    {
      endpoints[i] == null || (endpoints[i] in known && endpoints[i].slot == i)
    }

    ghost predicate Valid()
      reads this`known, endpoints, known
    {
      && endpoints.Length == CAPACITY
      && (forall e :: e in known ==> Located(e))
      && (forall i: nat :: i < CAPACITY ==> Filled(i))
    }

    ghost function PlaceAt(i: nat): Place
      requires i < endpoints.Length && Filled(i)
      reads this`known, endpoints, known
    {
      if endpoints[i] != null && endpoints[i].pending then Due(endpoints[i].routine) else Quiet
    }

    ghost function Places(): (ps: seq<Place>)
      requires Valid()
      reads this, endpoints, known
      ensures |ps| == CAPACITY && forall i: nat :: i < CAPACITY ==> ps[i] == PlaceAt(i)
    {
      seq(CAPACITY, i requires 0 <= i < CAPACITY && Valid() reads this, endpoints, known => PlaceAt(i))
    }

    constructor ()
      ensures Valid() && fresh(endpoints) && known == {} && !started && notified == 0 && calls == []
      ensures forall i :: 0 <= i < CAPACITY ==> endpoints[i] == null
    {
      endpoints := new HostEventEndpoint?[CAPACITY](_ => null);
      started, notified, calls, known := false, 0, [], {};
    }

    method CreateEndpoint() returns (e: HostEventEndpoint)
      requires Valid()
      modifies this`known
      ensures Valid() && fresh(e) && known == old(known) + {e}
      ensures !e.pending && e.routine == NO_ROUTINE && e.slot == NO_SLOT
    {
      e := new HostEventEndpoint();
      known := known + {e};
      forall j: nat | j < CAPACITY ensures Filled(j) { assert old(Filled(j)); }
      forall x | x in known ensures Located(x) { assert x != e ==> old(allocated(x)) && old(Located(x)); }
    }

    /** `canStart` is what creating the gateway task would answer. */
    method Connect(e: HostEventEndpoint, routine: Routine, inTask: bool, canStart: bool)
      returns (result: ConnectResult)
      requires Valid() && e in known
      modifies this`started, endpoints, e
      ensures Valid()
      ensures result.WrongContext? <==> !inTask || routine.handler == 0
      ensures result.AlreadyConnected? <==> !result.WrongContext? && old(e.slot) >= 0
      ensures result.IsConnected? <==>
        && inTask && routine.handler != 0 && old(e.slot) < 0 && (old(started) || canStart)
        && exists i :: 0 <= i < CAPACITY && old(endpoints[i]) == null
      ensures result.IsConnected? ==>
        && 0 <= e.slot < CAPACITY && e.routine == routine && !e.pending && started
        && endpoints[..] == old(endpoints[..])[e.slot := e]
        && forall j :: 0 <= j < e.slot ==> old(endpoints[j]) != null
      ensures !result.IsConnected? ==>
        && endpoints[..] == old(endpoints[..])
        && e.slot == old(e.slot) && e.routine == old(e.routine) && e.pending == old(e.pending)
    {
      if !inTask || routine.handler == 0 { return WrongContext; }
      if e.slot >= 0 { return AlreadyConnected; }
      if !started {
        if !canStart { return NoCapacity; }
        started := true;
      }
      var i: nat := 0;
      while i < CAPACITY
        invariant i <= CAPACITY && forall j :: 0 <= j < i ==> old(endpoints[j]) != null
        invariant endpoints[..] == old(endpoints[..]) && started && Valid()
        invariant e.slot == old(e.slot) && e.routine == old(e.routine) && e.pending == old(e.pending)
      {
        if endpoints[i] == null {
          assert Located(e);
          e.pending, e.routine, e.slot := false, routine, i;
          endpoints[i] := e;
          forall j: nat | j < CAPACITY ensures Filled(j) { assert old(Filled(j)); }
          forall x | x in known ensures Located(x) { assert old(Located(x)); }
          return IsConnected;
        }
        i := i + 1;
      }
      return NoCapacity;
    }

    method Disconnect(e: HostEventEndpoint, inTask: bool)
      requires Valid() && e in known
      modifies endpoints, e
      ensures Valid()
      ensures !inTask || old(e.slot) < 0 ==>
        && endpoints[..] == old(endpoints[..])
        && e.slot == old(e.slot) && e.routine == old(e.routine) && e.pending == old(e.pending)
      ensures inTask && old(e.slot) >= 0 ==>
        && old(e.slot) < CAPACITY && endpoints[..] == old(endpoints[..])[old(e.slot) := null]
        && e.slot == NO_SLOT && e.routine == NO_ROUTINE && !e.pending
      ensures inTask ==> e !in endpoints[..]
    {
      forall j: nat | j < CAPACITY && e.slot < 0 ensures endpoints[j] != e { assert Filled(j); }
      assert Located(e);
      if !inTask || e.slot < 0 { return; }
      var k: nat := e.slot;
      endpoints[k] := null;
      e.slot, e.routine, e.pending := NO_SLOT, NO_ROUTINE, false;
      forall j: nat | j < CAPACITY ensures Filled(j) { assert old(Filled(j)); }
      forall x | x in known ensures Located(x) { assert old(Located(x)); }
      forall j: nat | j < CAPACITY ensures endpoints[j] != e { assert Filled(j); }
    }

    /** Wakes the gateway if, and only if, some connected endpoint is pending. */
    method OnTick()
      requires Valid()
      modifies this`notified
      ensures notified == old(notified) +
        if old(started) && exists i: nat :: i < CAPACITY && old(PlaceAt(i)).Due? then 1 else 0
    {
      if !started { return; }
      var i: nat := 0;
      while i < CAPACITY
        invariant i <= CAPACITY && notified == old(notified)
        invariant forall j: nat :: j < i ==> PlaceAt(j).Quiet?
      {
        assert Filled(i);
        if endpoints[i] != null && endpoints[i].pending {
          assert PlaceAt(i).Due?;
          notified := notified + 1;
          return;
        }
        i := i + 1;
      }
    }

    /** One pass: every pending endpoint's handler is called once, in table order, and nothing
        stays pending. */
    method DeliverPass()
      requires Valid()
      modifies this`calls, known
      ensures Valid() && endpoints[..] == old(endpoints[..]) && known == old(known)
      ensures calls == old(calls) + CallsFor(old(Places()))
      ensures forall i: nat :: i < CAPACITY ==> PlaceAt(i).Quiet?
      ensures forall e :: e in known ==> e.slot == old(e.slot) && e.routine == old(e.routine)
      ensures forall e :: e in known && e.slot < 0 ==> e.pending == old(e.pending)
    {
      ghost var places := Places();
      var i: nat := 0;
      while i < CAPACITY
        invariant i <= CAPACITY && Valid() && endpoints[..] == old(endpoints[..])
        invariant forall e :: e in known ==> e.slot == old(e.slot) && e.routine == old(e.routine)
        invariant forall e :: e in known && e.slot < 0 ==> e.pending == old(e.pending)
        invariant forall j: nat :: j < i ==> PlaceAt(j).Quiet?
        invariant forall j: nat :: i <= j < CAPACITY ==> PlaceAt(j) == places[j]
        invariant calls == old(calls) + CallsFor(places[..i])
      {
        assert places[..i + 1][..i] == places[..i];
        assert places[i] == PlaceAt(i);
        DeliverAt(i);
        i := i + 1;
      }
      assert places[..CAPACITY] == places;
    }

    /** The body of the pass's loop. */
    method DeliverAt(i: nat)
      requires Valid() && i < CAPACITY
      modifies this`calls, known
      ensures Valid() && endpoints[..] == old(endpoints[..]) && known == old(known)
      ensures calls == old(calls) + match old(PlaceAt(i)) case Quiet => [] case Due(r) => [r]
      ensures PlaceAt(i).Quiet?
      ensures forall j: nat :: j < CAPACITY && j != i ==> PlaceAt(j) == old(PlaceAt(j))
      ensures forall e :: e in known ==> e.slot == old(e.slot) && e.routine == old(e.routine)
      ensures forall e :: e in known && e.slot < 0 ==> e.pending == old(e.pending)
    {
      var e := endpoints[i];
      assert Filled(i);
      if e != null && e.pending {
        e.pending := false;
        calls := calls + [e.routine];
        forall j: nat | j < CAPACITY ensures Filled(j) { assert old(Filled(j)); }
        forall x | x in known ensures Located(x) { assert old(Located(x)); }
        forall j: nat | j < CAPACITY && j != i ensures PlaceAt(j) == old(PlaceAt(j)) { assert old(Filled(j)); }
      }
    }

    method NotifyFromHost(e: HostEventEndpoint)
      requires Valid() && e in known
      modifies e`pending
      ensures Valid() && e.pending
    {
      e.pending := true;
      forall j: nat | j < CAPACITY ensures Filled(j) { assert old(Filled(j)); }
      forall x | x in known ensures Located(x) { assert old(Located(x)); }
    }
  }
}
