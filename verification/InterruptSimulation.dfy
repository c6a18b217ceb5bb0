/** The interleaving model contains the controller's operations: an operation that nothing
    interferes with is a run of one producer, and does to the slots and the request latch what the
    operation on the array of words does.  The protocol numbers generations and the words hold
    32 bits, so the two are compared under any numbering that tells the generations at hand apart. */
module InterruptSimulation {
  import InterruptSlot
  import C = InterruptController
  import opened InterruptProtocol

  /** The numbering tells the handle's generation from zero and from its slot's. */
  predicate TellsApart(number: bv32 -> nat, slots: C.Slots, h: C.Handle)
    requires h.slot < |slots|
  {
    number(h.generation) != 0 && (number(slots[h.slot].generation) == number(h.generation) ==>
                                    slots[h.slot].generation == h.generation)
  }

  function View(slot: InterruptSlot.Slot<bv32>, number: bv32 -> nat): Slot {
    InterruptSlot.Slot(number(slot.generation), slot.registered, slot.enabled, slot.pending)
  }

  ghost predicate Shows(s: State, slots: C.Slots, number: bv32 -> nat) {
    |slots| == CAPACITY && forall i: Index :: s.slots[i] == View(slots[i], number)
  }

  function OpOf(c: C.Command): Op {
    match c
    case Enable(_) => Enable
    case Disable(_) => Disable
    case SetPending(_) => SetPending
  }

  function HandleOf(h: C.Handle, number: bv32 -> nat): Handle
    requires h.slot < CAPACITY
  {
    Handle(h.slot, number(h.generation))
  }

  /** The producer's steps: load, and for a live handle compare-exchange and perhaps request. */
  function OperationRun(slots: C.Slots, c: C.Command, number: bv32 -> nat, p: nat): seq<Event>
    requires |slots| == CAPACITY && c.handle.slot < CAPACITY
  {
    var begin := Begin(p, OpOf(c), HandleOf(c.handle, number));
    if !C.Names(slots, c.handle) then [begin] + []
    else if !C.Requests(c, C.Apply(slots, c)[c.handle.slot]) then [begin] + ([Cas(p)] + [])
    else [begin] + ([Cas(p)] + ([Request(p)] + []))
  }

  lemma FirstEvent(s: State, e: Event, rest: seq<Event>)
    requires Enabled(s, e) && Runs(Step(s, e), rest)
    ensures Runs(s, [e] + rest) && After(s, [e] + rest) == After(Step(s, e), rest)
  {
    assert ([e] + rest)[1..] == rest;
  }

  /** The handle matches in the protocol exactly when it names the slot. */
  lemma MatchesIffNames(s: State, slots: C.Slots, h: C.Handle, number: bv32 -> nat)
    requires Shows(s, slots, number) && h.generation != 0 && h.slot < CAPACITY && TellsApart(number, slots, h)
    ensures Matches(s.slots[h.slot], HandleOf(h, number)) <==> C.Names(slots, h)
    ensures ValidHandle(HandleOf(h, number))
  {
    var i: Index := h.slot;
    assert s.slots[i] == View(slots[i], number);
  }

  lemma CasShows(s: State, slots: C.Slots, c: C.Command, number: bv32 -> nat, p: nat)
    requires Shows(s, slots, number) && c.handle.slot < CAPACITY && C.Names(slots, c.handle)
    ensures var h := HandleOf(c.handle, number); var r := CasSucceeds(s, p, OpOf(c), h);
      && Shows(r, C.Apply(slots, c), number)
      && (Requests(OpOf(c), r.slots[h.slot]) <==> C.Requests(c, C.Apply(slots, c)[c.handle.slot]))
  {
    var h := HandleOf(c.handle, number);
    var r := CasSucceeds(s, p, OpOf(c), h);
    forall i: Index ensures r.slots[i] == View(C.Apply(slots, c)[i], number) {
      assert s.slots[i] == View(slots[i], number);
    }
  }

  /** An operation with a handle in range, without interference: the producer's run shows the slots
      that the operation leaves, has asked for a dispatch exactly when the operation does, and its
      compare-exchange succeeds exactly when the operation answers true. */
  lemma OperationIsARun(s: State, slots: C.Slots, c: C.Command, number: bv32 -> nat, p: nat)
    requires Shows(s, slots, number) && p !in s.producers
    requires c.handle.generation != 0 && c.handle.slot < CAPACITY && TellsApart(number, slots, c.handle)
    ensures Runs(s, OperationRun(slots, c, number, p))
    ensures var r, ok := After(s, OperationRun(slots, c, number, p)), C.Names(slots, c.handle);
      && Shows(r, C.Apply(slots, c), number) && r.producers == s.producers && r.core == s.core
      && r.latch == (s.latch || (ok && C.Requests(c, C.Apply(slots, c)[c.handle.slot])))
  {
    var h := HandleOf(c.handle, number);
    MatchesIffNames(s, slots, c.handle, number);
    if !C.Names(slots, c.handle) {
      FirstEvent(s, Begin(p, OpOf(c), h), []);
      assert s.producers - {p} == s.producers;
    } else {
      LiveOperation(s, slots, c, number, p);
    }
  }

  lemma LiveOperation(s: State, slots: C.Slots, c: C.Command, number: bv32 -> nat, p: nat)
    requires Shows(s, slots, number) && p !in s.producers
    requires c.handle.generation != 0 && c.handle.slot < CAPACITY && TellsApart(number, slots, c.handle)
    requires C.Names(slots, c.handle)
    ensures Runs(s, OperationRun(slots, c, number, p))
    ensures var r := After(s, OperationRun(slots, c, number, p));
      && Shows(r, C.Apply(slots, c), number) && r.producers == s.producers && r.core == s.core
      && r.latch == (s.latch || C.Requests(c, C.Apply(slots, c)[c.handle.slot]))
  {
    var h, op := HandleOf(c.handle, number), OpOf(c);
    MatchesIffNames(s, slots, c.handle, number);
    var s1 := Loop(s, p, op, h);
    CasShows(s1, slots, c, number, p);
    var s2 := CasSucceeds(s1, p, op, h);
    assert Step(s, Begin(p, op, h)) == s1 && Step(s1, Cas(p)) == s2;
    if C.Requests(c, C.Apply(slots, c)[c.handle.slot]) {
      var s3 := s2.(latch := true, producers := s2.producers - {p});
      assert Step(s2, Request(p)) == s3;
      FirstEvent(s2, Request(p), []);
      FirstEvent(s1, Cas(p), [Request(p)] + []);
      FirstEvent(s, Begin(p, op, h), [Cas(p)] + ([Request(p)] + []));
      assert s3.producers == s.producers;
    } else {
      FirstEvent(s1, Cas(p), []);
      FirstEvent(s, Begin(p, op, h), [Cas(p)] + []);
      assert s2.producers == s.producers;
    }
  }
}
