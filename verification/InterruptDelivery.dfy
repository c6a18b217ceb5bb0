/** Delivery: no interrupt is lost, none is invented, and no slot starves another. */
module InterruptDelivery {
  import opened InterruptProtocol
  import opened InterruptRegistry

  // ---------- No lost interrupt ----------

  /** Some producer is between its compare-exchange and its request to the port. */
  ghost predicate RequestComing(s: State) {
    exists p :: p in s.producers && s.producers[p].Requesting?
  }

  /** The running dispatcher has yet to look at slot `i`. */
  predicate WillScan(core: Core, i: Index) {
    match core
    case Scan(next, dispatched) => dispatched || next <= i
    case Claiming(j, _, dispatched) => dispatched || j <= i
    case Claimed(_, _) => true
    case Running(_, _) => true
    case _ => false
  }

  ghost predicate LostInv(s: State) {
    forall i: Index :: IsReady(s.slots[i]) ==> s.latch || RequestComing(s) || WillScan(s.core, i)
  }

  lemma RequestStays(s: State, r: State, p: nat)
    requires RequestComing(s) && (p in s.producers ==> !s.producers[p].Requesting?)
    requires forall q :: q in s.producers && q != p ==> q in r.producers && r.producers[q] == s.producers[q]
    ensures RequestComing(r)
  {
    var q :| q in s.producers && s.producers[q].Requesting?;
    assert r.producers[q].Requesting?;
  }

  lemma LoopNotLost(s: State, p: nat, op: Op, h: Handle)
    requires LostInv(s) && (p in s.producers ==> !s.producers[p].Requesting?)
    ensures LostInv(Loop(s, p, op, h))
  {
    if RequestComing(s) { RequestStays(s, Loop(s, p, op, h), p); }
  }

  /** A compare-exchange that makes a slot ready leaves its producer owing a request. */
  lemma CasNotLost(s: State, p: nat)
    requires LostInv(s) && p in s.producers && s.producers[p].Looping?
    ensures LostInv(ProducerCas(s, p))
  {
    var c, r := s.producers[p], ProducerCas(s, p);
    if s.slots[c.handle.slot] == c.seen {
      var slot := Apply(c.op, c.seen);
      if Requests(c.op, slot) {
        assert r.producers[p].Requesting?;
      } else if RequestComing(s) {
        RequestStays(s, r, p);
      }
    } else {
      LoopNotLost(s, p, c.op, c.handle);
    }
  }

  /** A core step that makes no slot ready, clears no latch, and leaves every ready slot ahead of
      the scan that was ahead of it. */
  lemma CoreNotLost(s: State, r: State)
    requires LostInv(s) && r.producers == s.producers && r.latch == s.latch
    requires forall i: Index :: IsReady(r.slots[i]) ==> IsReady(s.slots[i])
    requires forall i: Index :: IsReady(r.slots[i]) && WillScan(s.core, i) ==> WillScan(r.core, i)
    ensures LostInv(r)
  {
    if RequestComing(s) {
      var q :| q in s.producers && s.producers[q].Requesting?;
      assert r.producers[q].Requesting?;
    }
  }

  lemma EndPassNotLost(s: State)
    requires LostInv(s) && s.core.Scan? && s.core.next == CAPACITY
    ensures LostInv(EndPass(s, s.core.dispatched))
  {
    var r := EndPass(s, s.core.dispatched);
    if r.core.Scan? {
      assert forall i: Index :: WillScan(r.core, i);
    } else {
      CoreNotLost(s, r);
    }
  }

  /** Passing over a slot loses nothing: at that moment it was not ready. */
  lemma LoadNotLost(s: State, i: Index, dispatched: bool)
    requires LostInv(s)
    requires s.core == Scan(i, dispatched) || (s.core.Claiming? && s.core.i == i && s.core.dispatched == dispatched)
    ensures LostInv(Load(s, i, dispatched))
  {
    if IsReady(s.slots[i]) {
      CoreNotLost(s, s.(core := Claiming(i, s.slots[i], dispatched)));
    } else {
      CoreNotLost(s, s.(core := Scan(i + 1, dispatched)));
    }
  }

  lemma ClaimNotLost(s: State, i: Index)
    requires LostInv(s)
    ensures LostInv(Claim(s, i))
  {
    var r := Claim(s, i);
    assert forall j: Index :: WillScan(r.core, j);
    assert forall j: Index :: j != i ==> r.slots[j] == s.slots[j];
  }

  lemma DispatchNotLost(s: State)
    requires LostInv(s) && (s.core.Scan? || s.core.Claiming? || s.core.Claimed? || s.core.Running?)
    ensures LostInv(DispatchStep(s))
  {
    match s.core
    case Scan(next, dispatched) => if next == CAPACITY { EndPassNotLost(s); } else { LoadNotLost(s, next, dispatched); }
    case Claiming(i, seen, dispatched) =>
      if s.slots[i] == seen { ClaimNotLost(s, i); } else { LoadNotLost(s, i, dispatched); }
    case Claimed(_, _) => CoreNotLost(s, DispatchStep(s));
    case Running(_, _) => CoreNotLost(s, DispatchStep(s));
  }

  lemma RegisterNotLost(s: State)
    requires LostInv(s) && (s.core.RegisterScan? || s.core.RegisterRoutine? || s.core.RegisterState?)
    ensures LostInv(RegisterStep(s))
  {
    CoreNotLost(s, RegisterStep(s));
  }

  lemma UnregisterNotLost(s: State)
    requires LostInv(s) && (s.core.UnregisterCas? || s.core.UnregisterClear?)
    ensures LostInv(UnregisterStep(s))
  {
    CoreNotLost(s, UnregisterStep(s));
  }

  lemma StepNotLost(s: State, e: Event)
    requires LostInv(s) && Enabled(s, e)
    ensures LostInv(Step(s, e))
  {
    match e
    case Begin(p, op, h) => LoopNotLost(s, p, op, h);
    case Cas(p) => CasNotLost(s, p);
    case Spurious(p) => LoopNotLost(s, p, s.producers[p].op, s.producers[p].handle);
    case CoreStep =>
      if s.core.RegisterScan? || s.core.RegisterRoutine? || s.core.RegisterState? { RegisterNotLost(s); }
      else if s.core.UnregisterCas? || s.core.UnregisterClear? { UnregisterNotLost(s); }
      else { DispatchNotLost(s); }
    case CoreSpurious =>
      if s.core.Claiming? { LoadNotLost(s, s.core.i, s.core.dispatched); } else { CoreNotLost(s, Step(s, e)); }
    case Request(_) => assert Step(s, e).latch;
    case Register(_, _) => CoreNotLost(s, Step(s, e));
    case Unregister(_) => CoreNotLost(s, Step(s, e));
    case Interrupt => assert forall i: Index :: WillScan(Step(s, e).core, i);
  }

  /** No lost interrupt, over every run: a slot that is allocated, enabled and pending has a
      latched request, or a producer about to make one, or a dispatcher that will still scan it. */
  lemma {:induction false} NoLostInterrupt(s: State, run: seq<Event>)
    requires LostInv(s) && Runs(s, run)
    ensures LostInv(After(s, run))
    decreases |run|
  {
    if |run| > 0 {
      StepNotLost(s, run[0]);
      NoLostInterrupt(Step(s, run[0]), run[1..]);
    }
  }

  lemma PowerOnDelivers()
    ensures LostInv(PowerOn()) && CountInv(PowerOn()) && FairInv(PowerOn())
  {
  }

  // ---------- Accounting ----------

  /** A claimed delivery that has not reached its handler yet. */
  predicate InFlight(s: State, h: Handle) {
    s.core.Claimed? && h == Handle(s.core.i, s.core.generation)
  }

  predicate HasPending(s: State, h: Handle) {
    Matches(s.slots[h.slot], h) && s.slots[h.slot].pending
  }

  predicate Accounted(s: State, h: Handle) {
    Count(s.invoked, h) + (if InFlight(s, h) then 1 else 0) + (if HasPending(s, h) then 1 else 0)
      <= Count(s.asserted, h)
  }

  ghost predicate CountInv(s: State) {
    forall h: Handle :: Accounted(s, h)
  }

  lemma CasAccounted(s: State, p: nat)
    requires CountInv(s) && IdInv(s) && p in s.producers && s.producers[p].Looping?
    ensures CountInv(ProducerCas(s, p))
  {
    var c, r := s.producers[p], ProducerCas(s, p);
    assert Matches(c.seen, c.handle);
    forall h: Handle ensures Accounted(r, h) { assert Accounted(s, h); }
  }

  /** A step that leaves counts and slots alone and starts no flight. */
  lemma SameAccount(s: State, r: State)
    requires CountInv(s) && r.slots == s.slots && r.invoked == s.invoked && r.asserted == s.asserted
    requires r.core.Claimed? ==> r.core == s.core
    ensures CountInv(r)
  {
    forall h: Handle ensures Accounted(r, h) { assert Accounted(s, h); }
  }

  lemma ClaimAccounted(s: State, i: Index)
    requires CountInv(s) && IsReady(s.slots[i]) && !s.core.Claimed?
    ensures CountInv(Claim(s, i))
  {
    var r := Claim(s, i);
    forall h: Handle ensures Accounted(r, h) {
      assert Accounted(s, h);
      assert h.slot != i ==> r.slots[h.slot] == s.slots[h.slot];
    }
  }

  lemma InvokeAccounted(s: State)
    requires CountInv(s) && s.core.Claimed?
    ensures CountInv(DispatchStep(s))
  {
    var r := DispatchStep(s);
    forall h: Handle ensures Accounted(r, h) { assert Accounted(s, h); }
  }

  lemma DispatchAccounted(s: State)
    requires CountInv(s) && IdInv(s) && (s.core.Scan? || s.core.Claiming? || s.core.Claimed? || s.core.Running?)
    ensures CountInv(DispatchStep(s))
  {
    match s.core
    case Scan(next, dispatched) =>
      if next == CAPACITY { SameAccount(s, EndPass(s, dispatched)); }
      else { SameAccount(s, Load(s, next, dispatched)); }
    case Claiming(i, seen, dispatched) =>
      if s.slots[i] == seen { ClaimAccounted(s, i); } else { SameAccount(s, Load(s, i, dispatched)); }
    case Claimed(_, _) => InvokeAccounted(s);
    case Running(_, _) => SameAccount(s, DispatchStep(s));
  }

  lemma RegisterAccounted(s: State)
    requires CountInv(s) && (s.core.RegisterScan? || s.core.RegisterRoutine? || s.core.RegisterState?)
    ensures CountInv(RegisterStep(s))
  {
    var r := RegisterStep(s);
    forall h: Handle ensures Accounted(r, h) { assert Accounted(s, h); }
  }

  lemma UnregisterAccounted(s: State)
    requires CountInv(s) && (s.core.UnregisterCas? || s.core.UnregisterClear?)
    ensures CountInv(UnregisterStep(s))
  {
    var r := UnregisterStep(s);
    forall h: Handle ensures Accounted(r, h) { assert Accounted(s, h); }
  }

  lemma StepAccounted(s: State, e: Event)
    requires CountInv(s) && IdInv(s) && Enabled(s, e)
    ensures CountInv(Step(s, e))
  {
    if e.Cas? {
      CasAccounted(s, e.p);
    } else if !e.CoreStep? {
      QuietEvent(s, e);
      SameAccount(s, Step(s, e));
    } else if s.core.RegisterScan? || s.core.RegisterRoutine? || s.core.RegisterState? {
      RegisterAccounted(s);
    } else if s.core.UnregisterCas? || s.core.UnregisterClear? {
      UnregisterAccounted(s);
    } else {
      DispatchAccounted(s);
    }
  }

  /** Interrupt accounting, over every run: for each registration, invocations plus the delivery
      in flight plus the pending bit never exceed its successful set-pending calls, and each call
      so far ran the handler and argument of its own registration. */
  lemma {:induction false} NoInventedInterrupt(s: State, run: seq<Event>)
    requires CountInv(s) && IdInv(s) && Runs(s, run)
    ensures CountInv(After(s, run)) && IdInv(After(s, run))
    decreases |run|
  {
    if |run| > 0 {
      StepAccounted(s, run[0]);
      StepKeeps(s, run[0]);
      NoInventedInterrupt(Step(s, run[0]), run[1..]);
    }
  }

  /** The dispatcher claims a delivery only from a slot that is allocated, enabled and pending at
      that very step, and takes its pending bit. */
  lemma ClaimsOnlyReady(s: State)
    requires CoreFits(s) && (s.core.Scan? || s.core.Claiming? || s.core.Claimed? || s.core.Running?)
    ensures var r := DispatchStep(s);
            r.core.Claimed? ==> s.core.Claiming? && r.core.i == s.core.i && IsReady(s.slots[s.core.i])
                                && r.slots == s.slots[s.core.i := s.slots[s.core.i].(pending := false)]
  {
    match s.core
    case Scan(next, dispatched) =>
      assert next < CAPACITY ==> !Load(s, next, dispatched).core.Claimed?;
      assert !EndPass(s, dispatched).core.Claimed?;
    case Claiming(i, seen, dispatched) =>
      if s.slots[i] == seen { assert DispatchStep(s) == Claim(s, i); }
      else { assert !Load(s, i, dispatched).core.Claimed?; }
    case Claimed(_, _) =>
    case Running(_, _) =>
  }

  /** After an unregister returned, no step of any run invokes that registration again. */
  lemma {:induction false} NoCallAfterUnregister(s: State, run: seq<Event>, h: Handle)
    requires IdInv(s) && Runs(s, run) && Stale(s, h)
    ensures Count(After(s, run).invoked, h) == Count(s.invoked, h)
    decreases |run|
  {
    if |run| > 0 {
      StepKeeps(s, run[0]);
      StepSlotLater(s, run[0], h.slot);
      StaleNotCalled(s, run[0], h);
      NoCallAfterUnregister(Step(s, run[0]), run[1..], h);
    }
  }

  lemma StaleNotCalled(s: State, e: Event, h: Handle)
    requires IdInv(s) && Enabled(s, e) && Stale(s, h)
    ensures Count(Step(s, e).invoked, h) == Count(s.invoked, h)
  {
    if e.Cas? {
    } else if !e.CoreStep? {
      QuietEvent(s, e);
    } else if s.core.Claimed? {
      assert Handle(s.core.i, s.core.generation) != h;
    } else {
      OnlyClaimsInvoke(s);
    }
  }

  lemma OnlyClaimsInvoke(s: State)
    requires !s.core.Task? && !s.core.Claimed?
    ensures CoreMove(s).invoked == s.invoked
  {
    if s.core.RegisterScan? || s.core.RegisterRoutine? || s.core.RegisterState? {
      RegisterInvokesNothing(s);
    } else if s.core.UnregisterCas? || s.core.UnregisterClear? {
      UnregisterInvokesNothing(s);
    } else {
      assert CoreMove(s) == DispatchStep(s);
    }
  }

  lemma RegisterInvokesNothing(s: State)
    requires s.core.RegisterScan? || s.core.RegisterRoutine? || s.core.RegisterState?
    ensures RegisterStep(s).invoked == s.invoked
  {
  }

  lemma UnregisterInvokesNothing(s: State)
    requires s.core.UnregisterCas? || s.core.UnregisterClear?
    ensures UnregisterStep(s).invoked == s.invoked
  {
  }

  // ---------- Fairness ----------

  /** Where the dispatcher stands in its cycle over the slots. */
  function ScanPosition(core: Core): Position {
    match core
    case Scan(next, _) => next
    case Claiming(i, _, _) => i
    case Claimed(i, _) => i + 1
    case Running(i, _) => i + 1
    case _ => 0
  }

  /** Going round from `position`, the scan reaches `b` before it reaches `a`. */
  predicate ReachedFirst(position: Position, b: nat, a: nat) {
    if position <= a then position <= b < a else position <= b || b < a
  }

  predicate WaitFits(s: State, a: nat, b: nat) {
    a < CAPACITY && b < CAPACITY && IsReady(s.slots[b]) && b != a && ReachedFirst(ScanPosition(s.core), b, a)
  }

  ghost predicate FairInv(s: State) {
    forall w :: w in s.waiting ==> WaitFits(s, w.0, w.1)
  }

  lemma PositionKeepsFair(s: State, r: State)
    requires FairInv(s) && r.slots == s.slots && r.waiting == s.waiting
    requires ScanPosition(r.core) == ScanPosition(s.core)
          || (ScanPosition(s.core) == CAPACITY && ScanPosition(r.core) == 0)
          || (&& ScanPosition(s.core) < CAPACITY && ScanPosition(r.core) == ScanPosition(s.core) + 1
              && !IsReady(s.slots[ScanPosition(s.core)]))
    ensures FairInv(r)
  {
    forall w | w in r.waiting ensures WaitFits(r, w.0, w.1) { assert WaitFits(s, w.0, w.1); }
  }

  lemma SetSlotKeepsFair(s: State, i: Index, slot: Slot)
    requires FairInv(s)
    ensures FairInv(SetSlot(s, i, slot))
  {
    var r := SetSlot(s, i, slot);
    forall w | w in r.waiting ensures WaitFits(r, w.0, w.1) { assert WaitFits(s, w.0, w.1); }
  }

  /** At the claim of slot `i` nothing has been waiting since its previous claim. */
  lemma ClaimIsFair(s: State, i: Index)
    requires FairInv(s) && s.core.Claiming? && s.core.i == i && IsReady(s.slots[i])
    ensures forall w :: w in s.waiting ==> w.0 != i
    ensures FairInv(Claim(s, i))
  {
    forall w | w in s.waiting ensures w.0 != i { assert WaitFits(s, w.0, w.1); }
    var r, m := Claim(s, i), SetSlot(s, i, s.slots[i].(pending := false));
    SetSlotKeepsFair(s, i, s.slots[i].(pending := false));
    forall w | w in r.waiting ensures WaitFits(r, w.0, w.1) {
      if w.0 != i { assert WaitFits(m, w.0, w.1); }
    }
  }

  lemma LoadFair(s: State, i: Index, dispatched: bool)
    requires FairInv(s) && (s.core.Scan? || s.core.Claiming?) && ScanPosition(s.core) == i
    ensures FairInv(Load(s, i, dispatched))
  {
    PositionKeepsFair(s, Load(s, i, dispatched));
  }

  lemma DispatchFair(s: State)
    requires FairInv(s) && IdInv(s) && (s.core.Scan? || s.core.Claiming? || s.core.Claimed? || s.core.Running?)
    ensures FairInv(DispatchStep(s))
  {
    match s.core
    case Scan(next, dispatched) =>
      if next == CAPACITY { PositionKeepsFair(s, EndPass(s, dispatched)); } else { LoadFair(s, next, dispatched); }
    case Claiming(i, seen, dispatched) =>
      if s.slots[i] == seen { ClaimIsFair(s, i); } else { LoadFair(s, i, dispatched); }
    case Claimed(_, _) => PositionKeepsFair(s, DispatchStep(s));
    case Running(_, _) => PositionKeepsFair(s, DispatchStep(s));
  }

  lemma RegisterFair(s: State)
    requires FairInv(s) && (s.core.RegisterScan? || s.core.RegisterRoutine? || s.core.RegisterState?)
    ensures FairInv(RegisterStep(s))
  {
    var r := RegisterStep(s);
    if s.core.RegisterState? {
      SetSlotKeepsFair(s, s.core.i, r.slots[s.core.i]);
      PositionKeepsFair(SetSlot(s, s.core.i, r.slots[s.core.i]), r);
    } else {
      PositionKeepsFair(s, r);
    }
  }

  lemma UnregisterFair(s: State)
    requires FairInv(s) && (s.core.UnregisterCas? || s.core.UnregisterClear?)
    ensures FairInv(UnregisterStep(s))
  {
    var r, h := UnregisterStep(s), s.core.handle;
    if s.core.UnregisterCas? && s.slots[h.slot] == s.core.seen {
      SetSlotKeepsFair(s, h.slot, r.slots[h.slot]);
      PositionKeepsFair(SetSlot(s, h.slot, r.slots[h.slot]), r);
    } else {
      PositionKeepsFair(s, r);
    }
  }

  lemma CasFair(s: State, p: nat)
    requires FairInv(s) && p in s.producers && s.producers[p].Looping?
    ensures FairInv(ProducerCas(s, p))
  {
    var c, r := s.producers[p], ProducerCas(s, p);
    if s.slots[c.handle.slot] == c.seen {
      SetSlotKeepsFair(s, c.handle.slot, Apply(c.op, c.seen));
      PositionKeepsFair(SetSlot(s, c.handle.slot, Apply(c.op, c.seen)), r);
    } else {
      PositionKeepsFair(s, r);
    }
  }

  lemma StepFair(s: State, e: Event)
    requires FairInv(s) && IdInv(s) && Enabled(s, e)
    ensures FairInv(Step(s, e))
  {
    if e.Cas? {
      CasFair(s, e.p);
    } else if e.CoreSpurious? && s.core.Claiming? {
      LoadFair(s, s.core.i, s.core.dispatched);
    } else if !e.CoreStep? {
      QuietEvent(s, e);
      PositionKeepsFair(s, Step(s, e));
    } else if s.core.RegisterScan? || s.core.RegisterRoutine? || s.core.RegisterState? {
      RegisterFair(s);
    } else if s.core.UnregisterCas? || s.core.UnregisterClear? {
      UnregisterFair(s);
    } else {
      DispatchFair(s);
    }
  }

  /** Dispatcher fairness, over every run: whenever a slot is claimed, no other slot has been
      ready all the time since that slot's previous claim, so a handler that keeps reasserting
      itself starves nobody. */
  lemma {:induction false} NobodyStarves(s: State, run: seq<Event>)
    requires FairInv(s) && IdInv(s) && Runs(s, run)
    ensures var r := After(s, run);
            && FairInv(r) && IdInv(r)
            && (r.core.Claiming? && r.slots[r.core.i] == r.core.seen ==> forall w :: w in r.waiting ==> w.0 != r.core.i)
    decreases |run|
  {
    if |run| > 0 {
      StepFair(s, run[0]);
      StepKeeps(s, run[0]);
      NobodyStarves(Step(s, run[0]), run[1..]);
    } else if s.core.Claiming? && s.slots[s.core.i] == s.core.seen {
      ClaimIsFair(s, s.core.i);
    }
  }
}
