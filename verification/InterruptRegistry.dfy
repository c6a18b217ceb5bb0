/** Handle identity: no handle is issued twice, and no stale handle or delayed compare-exchange
    reaches another registration, in any interleaving. */
module InterruptRegistry {
  import opened InterruptProtocol

  ghost predicate ProducersFit(s: State) {
    forall p :: p in s.producers && s.producers[p].Looping? ==> Matches(s.producers[p].seen, s.producers[p].handle)
  }

  /** What the core relies on between its steps; producers cannot take it away. */
  predicate CoreFits(s: State) {
    match s.core
    case RegisterScan(_, routine, _) => routine.handler != 0
    case RegisterRoutine(i, g, routine, _) => Fresh(s.slots[i], g) && routine.handler != 0
    case RegisterState(i, g, routine, _) => Fresh(s.slots[i], g) && routine.handler != 0 && s.routines[i] == routine
    case UnregisterCas(h, seen) => Matches(seen, h)
    case UnregisterClear(h) => !s.slots[h.slot].registered
    case Claiming(_, seen, _) => IsReady(seen)
    case Claimed(i, g) => s.slots[i].registered && s.slots[i].generation == g
    case Running(i, g) => s.slots[i].registered && s.slots[i].generation == g
    case _ => true
  }

  predicate Fresh(slot: Slot, generation: nat) {
    !slot.registered && slot.generation + 1 == generation <= MAX_GENERATION
  }

  predicate SlotFits(s: State, i: Index) {
    var slot, h := s.slots[i], Handle(i, s.slots[i].generation);
    && slot.generation <= MAX_GENERATION
    && (slot.registered ==> h in s.registrations && s.registrations[h] == s.routines[i] && s.routines[i].handler != 0)
    && (slot.enabled || slot.pending ==> slot.registered)
  }

  ghost predicate HistoryFits(s: State) {
    && (forall k, l :: 0 <= k < l < |s.issued| ==> s.issued[k] != s.issued[l])
    && (forall h :: h in s.issued <==> h in s.registrations)
    && (forall h :: h in s.registrations ==> 0 < h.generation <= s.slots[h.slot].generation)
    && (forall k :: 0 <= k < |s.calls| ==>
          s.calls[k].handle in s.registrations && s.registrations[s.calls[k].handle] == s.calls[k].routine)
  }

  ghost predicate IdInv(s: State) {
    ProducersFit(s) && CoreFits(s) && HistoryFits(s) && forall i: Index :: SlotFits(s, i)
  }

  /** Slot `i` changed at most its enabled and pending flags. */
  predicate FlagsOnly(a: Slot, b: Slot) {
    a.generation == b.generation && a.registered == b.registered
  }

  lemma FlagStepKeeps(s: State, r: State, i: Index, slot: Slot)
    requires IdInv(s) && r.slots == s.slots[i := slot] && FlagsOnly(s.slots[i], slot) && slot.registered
    requires r.routines == s.routines && r.issued == s.issued
    requires r.registrations == s.registrations && r.calls == s.calls
    requires ProducersFit(r)
    requires r.core == s.core || CoreFits(r)
    ensures IdInv(r)
  {
    forall j: Index ensures SlotFits(r, j) { assert SlotFits(s, j); }
  }

  /** A step that leaves slots, routines and history alone. */
  lemma QuietStepKeeps(s: State, r: State)
    requires IdInv(s) && r.slots == s.slots && r.routines == s.routines
    requires r.issued == s.issued && r.registrations == s.registrations && r.calls == s.calls
    requires r.producers == s.producers || ProducersFit(r)
    requires r.core == s.core || CoreFits(r)
    ensures IdInv(r)
  {
    forall j: Index ensures SlotFits(r, j) { assert SlotFits(s, j); }
  }

  lemma CoreKeeps(s: State, core: Core)
    requires IdInv(s) && CoreFits(s.(core := core))
    ensures IdInv(s.(core := core))
  {
    QuietStepKeeps(s, s.(core := core));
  }

  lemma LoopKeeps(s: State, p: nat, op: Op, h: Handle)
    requires IdInv(s)
    ensures IdInv(Loop(s, p, op, h))
  {
    QuietStepKeeps(s, Loop(s, p, op, h));
  }

  lemma CasKeeps(s: State, p: nat)
    requires IdInv(s) && p in s.producers && s.producers[p].Looping?
    ensures IdInv(ProducerCas(s, p))
  {
    var c, r := s.producers[p], ProducerCas(s, p);
    if s.slots[c.handle.slot] == c.seen {
      FlagStepKeeps(s, r, c.handle.slot, Apply(c.op, c.seen));
    } else {
      LoopKeeps(s, p, c.op, c.handle);
    }
  }

  lemma RegisterKeeps(s: State)
    requires IdInv(s) && (s.core.RegisterScan? || s.core.RegisterRoutine? || s.core.RegisterState?)
    ensures IdInv(RegisterStep(s))
  {
    match s.core
    case RegisterScan(_, _, _) => RegisterScanKeeps(s);
    case RegisterRoutine(i, g, routine, _) => RegisterRoutineKeeps(s, i, g, routine);
    case RegisterState(i, g, routine, _) => RegisterStateKeeps(s, i, g, routine);
  }

  lemma RegisterScanKeeps(s: State)
    requires IdInv(s) && s.core.RegisterScan?
    ensures IdInv(RegisterStep(s))
  {
    var next := s.core.next;
    assert next < CAPACITY ==> SlotFits(s, next);
    CoreKeeps(s, RegisterStep(s).core);
  }

  lemma RegisterRoutineKeeps(s: State, i: Index, g: nat, routine: Routine)
    requires IdInv(s) && s.core.RegisterRoutine? && s.core.i == i && s.core.generation == g && s.core.routine == routine
    ensures IdInv(RegisterStep(s))
  {
    var r := RegisterStep(s);
    forall j: Index ensures SlotFits(r, j) { assert SlotFits(s, j); }
  }

  lemma RegisterStateKeeps(s: State, i: Index, g: nat, routine: Routine)
    requires IdInv(s) && s.core.RegisterState? && s.core.i == i && s.core.generation == g && s.core.routine == routine
    ensures IdInv(RegisterStep(s))
  {
    var r, h := RegisterStep(s), Handle(i, g);
    assert h !in s.registrations;
    forall j: Index ensures SlotFits(r, j) { assert SlotFits(s, j); }
    forall k | 0 <= k < |s.issued| ensures s.issued[k] != h { assert s.issued[k] in s.issued; }
    assert forall x :: x in r.issued <==> x in s.issued || x == h;
  }

  lemma UnregisterKeeps(s: State)
    requires IdInv(s) && (s.core.UnregisterCas? || s.core.UnregisterClear?)
    ensures IdInv(UnregisterStep(s))
  {
    var h, r := s.core.handle, UnregisterStep(s);
    if s.core.UnregisterCas? && s.slots[h.slot] != s.core.seen {
      CoreKeeps(s, r.core);
    } else if s.core.UnregisterCas? {
      UnregisteredKeeps(s, h);
    } else {
      forall j: Index ensures SlotFits(r, j) { assert SlotFits(s, j); }
    }
  }

  lemma UnregisteredKeeps(s: State, h: Handle)
    requires IdInv(s) && s.core.UnregisterCas? && s.core.handle == h && s.slots[h.slot] == s.core.seen
    ensures IdInv(UnregisterStep(s))
  {
    var r := UnregisterStep(s);
    forall j: Index ensures SlotFits(r, j) { assert SlotFits(s, j); }
  }

  lemma LoadKeeps(s: State, i: Index, dispatched: bool)
    requires IdInv(s)
    ensures IdInv(Load(s, i, dispatched))
  {
    if IsReady(s.slots[i]) {
      CoreKeeps(s, Claiming(i, s.slots[i], dispatched));
    } else {
      CoreKeeps(s, Scan(i + 1, dispatched));
    }
  }

  lemma ClaimedKeeps(s: State)
    requires IdInv(s) && s.core.Claimed?
    ensures IdInv(DispatchStep(s))
  {
    var r, h := DispatchStep(s), Handle(s.core.i, s.core.generation);
    assert SlotFits(s, s.core.i);
    forall j: Index ensures SlotFits(r, j) { assert SlotFits(s, j); }
    assert r.calls == s.calls + [Invocation(h, s.registrations[h])];
  }

  lemma DispatchKeeps(s: State)
    requires IdInv(s) && (s.core.Scan? || s.core.Claiming? || s.core.Claimed? || s.core.Running?)
    ensures IdInv(DispatchStep(s))
  {
    match s.core
    case Scan(next, dispatched) =>
      if next == CAPACITY { QuietStepKeeps(s, EndPass(s, dispatched)); } else { LoadKeeps(s, next, dispatched); }
    case Claiming(i, seen, dispatched) =>
      if s.slots[i] == seen { FlagStepKeeps(s, Claim(s, i), i, seen.(pending := false)); }
      else { LoadKeeps(s, i, dispatched); }
    case Claimed(i, g) => ClaimedKeeps(s);
    case Running(i, _) => QuietStepKeeps(s, DispatchStep(s));
  }

  lemma StepKeeps(s: State, e: Event)
    requires IdInv(s) && Enabled(s, e)
    ensures IdInv(Step(s, e))
  {
    match e
    case Begin(p, op, h) => LoopKeeps(s, p, op, h);
    case Cas(p) => CasKeeps(s, p);
    case Spurious(p) => LoopKeeps(s, p, s.producers[p].op, s.producers[p].handle);
    case CoreStep =>
      if s.core.RegisterScan? || s.core.RegisterRoutine? || s.core.RegisterState? { RegisterKeeps(s); }
      else if s.core.UnregisterCas? || s.core.UnregisterClear? { UnregisterKeeps(s); }
      else { DispatchKeeps(s); }
    case CoreSpurious =>
      if s.core.Claiming? { LoadKeeps(s, s.core.i, s.core.dispatched); } else { CoreKeeps(s, Step(s, e).core); }
    case Request(_) => QuietStepKeeps(s, Step(s, e));
    case Register(routine, enable) => CoreKeeps(s, RegisterScan(0, routine, enable));
    case Unregister(_) => CoreKeeps(s, Step(s, e).core);
    case Interrupt => QuietStepKeeps(s, Step(s, e));
  }

  lemma PowerOnRegistered()
    ensures IdInv(PowerOn())
  {
  }

  lemma {:induction false} RunKeeps(s: State, run: seq<Event>)
    requires IdInv(s) && Runs(s, run)
    ensures IdInv(After(s, run))
    decreases |run|
  {
    if |run| > 0 {
      StepKeeps(s, run[0]);
      RunKeeps(Step(s, run[0]), run[1..]);
    }
  }

  // ---------- Identity over whole runs ----------

  /** A handle that no longer names a live registration and never will again. */
  predicate Stale(s: State, h: Handle) {
    h.generation <= s.slots[h.slot].generation && !Matches(s.slots[h.slot], h)
  }

  predicate Retired(slot: Slot) {
    slot.generation == MAX_GENERATION && !slot.registered
  }

  /** One slot over one step: its generation never falls, it is never registered under a
      generation it already had, and it stays retired. */
  predicate SlotLater(a: Slot, b: Slot) {
    && a.generation <= b.generation
    && (a.generation == b.generation && !a.registered ==> !b.registered)
    && (Retired(a) ==> Retired(b))
  }

  /** Nothing but the producers, the latch and the core's place changed. */
  predicate Quiet(s: State, r: State) {
    && r.slots == s.slots && r.waiting == s.waiting && r.invoked == s.invoked && r.asserted == s.asserted
    && (s.core.Claimed? || r.core.Claimed? ==> r.core == s.core)
  }

  lemma LoopIsQuiet(s: State, p: nat, op: Op, h: Handle)
    ensures Quiet(s, Loop(s, p, op, h)) && Loop(s, p, op, h).core == s.core
  {
  }

  lemma LoadIsQuiet(s: State, i: Index, dispatched: bool)
    requires !s.core.Claimed?
    ensures Quiet(s, Load(s, i, dispatched))
  {
  }

  /** Only a successful compare-exchange and the core's own steps store into a slot. */
  lemma QuietEvent(s: State, e: Event)
    requires Enabled(s, e) && !e.Cas? && !e.CoreStep?
    ensures Quiet(s, Step(s, e))
  {
    match e
    case Begin(p, op, h) => LoopIsQuiet(s, p, op, h);
    case Spurious(p) => LoopIsQuiet(s, p, s.producers[p].op, s.producers[p].handle);
    case CoreSpurious => if s.core.Claiming? { LoadIsQuiet(s, s.core.i, s.core.dispatched); }
    case Request(_) =>
    case Register(_, _) =>
    case Unregister(_) =>
    case Interrupt =>
  }

  lemma SetSlotAt(s: State, i: Index, slot: Slot, j: Index)
    ensures SetSlot(s, i, slot).slots[j] == if i == j then slot else s.slots[j]
  {
  }

  lemma StepSlotLater(s: State, e: Event, i: Index)
    requires IdInv(s) && Enabled(s, e)
    ensures SlotLater(s.slots[i], Step(s, e).slots[i])
  {
    if e.Cas? {
      assert Matches(s.producers[e.p].seen, s.producers[e.p].handle);
    } else if e.CoreStep? {
      CoreSlotLater(s, i);
    } else {
      QuietEvent(s, e);
    }
  }

  lemma CoreSlotLater(s: State, i: Index)
    requires IdInv(s) && !s.core.Task?
    ensures SlotLater(s.slots[i], CoreMove(s).slots[i])
  {
    if s.core.RegisterScan? || s.core.RegisterRoutine? || s.core.RegisterState? {
      RegisterSlotLater(s, i);
    } else if s.core.UnregisterCas? || s.core.UnregisterClear? {
      UnregisterSlotLater(s, i);
    } else {
      DispatchSlots(s, i);
    }
  }

  lemma RegisterSlotLater(s: State, i: Index)
    requires IdInv(s) && (s.core.RegisterScan? || s.core.RegisterRoutine? || s.core.RegisterState?)
    ensures SlotLater(s.slots[i], RegisterStep(s).slots[i])
  {
    assert SlotFits(s, i);
  }

  lemma UnregisterSlotLater(s: State, i: Index)
    requires IdInv(s) && (s.core.UnregisterCas? || s.core.UnregisterClear?)
    ensures SlotLater(s.slots[i], UnregisterStep(s).slots[i])
  {
    var h := s.core.handle;
    if s.core.UnregisterCas? && s.slots[h.slot] == s.core.seen {
      SetSlotAt(s, h.slot, FREE.(generation := h.generation), i);
    } else {
      assert UnregisterStep(s).slots == s.slots;
    }
  }

  lemma DispatchSlots(s: State, i: Index)
    requires s.core.Scan? || s.core.Claiming? || s.core.Claimed? || s.core.Running?
    ensures FlagsOnly(s.slots[i], DispatchStep(s).slots[i])
  {
    if s.core.Claiming? && s.slots[s.core.i] == s.core.seen {
      SetSlotAt(s, s.core.i, s.slots[s.core.i].(pending := false), i);
    } else {
      assert DispatchStep(s).slots == s.slots;
    }
  }

  /** Generations over every run: they never decrease, an exhausted slot is never registered
      again, and a stale handle stays stale. */
  lemma {:induction false} GenerationsNeverReturn(s: State, run: seq<Event>, i: Index, h: Handle)
    requires IdInv(s) && Runs(s, run)
    ensures SlotLater(s.slots[i], After(s, run).slots[i])
    ensures Stale(s, h) ==> Stale(After(s, run), h)
    decreases |run|
  {
    if |run| > 0 {
      StepKeeps(s, run[0]);
      StepSlotLater(s, run[0], i);
      StepSlotLater(s, run[0], h.slot);
      GenerationsNeverReturn(Step(s, run[0]), run[1..], i, h);
    }
  }

  /** A delayed compare-exchange with a stale handle changes nothing and answers false, whatever
      has been registered in the slot since it loaded the state. */
  lemma StaleIsHarmless(s: State, p: nat)
    requires IdInv(s) && p in s.producers && s.producers[p].Looping? && Stale(s, s.producers[p].handle)
    ensures CasOutcome(s, p) == Answers(false) && ProducerCas(s, p) == s.(producers := s.producers - {p})
  {
    assert Matches(s.producers[p].seen, s.producers[p].handle);
  }

  /** Each (slot, generation) pair is issued at most once in any run. */
  lemma IssuedOnce(s: State, run: seq<Event>, k: nat, l: nat)
    requires IdInv(s) && Runs(s, run) && k < |After(s, run).issued| && l < |After(s, run).issued|
    requires After(s, run).issued[k] == After(s, run).issued[l]
    ensures k == l
  {
    RunKeeps(s, run);
  }
}
