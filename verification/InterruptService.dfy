/** The controller's promises to a registration: it can be made and unmade, and every assertion of
    it leads to a call of its own handler. */
module InterruptService {
  import opened InterruptProtocol
  import opened InterruptRegistry
  import opened InterruptDelivery

  // ---------- A claim is a call ----------

  /** From a claim, the next step of the dispatcher calls the claimed registration's handler with
      its argument, once. */
  lemma ClaimIsCalled(s: State)
    requires IdInv(s) && s.core.Claimed?
    ensures var h := Handle(s.core.i, s.core.generation); var r := Step(s, CoreStep);
      && h in s.registrations
      && r.calls == s.calls + [Invocation(h, s.registrations[h])]
      && r.invoked == s.invoked[h := Count(s.invoked, h) + 1]
      && r.core == Running(s.core.i, s.core.generation)
  {
    assert SlotFits(s, s.core.i);
  }

  // ---------- No assertion is lost ----------

  /** Since it had been invoked `n` times, the registration is pending, or its delivery is in
      flight, or it has been invoked again. */
  predicate Owed(s: State, h: Handle, n: nat) {
    HasPending(s, h) || InFlight(s, h) || Count(s.invoked, h) > n
  }

  /** A step of a producer stores at most one flag of one slot, and clears no pending flag. */
  lemma CasKeepsOwed(s: State, p: nat, h: Handle, n: nat)
    requires p in s.producers && s.producers[p].Looping? && Owed(s, h, n)
    ensures Owed(ProducerCas(s, p), h, n)
  {
    var c, r := s.producers[p], ProducerCas(s, p);
    if s.slots[c.handle.slot] == c.seen {
      assert r.slots[h.slot] == if h.slot == c.handle.slot then Apply(c.op, s.slots[h.slot]) else s.slots[h.slot];
    } else {
      LoopIsQuiet(s, p, c.op, c.handle);
    }
  }

  lemma ClaimKeepsOwed(s: State, i: Index, h: Handle, n: nat)
    requires !s.core.Claimed? && Owed(s, h, n)
    ensures Owed(Claim(s, i), h, n)
  {
    SetSlotAt(s, i, s.slots[i].(pending := false), h.slot);
  }

  lemma ScanKeepsOwed(s: State, h: Handle, n: nat)
    requires s.core.Scan? && Owed(s, h, n)
    ensures Owed(DispatchStep(s), h, n)
  {
    if s.core.next < CAPACITY { LoadIsQuiet(s, s.core.next, s.core.dispatched); }
  }

  lemma DispatchKeepsOwed(s: State, h: Handle, n: nat)
    requires IdInv(s) && (s.core.Scan? || s.core.Claiming? || s.core.Claimed? || s.core.Running?)
    requires Owed(s, h, n) && n <= Count(s.invoked, h)
    ensures Owed(DispatchStep(s), h, n)
  {
    match s.core
    case Claimed(_, _) => ClaimIsCalled(s);
    case Claiming(i, seen, dispatched) =>
      if s.slots[i] == seen {
        ClaimKeepsOwed(s, i, h, n);
      } else {
        LoadIsQuiet(s, i, dispatched);
      }
    case Scan(_, _) => ScanKeepsOwed(s, h, n);
    case Running(_, _) =>
  }

  lemma RegisterKeepsOwed(s: State, h: Handle, n: nat)
    requires IdInv(s) && (s.core.RegisterScan? || s.core.RegisterRoutine? || s.core.RegisterState?) && Owed(s, h, n)
    ensures Owed(RegisterStep(s), h, n)
  {
  }

  lemma UnregisterKeepsOwed(s: State, h: Handle, n: nat)
    requires (s.core.UnregisterCas? || s.core.UnregisterClear?) && Owed(s, h, n)
    requires Matches(UnregisterStep(s).slots[h.slot], h)
    ensures Owed(UnregisterStep(s), h, n)
  {
    var u := s.core.handle;
    if s.core.UnregisterCas? && s.slots[u.slot] == s.core.seen {
      SetSlotAt(s, u.slot, FREE.(generation := u.generation), h.slot);
    } else {
      assert UnregisterStep(s).slots == s.slots;
    }
  }

  lemma StepKeepsOwed(s: State, e: Event, h: Handle, n: nat)
    requires IdInv(s) && Enabled(s, e) && Owed(s, h, n) && n <= Count(s.invoked, h)
    requires Matches(Step(s, e).slots[h.slot], h)
    ensures Owed(Step(s, e), h, n)
  {
    if e.Cas? {
      CasKeepsOwed(s, e.p, h, n);
    } else if !e.CoreStep? {
      QuietEvent(s, e);
    } else if s.core.RegisterScan? || s.core.RegisterRoutine? || s.core.RegisterState? {
      RegisterKeepsOwed(s, h, n);
    } else if s.core.UnregisterCas? || s.core.UnregisterClear? {
      UnregisterKeepsOwed(s, h, n);
    } else {
      DispatchKeepsOwed(s, h, n);
    }
  }

  lemma InvokedGrows(s: State, e: Event, h: Handle)
    requires IdInv(s) && Enabled(s, e)
    ensures Count(s.invoked, h) <= Count(Step(s, e).invoked, h)
  {
    if e.Cas? {
    } else if !e.CoreStep? {
      QuietEvent(s, e);
    } else if s.core.Claimed? {
      ClaimIsCalled(s);
    } else {
      OnlyClaimsInvoke(s);
    }
  }

  /** A registration that matches at the end of a run has matched all along. */
  lemma {:induction false} RunKeepsOwed(s: State, run: seq<Event>, h: Handle, n: nat)
    requires IdInv(s) && Runs(s, run) && Owed(s, h, n) && n <= Count(s.invoked, h)
    requires Matches(s.slots[h.slot], h) && Matches(After(s, run).slots[h.slot], h)
    ensures Owed(After(s, run), h, n)
    decreases |run|
  {
    if |run| > 0 {
      var m := Step(s, run[0]);
      StepKeeps(s, run[0]);
      StepSlotLater(s, run[0], h.slot);
      GenerationsNeverReturn(m, run[1..], h.slot, h);
      StepKeepsOwed(s, run[0], h, n);
      InvokedGrows(s, run[0], h);
      RunKeepsOwed(m, run[1..], h, n);
    }
  }

  /** No assertion is lost: after `setInterruptPending` succeeds, and as long as the registration
      lasts, it is pending, or its delivery is in flight, or its handler has been called since. */
  lemma AssertionNotLost(s: State, p: nat, run: seq<Event>)
    requires IdInv(s) && p in s.producers && s.producers[p].Looping? && s.producers[p].op.SetPending?
    requires CasOutcome(s, p) == Answers(true) && Runs(ProducerCas(s, p), run)
    requires var h := s.producers[p].handle; Matches(After(ProducerCas(s, p), run).slots[h.slot], h)
    ensures var h, r := s.producers[p].handle, After(ProducerCas(s, p), run);
      HasPending(r, h) || InFlight(r, h) || Count(r.invoked, h) > Count(s.invoked, h)
  {
    var h, m := s.producers[p].handle, ProducerCas(s, p);
    assert Enabled(s, Cas(p)) && Step(s, Cas(p)) == m;
    StepKeeps(s, Cas(p));
    assert Matches(s.producers[p].seen, h);
    assert m.slots[h.slot] == s.slots[h.slot].(pending := true) && m.invoked == s.invoked;
    RunKeepsOwed(m, run, h, Count(s.invoked, h));
  }

  // ---------- Undisturbed runs of the core ----------

  ghost predicate Reaches(s: State, run: seq<Event>, r: State) {
    Runs(s, run) && After(s, run) == r
  }

  lemma StepThen(s: State, e: Event, rest: seq<Event>, r: State)
    requires Enabled(s, e) && Reaches(Step(s, e), rest, r)
    ensures Reaches(s, [e] + rest, r)
  {
    assert ([e] + rest)[1..] == rest;
  }

  function CoreSteps(n: nat): seq<Event> {
    if n == 0 then [] else [CoreStep] + CoreSteps(n - 1)
  }

  lemma CoreThen(s: State, m: State, n: nat, r: State)
    requires !s.core.Task? && m == CoreMove(s) && Reaches(m, CoreSteps(n), r)
    ensures Reaches(s, CoreSteps(n + 1), r)
  {
    StepThen(s, CoreStep, CoreSteps(n), r);
  }

  lemma Arrived(s: State)
    ensures Reaches(s, CoreSteps(0), s)
  {
  }

  /** A slot that can give a handle never used before. */
  predicate Usable(slot: Slot) {
    !slot.registered && slot.generation != MAX_GENERATION
  }

  /** The state after slot `i` was registered. */
  function Registered(s: State, i: Index, routine: Routine, enable: bool): State {
    var g := s.slots[i].generation + 1;
    SetSlot(s.(routines := s.routines[i := routine]), i, Slot.Slot(g, true, enable, false)).(
      core := Task, issued := s.issued + [Handle(i, g)], registrations := s.registrations[Handle(i, g) := routine])
  }

  lemma SlotRegisters(s: State, i: Index, routine: Routine, enable: bool)
    requires s.core == RegisterScan(i, routine, enable) && Usable(s.slots[i])
    ensures Reaches(s, CoreSteps(3), Registered(s, i, routine, enable))
  {
    var g, r := s.slots[i].generation + 1, Registered(s, i, routine, enable);
    var a := s.(core := RegisterRoutine(i, g, routine, enable));
    var b := s.(routines := s.routines[i := routine], core := RegisterState(i, g, routine, enable));
    assert CoreMove(s) == a && CoreMove(a) == b && CoreMove(b) == r;
    Arrived(r);
    CoreThen(b, r, 0, r);
    CoreThen(a, b, 1, r);
    CoreThen(s, a, 2, r);
  }

  lemma {:induction false} ScanRegisters(s: State, k: Index, i: Index, routine: Routine, enable: bool)
    requires s.core == RegisterScan(k, routine, enable) && k <= i && Usable(s.slots[i])
    requires forall j: Index :: k <= j < i ==> !Usable(s.slots[j])
    ensures Reaches(s, CoreSteps(i - k + 3), Registered(s, i, routine, enable))
    decreases i - k
  {
    if k == i {
      SlotRegisters(s, i, routine, enable);
    } else {
      var m := s.(core := RegisterScan(k + 1, routine, enable));
      assert CoreMove(s) == m;
      ScanRegisters(m, k + 1, i, routine, enable);
      CoreThen(s, m, i - k + 2, Registered(s, i, routine, enable));
    }
  }

  /** Registration does register: the first usable slot gets the next generation, the routine and
      the requested enable flag, and the handle is issued. */
  lemma RegistrationIsARun(s: State, i: Index, routine: Routine, enable: bool)
    requires s.core.Task? && routine.handler != 0 && Usable(s.slots[i])
    requires forall j: Index :: j < i ==> !Usable(s.slots[j])
    ensures Reaches(s, [Register(routine, enable)] + CoreSteps(i + 3), Registered(s, i, routine, enable))
    ensures Matches(Registered(s, i, routine, enable).slots[i], Handle(i, s.slots[i].generation + 1))
  {
    var m := s.(core := RegisterScan(0, routine, enable));
    ScanRegisters(m, 0, i, routine, enable);
    StepThen(s, Register(routine, enable), CoreSteps(i + 3), Registered(s, i, routine, enable));
  }

  /** Unregistration does unregister: the slot keeps its generation and loses its flags and routine. */
  lemma UnregistrationIsARun(s: State, h: Handle)
    requires s.core.Task? && ValidHandle(h) && Matches(s.slots[h.slot], h)
    ensures var r := SetSlot(s, h.slot, Slot.Slot(h.generation, false, false, false)).(
                       routines := s.routines[h.slot := NO_ROUTINE]);
      Reaches(s, [Unregister(h)] + CoreSteps(2), r) && Stale(r, h)
  {
    var a := s.(core := UnregisterCas(h, s.slots[h.slot]));
    var b := SetSlot(s, h.slot, Slot.Slot(h.generation, false, false, false)).(core := UnregisterClear(h));
    var r := b.(routines := s.routines[h.slot := NO_ROUTINE], core := Task);
    assert CoreMove(a) == b && CoreMove(b) == r;
    Arrived(r);
    CoreThen(b, r, 0, r);
    CoreThen(a, b, 1, r);
    StepThen(s, Unregister(h), CoreSteps(2), r);
  }

  lemma SlotDispatches(s: State, i: Index, dispatched: bool) returns (r: State)
    requires IdInv(s) && s.core == Scan(i, dispatched) && IsReady(s.slots[i])
    ensures Reaches(s, CoreSteps(3), r) && Called(s, i, r)
  {
    var a := s.(core := Claiming(i, s.slots[i], dispatched));
    var b := Claim(a, i);
    assert SlotFits(s, i);
    r := DispatchStep(b);
    assert CoreMove(s) == a && CoreMove(a) == b && CoreMove(b) == r;
    Arrived(r);
    CoreThen(b, r, 0, r);
    CoreThen(a, b, 1, r);
    CoreThen(s, a, 2, r);
  }

  /** Slot `i` lost its pending flag and its handler was called with its argument. */
  predicate Called(s: State, i: Index, r: State) {
    var h := Handle(i, s.slots[i].generation);
    && h in s.registrations && r.calls == s.calls + [Invocation(h, s.registrations[h])]
    && r.slots == s.slots[i := s.slots[i].(pending := false)] && r.core == Running(i, h.generation)
  }

  lemma {:induction false} ScanDispatches(s: State, k: Index, i: Index) returns (r: State)
    requires IdInv(s) && s.core == Scan(k, false) && k <= i && IsReady(s.slots[i])
    requires forall j: Index :: k <= j < i ==> !IsReady(s.slots[j])
    ensures Reaches(s, CoreSteps(i - k + 3), r) && Called(s, i, r)
    decreases i - k
  {
    if k == i {
      r := SlotDispatches(s, i, false);
    } else {
      var m := s.(core := Scan(k + 1, false));
      assert CoreMove(s) == m;
      CoreKeeps(s, m.core);
      r := ScanDispatches(m, k + 1, i);
      CoreThen(s, m, i - k + 2, r);
    }
  }

  /** A latched request does dispatch: the first ready slot's handler is called. */
  lemma DispatchIsARun(s: State, i: Index) returns (r: State)
    requires IdInv(s) && s.core.Task? && s.latch && IsReady(s.slots[i])
    requires forall j: Index :: j < i ==> !IsReady(s.slots[j])
    ensures Reaches(s, [Interrupt] + CoreSteps(i + 3), r) && Called(s, i, r)
  {
    var m := s.(core := Scan(0, false), latch := false);
    StepKeeps(s, Interrupt);
    r := ScanDispatches(m, 0, i);
    StepThen(s, Interrupt, CoreSteps(i + 3), r);
  }

  // ---------- A dispatch from beginning to end ----------

  lemma {:induction false} QuietScan(s: State, k: Position, dispatched: bool)
    requires s.core == Scan(k, dispatched) && forall j: Index :: k <= j ==> !IsReady(s.slots[j])
    ensures Reaches(s, CoreSteps(CAPACITY - k), s.(core := Scan(CAPACITY, dispatched)))
    decreases CAPACITY - k
  {
    var r := s.(core := Scan(CAPACITY, dispatched));
    if k == CAPACITY {
      Arrived(s);
    } else {
      var m := s.(core := Scan(k + 1, dispatched));
      assert CoreMove(s) == m;
      QuietScan(m, k + 1, dispatched);
      CoreThen(s, m, CAPACITY - k - 1, r);
    }
  }

  lemma {:induction false} CoreStepsAppend(s: State, a: nat, m: State, b: nat, r: State)
    requires Reaches(s, CoreSteps(a), m) && Reaches(m, CoreSteps(b), r)
    ensures Reaches(s, CoreSteps(a + b), r)
    decreases a
  {
    if a > 0 {
      FirstCoreStep(s, a - 1, m);
      CoreStepsAppend(CoreMove(s), a - 1, m, b, r);
      CoreThen(s, CoreMove(s), a - 1 + b, r);
    }
  }

  lemma FirstCoreStep(s: State, n: nat, r: State)
    requires Reaches(s, CoreSteps(n + 1), r)
    ensures !s.core.Task? && Reaches(CoreMove(s), CoreSteps(n), r)
  {
    assert CoreSteps(n + 1)[1..] == CoreSteps(n);
  }

  /** A pass that has nothing left to find, and has dispatched nothing, gives the core back. */
  lemma EmptyPassEnds(s: State, k: Position, n: nat)
    requires s.core == Scan(k, false) && !s.latch && (forall j: Index :: k <= j ==> !IsReady(s.slots[j]))
    requires n == CAPACITY - k
    ensures Reaches(s, CoreSteps(n + 1), s.(core := Task))
  {
    var d, r := s.(core := Scan(CAPACITY, false)), s.(core := Task);
    assert CoreMove(d) == r;
    Arrived(r);
    CoreThen(d, r, 0, r);
    QuietScan(s, k, false);
    CoreStepsAppend(s, n, d, 1, r);
  }

  /** After the last handler has returned, the dispatcher finishes its pass, makes one more that finds
      nothing, and gives the core back. */
  lemma DispatchEnds(s: State, i: Index, g: nat, n: nat, all: nat)
    requires s.core == Running(i, g) && !s.latch && forall j: Index :: !IsReady(s.slots[j])
    requires n == CAPACITY - i - 1 && all == CAPACITY
    ensures Reaches(s, CoreSteps(n + (all + 1 + 1) + 1), s.(core := Task))
  {
    var r := s.(core := Task);
    var a, b, c := s.(core := Scan(i + 1, true)), s.(core := Scan(CAPACITY, true)), s.(core := Scan(0, false));
    assert CoreMove(s) == a && CoreMove(b) == c;
    EmptyPassEnds(c, 0, all);
    CoreThen(b, c, all + 1, r);
    QuietScan(a, i + 1, true);
    CoreStepsAppend(a, n, b, all + 1 + 1, r);
    CoreThen(s, a, n + (all + 1 + 1), r);
  }
}
