/** The interrupt controller under interleaving.

    Host producers run `enableInterrupt`, `disableInterrupt` and `setInterruptPending` one atomic
    access at a time.  The single FreeRTOS core runs tasks, which register and unregister inside a
    critical section, or the dispatcher, which the port starts after clearing its request latch.
    A handler's own calls are producer steps.  The fields from `issued` on record the run. */
module InterruptProtocol {
  import opened InterruptSlot

  const CAPACITY: nat := 64
  const MAX_GENERATION: nat := 0xFFFF_FFFF

  type Index = i: nat | i < CAPACITY
  type Position = i: nat | i <= CAPACITY

  type Slot = InterruptSlot.Slot<nat>

  const FREE := Slot.Slot(0, false, false, false)

  type Slots = s: seq<Slot> | |s| == CAPACITY witness seq(CAPACITY, _ => FREE)
  type Routines = s: seq<Routine> | |s| == CAPACITY witness seq(CAPACITY, _ => NO_ROUTINE)

  /** A handle that passed the range check; the operations return false on any other. */
  datatype Handle = Handle(slot: Index, generation: nat)

  /** A handler function and its argument; zero is the null handler. */
  datatype Routine = Routine(handler: nat, argument: nat)

  const NO_ROUTINE := Routine(0, 0)

  datatype Op = Enable | Disable | SetPending

  datatype Producer = Looping(op: Op, handle: Handle, seen: Slot) | Requesting

  datatype Core =
    | Task
    | RegisterScan(next: Position, routine: Routine, enable: bool)
    | RegisterRoutine(i: Index, generation: nat, routine: Routine, enable: bool)
    | RegisterState(i: Index, generation: nat, routine: Routine, enable: bool)
    | UnregisterCas(handle: Handle, seen: Slot)
    | UnregisterClear(handle: Handle)
    | Scan(next: Position, dispatched: bool)
    | Claiming(i: Index, seen: Slot, dispatched: bool)
    | Claimed(i: Index, generation: nat)
    | Running(i: Index, generation: nat)

  datatype Invocation = Invocation(handle: Handle, routine: Routine)

  datatype State = State(
    slots: Slots,
    routines: Routines,
    latch: bool,
    producers: map<nat, Producer>,
    core: Core,
    issued: seq<Handle>,
    registrations: map<Handle, Routine>,
    asserted: map<Handle, nat>,
    invoked: map<Handle, nat>,
    calls: seq<Invocation>,
    waiting: set<(nat, nat)>)

  datatype Event =
    | Begin(p: nat, op: Op, handle: Handle)
    | Cas(p: nat)
    | Spurious(p: nat)
    | Request(p: nat)
    | Register(routine: Routine, enable: bool)
    | Unregister(handle: Handle)
    | Interrupt
    | CoreStep
    | CoreSpurious

  function PowerOn(): State {
    State(seq(CAPACITY, _ => FREE), seq(CAPACITY, _ => NO_ROUTINE), false, map[], Task,
          [], map[], map[], map[], [], {})
  }

  predicate IsReady(s: Slot) { s.registered && s.enabled && s.pending }

  predicate Matches(s: Slot, h: Handle) { s.registered && s.generation == h.generation }

  predicate ValidHandle(h: Handle) { h.generation != 0 }

  function Count(m: map<Handle, nat>, h: Handle): nat {
    if h in m then m[h] else 0
  }

  /** A pair (a, b) says that slot `b` has stayed ready, without being claimed, since the last
      claim of slot `a`. */
  function StillWaiting(waiting: set<(nat, nat)>, slots: Slots): set<(nat, nat)> {
    set w | w in waiting && w.1 < CAPACITY && IsReady(slots[w.1])
  }

  /** What waits on slot `a` right after its claim. */
  function WaitingOn(a: Index, slots: Slots): set<(nat, nat)> {
    set b | 0 <= b < CAPACITY && IsReady(slots[b]) :: (a as nat, b)
  }

  function Forget(waiting: set<(nat, nat)>, a: Index): set<(nat, nat)> {
    set w | w in waiting && w.0 != a
  }

  /** Stores a new state in slot `i`. */
  function SetSlot(s: State, i: Index, slot: Slot): State {
    var slots := s.slots[i := slot];
    s.(slots := slots, waiting := StillWaiting(s.waiting, slots))
  }

  // ---------- Producers ----------

  function Apply(op: Op, slot: Slot): Slot {
    match op
    case Enable => slot.(enabled := true)
    case Disable => slot.(enabled := false)
    case SetPending => slot.(pending := true)
  }

  /** Whether the code calls `vPortRequestSimulatedInterrupt` after this compare-exchange. */
  predicate Requests(op: Op, slot: Slot) {
    match op
    case Enable => slot.pending
    case Disable => false
    case SetPending => slot.enabled
  }

  /** The loop head: retry while the loaded state still belongs to the handle. */
  function Loop(s: State, p: nat, op: Op, h: Handle): State {
    var seen := s.slots[h.slot];
    if Matches(seen, h) then s.(producers := s.producers[p := Looping(op, h, seen)])
    else s.(producers := s.producers - {p})
  }

  function CasSucceeds(s: State, p: nat, op: Op, h: Handle): State {
    var slot := Apply(op, s.slots[h.slot]);
    var r := SetSlot(s, h.slot, slot);
    r.(producers := if Requests(op, slot) then s.producers[p := Requesting] else s.producers - {p},
       asserted := if op.SetPending? then s.asserted[h := Count(s.asserted, h) + 1] else s.asserted)
  }

  // ---------- Tasks ----------

  function RegisterStep(s: State): State
    requires s.core.RegisterScan? || s.core.RegisterRoutine? || s.core.RegisterState?
  {
    match s.core
    case RegisterScan(i, routine, enable) =>
      if i == CAPACITY then s.(core := Task)
      else if s.slots[i].registered || s.slots[i].generation == MAX_GENERATION then
        s.(core := RegisterScan(i + 1, routine, enable))
      else s.(core := RegisterRoutine(i, s.slots[i].generation + 1, routine, enable))
    case RegisterRoutine(i, generation, routine, enable) =>
      s.(routines := s.routines[i := routine], core := RegisterState(i, generation, routine, enable))
    case RegisterState(i, generation, routine, enable) =>
      var h := Handle(i, generation);
      SetSlot(s, i, Slot.Slot(generation, true, enable, false)).(
        core := Task, issued := s.issued + [h], registrations := s.registrations[h := routine])
  }

  function UnregisterStep(s: State): State
    requires s.core.UnregisterCas? || s.core.UnregisterClear?
  {
    var h := s.core.handle;
    var slot := s.slots[h.slot];
    if s.core.UnregisterClear? then s.(routines := s.routines[h.slot := NO_ROUTINE], core := Task)
    else if slot == s.core.seen then
      SetSlot(s, h.slot, Slot.Slot(h.generation, false, false, false)).(core := UnregisterClear(h))
    else if Matches(slot, h) then s.(core := UnregisterCas(h, slot))
    else s.(core := Task)
  }

  // ---------- The dispatcher ----------

  /** The end of a scan: another pass if it dispatched, another dispatch if the port was asked
      again meanwhile, and otherwise back to the interrupted task. */
  function EndPass(s: State, dispatched: bool): State {
    if dispatched then s.(core := Scan(0, false))
    else if s.latch then s.(core := Scan(0, false), latch := false)
    else s.(core := Task)
  }

  function Load(s: State, i: Index, dispatched: bool): State {
    if IsReady(s.slots[i]) then s.(core := Claiming(i, s.slots[i], dispatched))
    else s.(core := Scan(i + 1, dispatched))
  }

  /** The successful compare-exchange that takes the pending bit. */
  function Claim(s: State, i: Index): State {
    var r := SetSlot(s, i, s.slots[i].(pending := false));
    r.(core := Claimed(i, s.slots[i].generation), waiting := Forget(r.waiting, i) + WaitingOn(i, r.slots))
  }

  function DispatchStep(s: State): State
    requires s.core.Scan? || s.core.Claiming? || s.core.Claimed? || s.core.Running?
  {
    match s.core
    case Scan(i, dispatched) => if i == CAPACITY then EndPass(s, dispatched) else Load(s, i, dispatched)
    case Claiming(i, seen, dispatched) => if s.slots[i] == seen then Claim(s, i) else Load(s, i, dispatched)
    case Claimed(i, generation) =>
      var h := Handle(i, generation);
      if s.routines[i].handler == 0 then s.(core := Running(i, generation))
      else s.(core := Running(i, generation), calls := s.calls + [Invocation(h, s.routines[i])],
              invoked := s.invoked[h := Count(s.invoked, h) + 1])
    case Running(i, _) => s.(core := Scan(i + 1, true))
  }

  // ---------- Steps ----------

  predicate Enabled(s: State, e: Event) {
    match e
    case Begin(p, _, h) => p !in s.producers && ValidHandle(h)
    case Cas(p) => p in s.producers && s.producers[p].Looping?
    case Spurious(p) => p in s.producers && s.producers[p].Looping?
    case Request(p) => p in s.producers && s.producers[p].Requesting?
    case Register(routine, _) => s.core.Task? && routine.handler != 0
    case Unregister(h) => s.core.Task? && ValidHandle(h)
    case Interrupt => s.core.Task? && s.latch
    case CoreStep => !s.core.Task?
    case CoreSpurious => s.core.Claiming? || s.core.UnregisterCas?
  }

  function CoreMove(s: State): State
    requires !s.core.Task?
  {
    if s.core.RegisterScan? || s.core.RegisterRoutine? || s.core.RegisterState? then RegisterStep(s)
    else if s.core.UnregisterCas? || s.core.UnregisterClear? then UnregisterStep(s)
    else DispatchStep(s)
  }

  function ProducerCas(s: State, p: nat): State
    requires p in s.producers && s.producers[p].Looping?
  {
    var c := s.producers[p];
    if s.slots[c.handle.slot] == c.seen then CasSucceeds(s, p, c.op, c.handle) else Loop(s, p, c.op, c.handle)
  }

  /** What an operation's loop does next: answer its caller, or look again. */
  datatype Outcome = Answers(ok: bool) | LooksAgain

  /** The outcome of a compare-exchange, successful or not, that has not failed spuriously. */
  function CasOutcome(s: State, p: nat): Outcome
    requires p in s.producers && s.producers[p].Looping?
  {
    var c := s.producers[p];
    var slot := s.slots[c.handle.slot];
    if slot == c.seen then Answers(true) else if Matches(slot, c.handle) then LooksAgain else Answers(false)
  }

  function Step(s: State, e: Event): State
    requires Enabled(s, e)
  {
    match e
    case Begin(p, op, h) => Loop(s, p, op, h)
    case Cas(p) => ProducerCas(s, p)
    case Spurious(p) => Loop(s, p, s.producers[p].op, s.producers[p].handle)
    case Request(p) => s.(latch := true, producers := s.producers - {p})
    case Register(routine, enable) => s.(core := RegisterScan(0, routine, enable))
    case Unregister(h) =>
      if Matches(s.slots[h.slot], h) then s.(core := UnregisterCas(h, s.slots[h.slot])) else s
    case Interrupt => s.(core := Scan(0, false), latch := false)
    case CoreStep => CoreMove(s)
    case CoreSpurious =>
      if s.core.Claiming? then Load(s, s.core.i, s.core.dispatched)
      else if Matches(s.slots[s.core.handle.slot], s.core.handle) then
        s.(core := UnregisterCas(s.core.handle, s.slots[s.core.handle.slot]))
      else s.(core := Task)
  }

  ghost predicate Runs(s: State, run: seq<Event>)
    decreases |run|
  {
    |run| == 0 || (Enabled(s, run[0]) && Runs(Step(s, run[0]), run[1..]))
  }

  ghost function After(s: State, run: seq<Event>): State
    requires Runs(s, run)
    decreases |run|
  {
    if |run| == 0 then s else After(Step(s, run[0]), run[1..])
  }
}
