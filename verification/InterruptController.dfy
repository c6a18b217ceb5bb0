/** The interrupt controller as the code keeps it: an array of packed words and an array of
    handlers, updated in place.  Handlers are data: for each of its next invocations a handler
    has a list of controller calls to make, and none after that. */
module InterruptController {
  import opened InterruptSlot
  import opened InterruptWord

  const CAPACITY: nat := 64
  const MAX_GENERATION: bv32 := 0xFFFF_FFFF

  datatype Handle = Handle(slot: nat, generation: bv32)

  datatype Command = Enable(handle: Handle) | Disable(handle: Handle) | SetPending(handle: Handle)

  datatype Handler = Null | Handler(script: seq<seq<Command>>)

  datatype RegistrationResult = Registered | InvalidArgument | WrongContext | NoCapacity | BackendUnavailable

  type Slots = seq<Slot<bv32>>

  predicate IsReady(s: Slot<bv32>) { s.registered && s.enabled && s.pending }

  /** The slot that this handle names right now, if any. */
  predicate Names(s: Slots, h: Handle) {
    h.generation != 0 && h.slot < |s| && s[h.slot].registered && s[h.slot].generation == h.generation
  }

  predicate CanAllocate(s: Slot<bv32>) {
    !s.registered && s.generation < MAX_GENERATION
  }

  // ---------- What an operation does to the slots ----------

  function Apply(s: Slots, c: Command): Slots {
    if !Names(s, c.handle) then s
    else
      var slot := s[c.handle.slot];
      s[c.handle.slot := match c
        case Enable(_) => slot.(enabled := true)
        case Disable(_) => slot.(enabled := false)
        case SetPending(_) => slot.(pending := true)]
  }

  /** Whether the operation asks the port for a dispatch, given the slot after it. */
  predicate Requests(c: Command, slot: Slot<bv32>) {
    !c.Disable? && slot.enabled && slot.pending
  }

  function ApplyAll(s: Slots, cs: seq<Command>): Slots
    decreases |cs|
  {
    if |cs| == 0 then s else ApplyAll(Apply(s, cs[0]), cs[1..])
  }

  /** The controller calls of a handler's next invocation, and the handler after it. */
  function NextCommands(h: Handler): seq<Command> {
    if h.Null? || |h.script| == 0 then [] else h.script[0]
  }

  function AfterCall(h: Handler): Handler {
    if h.Null? || |h.script| == 0 then h else Handler(h.script[1..])
  }

  // ---------- What the dispatcher does ----------

  /** The controller's state: the slots, the handlers and the calls made so far. */
  datatype Machine = Machine(slots: Slots, handlers: seq<Handler>, calls: seq<Handle>)

  predicate Sized(m: Machine) { |m.slots| == |m.handlers| }

  /** Claims slot `i` if it is ready and runs its handler, which may assert it again. */
  function Invoke(m: Machine, i: nat): (r: Machine)
    requires Sized(m) && i < |m.slots|
    ensures Sized(r) && |r.slots| == |m.slots|
  {
    var slot, handler := m.slots[i], m.handlers[i];
    if !IsReady(slot) then m
    else
      ApplyAllSize(m.slots[i := slot.(pending := false)], NextCommands(handler));
      Machine(ApplyAll(m.slots[i := slot.(pending := false)], NextCommands(handler)),
              m.handlers[i := AfterCall(handler)],
              m.calls + if handler.Null? then [] else [Handle(i, slot.generation)])
  }

  /** One pass from slot `i` on. */
  function Scan(m: Machine, i: nat): (r: Machine)
    requires Sized(m)
    ensures Sized(r) && |r.slots| == |m.slots|
    decreases |m.slots| - i
  {
    if i >= |m.slots| then m else Scan(Invoke(m, i), i + 1)
  }

  function Passes(m: Machine, n: nat): (r: Machine)
    requires Sized(m)
    ensures Sized(r) && |r.slots| == |m.slots|
    decreases n
  {
    if n == 0 then m else Passes(Scan(m, 0), n - 1)
  }

  lemma {:induction false} ApplyAllSize(s: Slots, cs: seq<Command>)
    ensures |ApplyAll(s, cs)| == |s|
    decreases |cs|
  {
    if |cs| > 0 { ApplyAllSize(Apply(s, cs[0]), cs[1..]); }
  }

  // ---------- The measure of the dispatcher ----------

  function PendingCount(s: Slots): nat {
    if |s| == 0 then 0 else (if s[0].pending then 1 else 0) + PendingCount(s[1..])
  }

  function ScriptSize(script: seq<seq<Command>>): nat {
    if |script| == 0 then 0 else |script[0]| + ScriptSize(script[1..])
  }

  function Budget(h: seq<Handler>): nat {
    if |h| == 0 then 0 else (if h[0].Null? then 0 else ScriptSize(h[0].script)) + Budget(h[1..])
  }

  function One(b: bool): nat { if b then 1 else 0 }

  lemma {:induction false} PendingCountUpdate(s: Slots, i: nat, slot: Slot<bv32>)
    requires i < |s|
    ensures PendingCount(s[i := slot]) + One(s[i].pending) == PendingCount(s) + One(slot.pending)
  {
    if i == 0 {
      assert s[0 := slot][1..] == s[1..];
    } else {
      assert s[i := slot][1..] == s[1..][i - 1 := slot];
      PendingCountUpdate(s[1..], i - 1, slot);
    }
  }

  function Weight(h: Handler): nat { if h.Null? then 0 else ScriptSize(h.script) }

  lemma {:induction false} BudgetUpdate(h: seq<Handler>, i: nat, x: Handler)
    requires i < |h|
    ensures Budget(h[i := x]) + Weight(h[i]) == Budget(h) + Weight(x)
  {
    if i == 0 {
      assert h[0 := x][1..] == h[1..];
    } else {
      assert h[i := x][1..] == h[1..][i - 1 := x];
      BudgetUpdate(h[1..], i - 1, x);
    }
  }

  /** One controller call makes at most one more slot pending, and changes no identity. */
  lemma ApplyAddsAtMostOne(s: Slots, c: Command)
    ensures |Apply(s, c)| == |s| && PendingCount(Apply(s, c)) <= PendingCount(s) + 1
    ensures SameIdentities(s, Apply(s, c))
  {
    if Names(s, c.handle) {
      PendingCountUpdate(s, c.handle.slot, Apply(s, c)[c.handle.slot]);
    }
  }

  ghost predicate SameIdentities(s: Slots, r: Slots) {
    && |s| == |r|
    && forall i :: 0 <= i < |s| ==> r[i].generation == s[i].generation && r[i].registered == s[i].registered
  }

  lemma {:induction false} ApplyAllAddsAtMost(s: Slots, cs: seq<Command>)
    ensures SameIdentities(s, ApplyAll(s, cs)) && PendingCount(ApplyAll(s, cs)) <= PendingCount(s) + |cs|
    decreases |cs|
  {
    if |cs| > 0 {
      ApplyAddsAtMostOne(s, cs[0]);
      ApplyAllAddsAtMost(Apply(s, cs[0]), cs[1..]);
    }
  }

  /** Every call added since names a slot that is registered under that generation. */
  ghost predicate CallsAreLive(before: seq<Handle>, calls: seq<Handle>, s: Slots) {
    && before <= calls
    && forall k :: |before| <= k < |calls| ==>
         && calls[k].slot < |s| && s[calls[k].slot].registered
         && s[calls[k].slot].generation == calls[k].generation
  }

  lemma LiveOn(first: seq<Handle>, second: seq<Handle>, third: seq<Handle>, s: Slots, t: Slots)
    requires CallsAreLive(first, second, s) && SameIdentities(s, t) && CallsAreLive(second, third, t)
    ensures CallsAreLive(first, third, s)
  {
  }

  function MeasureOf(m: Machine): nat {
    PendingCount(m.slots) + Budget(m.handlers)
  }

  /** The pass from slot `i` on claims something. */
  predicate Claims(m: Machine, i: nat)
    requires Sized(m)
    decreases |m.slots| - i
  {
    i < |m.slots| && (IsReady(m.slots[i]) || Claims(Invoke(m, i), i + 1))
  }

  /** What a part of a dispatch keeps: the identities, live calls, and a budget for calls. */
  ghost predicate Keeps(m: Machine, r: Machine) {
    && SameIdentities(m.slots, r.slots) && CallsAreLive(m.calls, r.calls, m.slots)
    && |r.calls| + MeasureOf(r) <= |m.calls| + MeasureOf(m)
  }

  lemma KeepsOn(a: Machine, b: Machine, c: Machine)
    requires Keeps(a, b) && Keeps(b, c)
    ensures Keeps(a, c)
  {
    LiveOn(a.calls, b.calls, c.calls, a.slots, b.slots);
  }

  /** A claim keeps all that and lowers the measure. */
  lemma InvokeKeeps(m: Machine, i: nat)
    requires Sized(m) && i < |m.slots|
    ensures Keeps(m, Invoke(m, i))
    ensures IsReady(m.slots[i]) ==> MeasureOf(Invoke(m, i)) < MeasureOf(m)
  {
    if IsReady(m.slots[i]) {
      var slot, h := m.slots[i].(pending := false), m.handlers[i];
      PendingCountUpdate(m.slots, i, slot);
      BudgetUpdate(m.handlers, i, AfterCall(h));
      ApplyAllAddsAtMost(m.slots[i := slot], NextCommands(h));
    }
  }

  lemma {:induction false} ScanKeeps(m: Machine, i: nat)
    requires Sized(m)
    ensures Keeps(m, Scan(m, i))
    ensures if Claims(m, i) then MeasureOf(Scan(m, i)) < MeasureOf(m) else Scan(m, i) == m
    ensures !Claims(m, i) ==> forall j :: i <= j < |m.slots| ==> !IsReady(m.slots[j])
    decreases |m.slots| - i
  {
    if i < |m.slots| {
      InvokeKeeps(m, i);
      ScanKeeps(Invoke(m, i), i + 1);
      KeepsOn(m, Invoke(m, i), Scan(m, i));
    }
  }

  // ---------- Every ready slot is served ----------

  lemma {:induction false} PassesNext(m: Machine, n: nat)
    requires Sized(m)
    ensures Passes(m, n + 1) == Scan(Passes(m, n), 0)
    decreases n
  {
    if n > 0 { PassesNext(Scan(m, 0), n - 1); }
  }

  /** Pending at `m` with a handler, then pending still or called since. */
  ghost predicate Served(m: Machine, r: Machine, i: nat) {
    && i < |m.slots| == |r.slots| && Sized(m) && Sized(r) && m.calls <= r.calls
    && m.slots[i].generation == r.slots[i].generation && m.slots[i].registered == r.slots[i].registered
    && (m.handlers[i].Handler? <==> r.handlers[i].Handler?)
    && (m.slots[i].registered && m.slots[i].pending && m.handlers[i].Handler? ==>
          r.slots[i].pending || Handle(i, m.slots[i].generation) in r.calls[|m.calls|..])
  }

  lemma ServedOn(a: Machine, b: Machine, c: Machine, i: nat)
    requires Served(a, b, i) && Served(b, c, i)
    ensures Served(a, c, i)
  {
    var h := Handle(i, a.slots[i].generation);
    if h in b.calls[|a.calls|..] {
      var k :| |a.calls| <= k < |b.calls| && b.calls[k] == h;
      assert c.calls[k] == h && c.calls[|a.calls|..][k - |a.calls|] == h;
    } else if h in c.calls[|b.calls|..] {
      var k :| |b.calls| <= k < |c.calls| && c.calls[k] == h;
      assert c.calls[|a.calls|..][k - |a.calls|] == h;
    }
  }

  /** Operations never clear a pending flag. */
  lemma {:induction false} ApplyAllKeepsPending(s: Slots, cs: seq<Command>, i: nat)
    requires i < |s|
    ensures |ApplyAll(s, cs)| == |s|
    ensures var r := ApplyAll(s, cs)[i];
      && r.generation == s[i].generation && r.registered == s[i].registered && (s[i].pending ==> r.pending)
    decreases |cs|
  {
    if |cs| > 0 { ApplyAllKeepsPending(Apply(s, cs[0]), cs[1..], i); }
  }

  lemma InvokeServes(m: Machine, j: nat, i: nat)
    requires Sized(m) && j < |m.slots| && i < |m.slots|
    ensures Served(m, Invoke(m, j), i)
  {
    if IsReady(m.slots[j]) {
      var s := m.slots[j := m.slots[j].(pending := false)];
      ApplyAllKeepsPending(s, NextCommands(m.handlers[j]), i);
      var r := Invoke(m, j);
      if i == j && m.handlers[j].Handler? { assert r.calls[|m.calls|..] == [Handle(j, m.slots[j].generation)]; }
    }
  }

  lemma {:induction false} ScanServes(m: Machine, j: nat, i: nat)
    requires Sized(m) && i < |m.slots|
    ensures Served(m, Scan(m, j), i)
    decreases |m.slots| - j
  {
    if j < |m.slots| {
      InvokeServes(m, j, i);
      ScanServes(Invoke(m, j), j + 1, i);
      ServedOn(m, Invoke(m, j), Scan(m, j), i);
    }
  }

  lemma {:induction false} PassesServe(m: Machine, n: nat, i: nat)
    requires Sized(m) && i < |m.slots|
    ensures Served(m, Passes(m, n), i)
    decreases n
  {
    if n > 0 {
      ScanServes(m, 0, i);
      PassesServe(Scan(m, 0), n - 1, i);
      ServedOn(m, Scan(m, 0), Passes(m, n), i);
    }
  }

  /** A slot that was ready with a handler, is served by any number of passes, and ends not ready:
      its handler has been called, or it is pending and disabled. */
  lemma ServedWhenQuiet(m: Machine, n: nat, i: nat)
    requires Sized(m) && i < |m.slots| && IsReady(m.slots[i]) && m.handlers[i].Handler?
    requires !IsReady(Passes(m, n).slots[i])
    ensures var r := Passes(m, n);
      && m.calls <= r.calls
      && (|| Handle(i, m.slots[i].generation) in r.calls[|m.calls|..]
          || (r.slots[i].pending && !r.slots[i].enabled))
  {
    PassesServe(m, n, i);
  }

  lemma {:induction false} ScanNothing(m: Machine, i: nat)
    requires Sized(m) && forall j :: i <= j < |m.slots| ==> !IsReady(m.slots[j])
    ensures Scan(m, i) == m
    decreases |m.slots| - i
  {
    if i < |m.slots| { ScanNothing(m, i + 1); }
  }

  lemma {:induction false} PassesNothing(m: Machine, n: nat)
    requires Sized(m) && forall j :: 0 <= j < |m.slots| ==> !IsReady(m.slots[j])
    ensures Passes(m, n) == m
    decreases n
  {
    if n > 0 {
      ScanNothing(m, 0);
      PassesNothing(m, n - 1);
    }
  }

  /** The exception is real: a handler that disables another pending slot keeps that slot's handler
      from being called, however long the dispatcher goes on. */
  lemma DisabledIsNotCalled(m: Machine, n: nat)
    requires Sized(m) && |m.slots| > 1 && n > 0 && IsReady(m.slots[0]) && IsReady(m.slots[1])
    requires forall j :: 1 < j < |m.slots| ==> !IsReady(m.slots[j])
    requires m.slots[1].generation != 0 && m.handlers[0] == Handler([[Disable(Handle(1, m.slots[1].generation))]])
    ensures var r := Passes(m, n);
      r.calls == m.calls + [Handle(0, m.slots[0].generation)] && r.slots[1] == m.slots[1].(enabled := false)
  {
    var c := Disable(Handle(1, m.slots[1].generation));
    var s := m.slots[0 := m.slots[0].(pending := false)];
    assert ApplyAll(s, [c]) == Apply(s, c) by { assert [c][1..] == []; }
    var r := Invoke(m, 0);
    ScanNothing(r, 1);
    PassesNothing(r, n - 1);
  }

  /** The state when a pass reaches slot `i`. */
  function UpTo(m: Machine, i: nat): (r: Machine)
    requires Sized(m) && i <= |m.slots|
    ensures Sized(r) && |r.slots| == |m.slots|
  {
    if i == 0 then m else Invoke(UpTo(m, i - 1), i - 1)
  }

  lemma {:induction false} ScanFrom(m: Machine, i: nat)
    requires Sized(m) && i <= |m.slots|
    ensures Scan(m, 0) == Scan(UpTo(m, i), i)
  {
    if i > 0 { ScanFrom(m, i - 1); }
  }

  /** The calls made between `m` and `r` are of slots from `low` to below `high`. */
  ghost predicate CallsWithin(m: Machine, r: Machine, low: nat, high: nat) {
    m.calls <= r.calls && forall k :: |m.calls| <= k < |r.calls| ==> low <= r.calls[k].slot < high
  }

  lemma {:induction false} CallsBelow(m: Machine, i: nat, j: nat)
    requires Sized(m) && i <= |m.slots| && j < |m.slots|
    ensures CallsWithin(m, UpTo(m, i), 0, i) && Served(m, UpTo(m, i), j)
    decreases i
  {
    if i > 0 {
      CallsBelow(m, i - 1, j);
      InvokeServes(UpTo(m, i - 1), i - 1, j);
      ServedOn(m, UpTo(m, i - 1), UpTo(m, i), j);
    }
  }

  lemma {:induction false} CallsAbove(m: Machine, i: nat)
    requires Sized(m)
    ensures CallsWithin(m, Scan(m, i), i, |m.slots|)
    decreases |m.slots| - i
  {
    if i < |m.slots| { CallsAbove(Invoke(m, i), i + 1); }
  }

  /** In one pass, the handler of a slot that was ready at its start is called if and only if the
      handlers of the slots before it have left it enabled. */
  lemma CalledInPassIff(m: Machine, i: nat)
    requires Sized(m) && i < |m.slots| && IsReady(m.slots[i]) && m.handlers[i].Handler?
    ensures m.calls <= Scan(m, 0).calls
    ensures Handle(i, m.slots[i].generation) in Scan(m, 0).calls[|m.calls|..] <==> UpTo(m, i).slots[i].enabled
  {
    var u, v, r := UpTo(m, i), Invoke(UpTo(m, i), i), Scan(m, 0);
    var h := Handle(i, m.slots[i].generation);
    ScanFrom(m, i);
    CallsBelow(m, i, i);
    CallsAbove(v, i + 1);
    NotCalledBefore(m, u, i, h);
    assert IsReady(u.slots[i]) <==> u.slots[i].enabled;
    if u.slots[i].enabled {
      assert v.calls[|u.calls|] == h && r.calls[|u.calls|] == h;
      assert r.calls[|m.calls|..][|u.calls| - |m.calls|] == h;
    } else {
      forall k | |m.calls| <= k < |r.calls| ensures r.calls[k] != h {
        assert k < |u.calls| ==> r.calls[k] == u.calls[k];
      }
    }
  }

  /** The pass has not called slot `i` before it reaches it, so it is pending still. */
  lemma NotCalledBefore(m: Machine, u: Machine, i: nat, h: Handle)
    requires CallsWithin(m, u, 0, i) && Served(m, u, i) && h == Handle(i, m.slots[i].generation)
    requires IsReady(m.slots[i]) && m.handlers[i].Handler?
    ensures u.slots[i].pending && u.slots[i].registered && u.slots[i].generation == h.generation
    ensures u.handlers[i].Handler?
  {
    forall k | |m.calls| <= k < |u.calls| ensures u.calls[k] != h { }
  }

  /** The handlers make no controller calls. */
  ghost predicate Silent(h: seq<Handler>) {
    forall i :: 0 <= i < |h| ==> SilentHandler(h[i])
  }

  predicate SilentHandler(h: Handler) {
    h.Null? || forall k :: 0 <= k < |h.script| ==> h.script[k] == []
  }

  /** The handles of the slots that are ready and have a handler, in slot order. */
  function ReadyHandles(m: Machine, i: nat): seq<Handle>
    requires Sized(m)
    decreases |m.slots| - i
  {
    if i >= |m.slots| then []
    else (if IsReady(m.slots[i]) && m.handlers[i].Handler? then [Handle(i, m.slots[i].generation)] else [])
         + ReadyHandles(m, i + 1)
  }

  lemma SilentInvoke(m: Machine, i: nat)
    requires Sized(m) && i < |m.slots| && Silent(m.handlers)
    ensures var r := Invoke(m, i);
      && Silent(r.handlers) && !IsReady(r.slots[i])
      && (forall j :: 0 <= j < |m.slots| && j != i ==>
            r.slots[j] == m.slots[j] && (r.handlers[j].Handler? <==> m.handlers[j].Handler?))
      && r.calls == m.calls +
           if IsReady(m.slots[i]) && m.handlers[i].Handler? then [Handle(i, m.slots[i].generation)] else []
  {
    assert SilentHandler(m.handlers[i]) && SilentHandler(AfterCall(m.handlers[i]));
  }

  lemma {:induction false} SameReady(m: Machine, r: Machine, i: nat)
    requires Sized(m) && Sized(r) && |m.slots| == |r.slots|
    requires forall j :: i <= j < |m.slots| ==>
      r.slots[j] == m.slots[j] && (r.handlers[j].Handler? <==> m.handlers[j].Handler?)
    ensures ReadyHandles(m, i) == ReadyHandles(r, i)
    decreases |m.slots| - i
  {
    if i < |m.slots| { SameReady(m, r, i + 1); }
  }

  /** With silent handlers, a pass calls exactly the ready slots' handlers, in slot order, and
      leaves nothing ready. */
  lemma {:induction false} SilentScan(m: Machine, i: nat)
    requires Sized(m) && Silent(m.handlers)
    ensures var r := Scan(m, i);
      && r.calls == m.calls + ReadyHandles(m, i) && Silent(r.handlers)
      && (forall j :: i <= j < |m.slots| ==> !IsReady(r.slots[j]))
      && (forall j :: 0 <= j < i && j < |m.slots| ==> r.slots[j] == m.slots[j])
    decreases |m.slots| - i
  {
    if i < |m.slots| {
      var n := Invoke(m, i);
      SilentInvoke(m, i);
      SilentScan(n, i + 1);
      SameReady(m, n, i + 1);
    }
  }

  /** With silent handlers, the dispatcher's calls are exactly the ready slots', in slot order. */
  lemma SilentDispatch(m: Machine, n: nat)
    requires Sized(m) && Silent(m.handlers) && n > 0
    ensures Passes(m, n).calls == m.calls + ReadyHandles(m, 0)
  {
    SilentScan(m, 0);
    PassesNothing(Scan(m, 0), n - 1);
  }

  // ---------- The controller ----------

  ghost function Unpacked(w: seq<bv64>): (s: Slots)
    ensures |s| == |w| && forall i :: 0 <= i < |w| ==> s[i] == Decode(w[i])
  {
    seq(|w|, i requires 0 <= i < |w| => Decode(w[i]))
  }

  lemma UnpackedUpdate(w: seq<bv64>, i: nat, x: bv64)
    requires i < |w|
    ensures Unpacked(w[i := x]) == Unpacked(w)[i := Decode(x)]
  {
  }

  /** The word after an operation's compare-exchange. */
  method NewWord(w: bv64, c: Command) returns (r: bv64)
    requires WellFormed(w)
    ensures WellFormed(r)
    ensures Decode(r) == match c
      case Enable(_) => Decode(w).(enabled := true)
      case Disable(_) => Decode(w).(enabled := false)
      case SetPending(_) => Decode(w).(pending := true)
  {
    match c
    case Enable(_) => EnableOnWord(w); r := w | ENABLED;
    case Disable(_) => DisableOnWord(w); r := w & !ENABLED;
    case SetPending(_) => AssertOnWord(w); r := w | PENDING;
  }

  class InterruptController {
    const words: array<bv64>
    const handlers: array<Handler>
    var latch: bool
    var calls: seq<Handle>

    ghost predicate Valid()
      reads this, words, handlers
    {
      && (words as object) != handlers
      && words.Length == handlers.Length == CAPACITY
      && forall i :: 0 <= i < CAPACITY ==> WellFormed(words[i])
    }

    ghost function Slots(): Slots
      reads words
    {
      Unpacked(words[..])
    }

    constructor ()
      ensures Valid() && fresh(words) && fresh(handlers) && !latch && calls == []
      ensures forall i :: 0 <= i < CAPACITY ==> Slots()[i] == Slot(0, false, false, false)
    {
      words := new bv64[CAPACITY](_ => 0);
      handlers := new Handler[CAPACITY](_ => Null);
      latch, calls := false, [];
    }

    /** `enableInterrupt`, `disableInterrupt` and `setInterruptPending`. */
    method Operate(c: Command) returns (ok: bool)
      requires Valid()
      modifies words, this`latch
      ensures Valid() && Slots() == Apply(old(Slots()), c)
      ensures ok <==> Names(old(Slots()), c.handle)
      ensures latch == (old(latch) || (ok && Requests(c, Slots()[c.handle.slot])))
    {
      var h := c.handle;
      ok := false;
      if h.generation == 0 || h.slot >= CAPACITY {
        return;
      }
      var state := words[h.slot];
      if state & ALLOCATED != 0 && Generation(state) == h.generation {
        var next := NewWord(state, c);
        ghost var before := words[..];
        words[h.slot] := next;
        assert words[..] == before[h.slot := next];
        UnpackedUpdate(before, h.slot, next);
        if !c.Disable? && next & PENDING != 0 && next & ENABLED != 0 {
          latch := true;
        }
        ok := true;
      }
    }

    /** `registerInterrupt`; the context and the port's answer are parameters.  `was` is what the
        caller's handle holds, which is written only on success. */
    method RegisterInterrupt(handler: Handler, enable: bool, outHandle: bool, was: Handle,
                             inTask: bool, installed: bool)
      returns (result: RegistrationResult, handle: Handle)
      requires Valid()
      modifies words, handlers
      ensures Valid()
      ensures result.InvalidArgument? <==> handler.Null? || !outHandle
      ensures result.WrongContext? <==> !handler.Null? && outHandle && !inTask
      ensures result.BackendUnavailable? <==> !handler.Null? && outHandle && inTask && !installed
      ensures result.NoCapacity? ==> forall i :: 0 <= i < CAPACITY ==> !CanAllocate(old(Slots())[i])
      ensures !result.Registered? ==> Slots() == old(Slots()) && handlers[..] == old(handlers[..]) && handle == was
      ensures result.Registered? ==>
        && handle.slot < CAPACITY && CanAllocate(old(Slots())[handle.slot])
        && (forall i :: 0 <= i < handle.slot ==> !CanAllocate(old(Slots())[i]))
        && handle.generation == old(Slots())[handle.slot].generation + 1
        && Slots() == old(Slots())[handle.slot := Slot(handle.generation, true, enable, false)]
        && handlers[..] == old(handlers[..])[handle.slot := handler]
        && Names(Slots(), handle)
    {
      if handler.Null? || !outHandle { return InvalidArgument, was; }
      if !inTask { return WrongContext, was; }
      if !installed { return BackendUnavailable, was; }
      var i := FirstUnused();
      if i == CAPACITY { return NoCapacity, was; }
      handle := Handle(i, Generation(words[i]) + 1);
      Publish(handle, enable, handler);
      result := Registered;
    }

    /** The registration's scan: the first slot that can give a handle never used before. */
    method FirstUnused() returns (i: nat)
      requires Valid()
      ensures i <= CAPACITY && (i < CAPACITY ==> CanAllocate(Slots()[i]))
      ensures forall j :: 0 <= j < i ==> !CanAllocate(Slots()[j])
    {
      i := 0;
      while i < CAPACITY
        invariant i <= CAPACITY && forall j :: 0 <= j < i ==> !CanAllocate(Slots()[j])
      {
        var state := words[i];
        if state & ALLOCATED == 0 && Generation(state) < MAX_GENERATION { return; }
        i := i + 1;
      }
    }

    method Publish(h: Handle, enable: bool, handler: Handler)
      requires Valid() && h.slot < CAPACITY
      modifies words, handlers
      ensures Valid()
      ensures Slots() == old(Slots())[h.slot := Slot(h.generation, true, enable, false)]
      ensures handlers[..] == old(handlers[..])[h.slot := handler]
    {
      ghost var before := words[..];
      ghost var beforeHandlers := handlers[..];
      handlers[h.slot] := handler;
      assert handlers[..] == beforeHandlers[h.slot := handler];
      var slot := Slot(h.generation, true, enable, false);
      DecodeEncode(slot);
      words[h.slot] := Encode(slot);
      assert words[..] == before[h.slot := Encode(slot)];
      UnpackedUpdate(before, h.slot, Encode(slot));
    }

    method UnregisterInterrupt(h: Handle, inTask: bool) returns (ok: bool)
      requires Valid()
      modifies words, handlers
      ensures Valid()
      ensures ok <==> inTask && Names(old(Slots()), h)
      ensures !ok ==> Slots() == old(Slots()) && handlers[..] == old(handlers[..])
      ensures ok ==> Slots() == old(Slots())[h.slot := Slot(h.generation, false, false, false)]
      ensures ok ==> handlers[..] == old(handlers[..])[h.slot := Null]
      ensures ok ==> !Names(Slots(), h)
    {
      ok := false;
      if !inTask || h.generation == 0 || h.slot >= CAPACITY {
        return;
      }
      var state := words[h.slot];
      if state & ALLOCATED != 0 && Generation(state) == h.generation {
        ghost var before := words[..];
        var slot := Slot(h.generation, false, false, false);
        DecodeEncode(slot);
        words[h.slot] := Encode(slot);
        assert words[..] == before[h.slot := Encode(slot)];
        UnpackedUpdate(before, h.slot, Encode(slot));
        ghost var beforeHandlers := handlers[..];
        handlers[h.slot] := Null;
        assert handlers[..] == beforeHandlers[h.slot := Null];
        ok := true;
      }
    }

    /** What bounds the dispatcher: pending slots plus the calls handlers can still make. */
    ghost function Measure(): nat
      reads this, words, handlers
      requires Valid()
    {
      MeasureOf(Now())
    }

    method Perform(commands: seq<Command>)
      requires Valid()
      modifies words, this`latch
      ensures Valid() && Slots() == ApplyAll(old(Slots()), commands)
    {
      var k := 0;
      while k < |commands|
        invariant k <= |commands| && Valid()
        invariant ApplyAll(Slots(), commands[k..]) == ApplyAll(old(Slots()), commands)
      {
        assert commands[k..][1..] == commands[k + 1..];
        var _ := Operate(commands[k]);
        k := k + 1;
      }
    }

    ghost function Now(): (m: Machine)
      reads this, words, handlers
      requires Valid()
      ensures Sized(m) && |m.slots| == CAPACITY
    {
      Machine(Slots(), handlers[..], calls)
    }

    /** Clears the pending bit of slot `i` and runs its handler, which may assert it again. */
    method ClaimAndInvoke(i: nat)
      requires Valid() && i < CAPACITY && IsReady(Slots()[i])
      modifies words, handlers, this
      ensures Valid() && SameIdentities(old(Slots()), Slots()) && Measure() < old(Measure())
      ensures Slots() == ApplyAll(old(Slots())[i := old(Slots())[i].(pending := false)], NextCommands(old(handlers[i])))
      ensures handlers[..] == old(handlers[..])[i := AfterCall(old(handlers[i]))]
      ensures calls == old(calls) + if old(handlers[i]).Null? then [] else [Handle(i, old(Slots())[i].generation)]
      ensures Now() == Invoke(old(Now()), i)
    {
      InvokeKeeps(Now(), i);
      TakePending(i);
      ghost var before := handlers[..];
      var handler := handlers[i];
      if handler.Handler? {
        calls := calls + [Handle(i, Generation(words[i]))];
        handlers[i] := AfterCall(handler);
        assert handlers[..] == before[i := AfterCall(handler)];
        Perform(NextCommands(handler));
      } else {
        assert handlers[..] == before[i := handler];
      }
    }

    method TakePending(i: nat)
      requires Valid() && i < CAPACITY && IsReady(Slots()[i])
      modifies words
      ensures Valid() && Slots() == old(Slots())[i := old(Slots())[i].(pending := false)]
    {
      var state := words[i];
      ClaimOnWord(state);
      ghost var before := words[..];
      words[i] := state & !PENDING;
      assert words[..] == before[i := state & !PENDING];
      UnpackedUpdate(before, i, state & !PENDING);
    }

    /** The dispatcher: it rescans until a whole pass finds nothing.  It terminates with no slot
        ready, after at most as many invocations as the measure at its start, and leaves every
        registration what it was.  Every slot that was ready at the start has had its handler
        called, unless another handler disabled it while it was pending. */
    method DispatchPendingInterrupts()
      requires Valid()
      modifies words, handlers, this
      ensures Valid() && SameIdentities(old(Slots()), Slots())
      ensures forall i :: 0 <= i < CAPACITY ==> !IsReady(Slots()[i])
      ensures |calls| + Measure() <= |old(calls)| + old(Measure())
      ensures CallsAreLive(old(calls), calls, old(Slots()))
      ensures exists n: nat :: Now() == Passes(old(Now()), n)
      ensures Silent(old(handlers[..])) ==> calls == old(calls) + ReadyHandles(old(Now()), 0)
      ensures forall i :: 0 <= i < CAPACITY && IsReady(old(Slots())[i]) && old(handlers[i]).Handler? ==>
        || Handle(i, old(Slots())[i].generation) in calls[|old(calls)|..]
        || (Slots()[i].pending && !Slots()[i].enabled)
    {
      ghost var n: nat := 0;
      var dispatched := true;
      while dispatched
        invariant Valid() && SameIdentities(old(Slots()), Slots())
        invariant Now() == Passes(old(Now()), n) && (n == 0 ==> dispatched)
        invariant |calls| + Measure() <= |old(calls)| + old(Measure())
        invariant CallsAreLive(old(calls), calls, old(Slots()))
        invariant !dispatched ==> forall i :: 0 <= i < CAPACITY ==> !IsReady(Slots()[i])
        decreases Measure(), dispatched
      {
        PassesNext(old(Now()), n);
        dispatched := ScanOnce();
        n := n + 1;
      }
      if Silent(old(handlers[..])) { SilentDispatch(old(Now()), n); }
      forall i | 0 <= i < CAPACITY && IsReady(old(Slots())[i]) && old(handlers[i]).Handler?
        ensures Handle(i, old(Slots())[i].generation) in calls[|old(calls)|..] || Slots()[i].pending
      {
        PassesServe(old(Now()), n, i);
      }
    }

    /** One pass over the slots. */
    method ScanOnce() returns (dispatched: bool)
      requires Valid()
      modifies words, handlers, this
      ensures Valid() && SameIdentities(old(Slots()), Slots())
      ensures |calls| + Measure() <= |old(calls)| + old(Measure())
      ensures CallsAreLive(old(calls), calls, old(Slots()))
      ensures dispatched ==> Measure() < old(Measure())
      ensures !dispatched ==> Measure() == old(Measure())
      ensures !dispatched ==> forall i :: 0 <= i < CAPACITY ==> !IsReady(Slots()[i])
      ensures Now() == Scan(old(Now()), 0) && (dispatched <==> Claims(old(Now()), 0))
    {
      dispatched := false;
      var i := 0;
      while i < CAPACITY
        invariant i <= CAPACITY && Valid()
        invariant Scan(Now(), i) == Scan(old(Now()), 0)
        invariant dispatched || Claims(Now(), i) <==> Claims(old(Now()), 0)
      {
        var claimed := VisitSlot(i);
        dispatched := dispatched || claimed;
        i := i + 1;
      }
      ScanKeeps(old(Now()), 0);
    }

    /** The body of the pass's loop. */
    method VisitSlot(i: nat) returns (claimed: bool)
      requires Valid() && i < CAPACITY
      modifies words, handlers, this
      ensures Valid()
      ensures claimed <==> IsReady(old(Slots())[i])
      ensures Now() == Invoke(old(Now()), i)
    {
      var state := words[i];
      ReadyOnWord(state);
      claimed := state & (ALLOCATED | ENABLED | PENDING) == ALLOCATED | ENABLED | PENDING;
      if claimed { ClaimAndInvoke(i); }
    }
  }
}
