/** The unpacked state of an interrupt slot.  The generation is a 32-bit word in the packed form
    and a number in the protocol, which only compares it and adds one below the maximum;
    `registered` is the allocated bit. */
module InterruptSlot {
  datatype Slot<G(==)> = Slot(generation: G, registered: bool, enabled: bool, pending: bool)
}

/** The packed state word of an interrupt slot: a 32-bit generation above three flag bits.

    The protocol is modelled on the unpacked fields; the lemmas here show that every operation on
    the word changes one field and no other, and that comparing words is comparing fields, so a
    compare-exchange on words is a compare-exchange on slots. */
module InterruptWord {
  import opened InterruptSlot

  const ALLOCATED: bv64 := 1
  const ENABLED: bv64 := 2
  const PENDING: bv64 := 4

  function Generation(w: bv64): bv32 {
    (w >> 32) as bv32
  }

  function StateWithGeneration(generation: bv32, flags: bv64): bv64 {
    ((generation as bv64) << 32) | flags
  }

  function Bit(on: bool, mask: bv64): bv64 {
    if on then mask else 0
  }

  function Flags(s: Slot<bv32>): bv64 {
    Bit(s.registered, ALLOCATED) | Bit(s.enabled, ENABLED) | Bit(s.pending, PENDING)
  }

  function Encode(s: Slot<bv32>): bv64 {
    StateWithGeneration(s.generation, Flags(s))
  }

  function Decode(w: bv64): Slot<bv32> {
    Slot(Generation(w), w & ALLOCATED != 0, w & ENABLED != 0, w & PENDING != 0)
  }

  /** The bits between the flags and the generation are never set. */
  predicate WellFormed(w: bv64) {
    w & 0xFFFF_FFF8 == 0
  }

  /** Packing loses nothing, and yields a well-formed word. */
  lemma DecodeEncode(s: Slot<bv32>)
    ensures Decode(Encode(s)) == s && WellFormed(Encode(s))
  {
    var f := Flags(s);
    assert f == 0 || f == 1 || f == 2 || f == 3 || f == 4 || f == 5 || f == 6 || f == 7;
    GenerationSurvives(s.generation, f);
  }

  lemma GenerationSurvives(g: bv32, flags: bv64)
    requires flags < 8
    ensures Generation(StateWithGeneration(g, flags)) == g
    ensures StateWithGeneration(g, flags) & 7 == flags && WellFormed(StateWithGeneration(g, flags))
  {
  }

  /** Comparing words is comparing slots, so a compare-exchange on words is one on slots. */
  lemma SameWordIffSameSlot(v: bv64, w: bv64)
    requires WellFormed(v) && WellFormed(w)
    ensures v == w <==> Decode(v) == Decode(w)
  {
    if Decode(v) == Decode(w) {
      assert v >> 32 == w >> 32;
      assert v & 1 == w & 1 && v & 2 == w & 2 && v & 4 == w & 4;
    }
  }

  /** A compare-exchange on a word: what the word holds afterwards. */
  function CompareExchange(w: bv64, expected: bv64, desired: bv64): bv64 {
    if w == expected then desired else w
  }

  /** A compare-exchange on words is one on slots. */
  lemma CompareExchangeOnSlots(w: bv64, expected: bv64, desired: bv64)
    requires WellFormed(w) && WellFormed(expected) && WellFormed(desired)
    ensures var r := CompareExchange(w, expected, desired);
      WellFormed(r) && Decode(r) == if Decode(w) == Decode(expected) then Decode(desired) else Decode(w)
  {
    SameWordIffSameSlot(w, expected);
  }

  lemma SetOneBit(w: bv64, mask: bv64, other: bv64)
    requires (mask == ENABLED && other == PENDING) || (mask == PENDING && other == ENABLED)
    ensures (w | mask) >> 32 == w >> 32
    ensures (w | mask) & 1 == w & 1
    ensures (w | mask) & mask == mask
    ensures (w | mask) & other == w & other
    ensures (w | mask) & 0xFFFF_FFF8 == w & 0xFFFF_FFF8
  {
  }

  lemma ClearOneBit(w: bv64, mask: bv64, other: bv64)
    requires (mask == ENABLED && other == PENDING) || (mask == PENDING && other == ENABLED)
    ensures (w & !mask) >> 32 == w >> 32
    ensures (w & !mask) & 1 == w & 1
    ensures (w & !mask) & mask == 0
    ensures (w & !mask) & other == w & other
    ensures (w & !mask) & 0xFFFF_FFF8 == w & 0xFFFF_FFF8
  {
  }

  /** `state | kEnabled` updates one field. */
  lemma EnableOnWord(w: bv64)
    requires WellFormed(w)
    ensures WellFormed(w | ENABLED) && Decode(w | ENABLED) == Decode(w).(enabled := true)
  {
    SetOneBit(w, ENABLED, PENDING);
  }

  /** `state & ~kEnabled` updates one field. */
  lemma DisableOnWord(w: bv64)
    requires WellFormed(w)
    ensures WellFormed(w & !ENABLED) && Decode(w & !ENABLED) == Decode(w).(enabled := false)
  {
    ClearOneBit(w, ENABLED, PENDING);
  }

  /** `state | kPending` updates one field. */
  lemma AssertOnWord(w: bv64)
    requires WellFormed(w)
    ensures WellFormed(w | PENDING) && Decode(w | PENDING) == Decode(w).(pending := true)
  {
    SetOneBit(w, PENDING, ENABLED);
  }

  /** `state & ~kPending` updates one field. */
  lemma ClaimOnWord(w: bv64)
    requires WellFormed(w)
    ensures WellFormed(w & !PENDING) && Decode(w & !PENDING) == Decode(w).(pending := false)
  {
    ClearOneBit(w, PENDING, ENABLED);
    ClearedPending(w, w & !PENDING);
  }

  lemma ClearedPending(w: bv64, v: bv64)
    requires v >> 32 == w >> 32 && v & ALLOCATED == w & ALLOCATED && v & PENDING == 0
    requires v & ENABLED == w & ENABLED && v & 0xFFFF_FFF8 == w & 0xFFFF_FFF8
    ensures Decode(v) == Decode(w).(pending := false) && (WellFormed(w) ==> WellFormed(v))
  {
  }

  /** The dispatcher's test of three bits at once. */
  lemma ReadyOnWord(w: bv64)
    ensures w & (ALLOCATED | ENABLED | PENDING) == ALLOCATED | ENABLED | PENDING
            <==> Decode(w).registered && Decode(w).enabled && Decode(w).pending
  {
    assert w & 7 == 7 <==> (w & 1 != 0 && w & 2 != 0 && w & 4 != 0);
  }
}
