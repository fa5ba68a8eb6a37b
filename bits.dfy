/** Field arithmetic on 32-bit memory-mapped registers: single bits, the 2-bit
    per-pin fields of MODER/PUPDR and the 4-bit nibbles of AFRL/AFRH.

    Each update function states in its contract what it does to the field it
    targets; a companion lemma states that every bit outside that field keeps
    its value. */
module Bits {

  /** A bit position of a 32-bit register. */
  type BitPos = b: bv32 | b < 32

  /** An 8-bit value held in a 32-bit word. */
  type Byte = b: bv32 | b < 256

  /** Index of a 2-bit field (16 fields per register). */
  type Field2Index = k: bv32 | k < 16

  /** Index of a 4-bit field (8 nibbles per register). */
  type Field4Index = k: bv32 | k < 8

  function Bit(i: BitPos): bv32 { 1 << i }

  predicate IsSet(r: bv32, i: BitPos) { r & Bit(i) != 0 }

  /** Value (0 or 1) of bit i of r. */
  function BitValue(r: bv32, i: BitPos): bv32 { (r >> i) & 1 }

  function Mask2(k: Field2Index): bv32 { 3 << (2 * k) }

  function Field2(r: bv32, k: Field2Index): bv32 { (r >> (2 * k)) & 3 }

  function Mask4(k: Field4Index): bv32 { 0xF << (4 * k) }

  function Field4(r: bv32, k: Field4Index): bv32 { (r >> (4 * k)) & 0xF }

  /** `r` and `r'` agree on every bit outside `mask`. */
  predicate SameOutside(r: bv32, r': bv32, mask: bv32) { r & !mask == r' & !mask }

  /** r with bit i set (the C idiom `r |= 1U << i`). */
  function SetBit(r: bv32, i: BitPos): (r': bv32)
    ensures IsSet(r', i)
  {
    r | Bit(i)
  }

  /** r with bit i cleared (the C idiom `r &= ~(1U << i)`). */
  function ClearBit(r: bv32, i: BitPos): (r': bv32)
    ensures !IsSet(r', i)
  {
    r & !Bit(i)
  }

  /** r with bit i inverted (the C idiom `r ^= 1U << i`). */
  function FlipBit(r: bv32, i: BitPos): (r': bv32)
    ensures IsSet(r', i) <==> !IsSet(r, i)
  {
    r ^ Bit(i)
  }

  /** r with 2-bit field k replaced by v: clear the field, then OR v in. */
  function Place2(r: bv32, k: Field2Index, v: bv32): (r': bv32)
    requires v < 4
    ensures Field2(r', k) == v
  {
    (r & !Mask2(k)) | (v << (2 * k))
  }

  /** r with v ORed into nibble k; nothing is cleared. */
  function OrNibble(r: bv32, k: Field4Index, v: bv32): (r': bv32)
    requires v < 16
    ensures Field4(r', k) == Field4(r, k) | v
  {
    OrNibbleField(r, k, v);
    r | (v << (k * 4))
  }

  /** The field fact behind OrNibble, one nibble position at a time. */
  lemma OrNibbleField(r: bv32, k: Field4Index, v: bv32)
    requires v < 16
    ensures Field4(r | (v << (k * 4)), k) == Field4(r, k) | v
  {
    if k == 0 {
    } else if k == 1 {
    } else if k == 2 {
    } else if k == 3 {
    } else if k == 4 {
    } else if k == 5 {
    } else if k == 6 {
    } else {
    }
  }

  /** A 32-bit register that the drivers only store to and read from, as an
      unsigned number. */
  type Word = x: int | 0 <= x < 0x1_0000_0000

  /** The value C stores when an `int` (or a wider unsigned result) goes to a
      32-bit unsigned register or variable: the value modulo 2^32. */
  function Wrap32(x: int): (w: Word)
    ensures 0 <= x < 0x1_0000_0000 ==> w == x
    ensures (w - x) % 0x1_0000_0000 == 0
  {
    x % 0x1_0000_0000
  }

  /** A non-negative C value below 256 converted to a 32-bit register value:
      the number keeps its value. Built by counting, so that no proof has to go
      through a general integer-to-bit-vector conversion. */
  function SmallBv(n: nat): (b: bv32)
    requires n < 256
    ensures b as int == n
  {
    if n == 0 then 0 else SmallBv(n - 1) + 1
  }

  /** Clearing a bit undoes any earlier setting of it. */
  lemma ClearAfterSet(r: bv32, i: BitPos)
    ensures ClearBit(SetBit(r, i), i) == ClearBit(r, i)
  {
  }

  lemma BitValueRange(r: bv32, i: BitPos)
    ensures BitValue(r, i) <= 1
  {
  }

  lemma BitValueIsSet(r: bv32, i: BitPos)
    ensures BitValue(r, i) == 1 <==> IsSet(r, i)
  {
  }

  /** Placing 0 only clears the field: the C code that skips its OR for a
      zero value computes the same register. */
  lemma Place2Zero(r: bv32, k: Field2Index)
    ensures Place2(r, k, 0) == r & !Mask2(k)
  {
  }

  lemma SetBitFrame(r: bv32, i: BitPos)
    ensures SameOutside(r, SetBit(r, i), Bit(i))
  {
  }

  lemma ClearBitFrame(r: bv32, i: BitPos)
    ensures SameOutside(r, ClearBit(r, i), Bit(i))
  {
  }

  lemma FlipBitFrame(r: bv32, i: BitPos)
    ensures SameOutside(r, FlipBit(r, i), Bit(i))
  {
  }

  lemma FlipBitInvolution(r: bv32, i: BitPos)
    ensures FlipBit(FlipBit(r, i), i) == r
  {
  }

  lemma Place2Frame(r: bv32, k: Field2Index, v: bv32)
    requires v < 4
    ensures SameOutside(r, Place2(r, k, v), Mask2(k))
  {
  }

  lemma OrNibbleFrame(r: bv32, k: Field4Index, v: bv32)
    requires v < 16
    ensures SameOutside(r, OrNibble(r, k, v), Mask4(k))
  {
  }

  /** ORing never clears a bit. */
  lemma OrNibbleMonotone(r: bv32, k: Field4Index, v: bv32)
    requires v < 16
    ensures OrNibble(r, k, v) & r == r
  {
  }

  /** Agreement outside field p means agreement on every other field q. */
  lemma OtherField2(r: bv32, r': bv32, p: Field2Index, q: Field2Index)
    requires q != p
    requires SameOutside(r, r', Mask2(p))
    ensures Field2(r', q) == Field2(r, q)
  {
  }

  lemma OtherFields2(r: bv32, r': bv32, p: Field2Index)
    requires SameOutside(r, r', Mask2(p))
    ensures forall q: Field2Index :: q != p ==> Field2(r', q) == Field2(r, q)
  {
    forall q: Field2Index | q != p ensures Field2(r', q) == Field2(r, q) {
      OtherField2(r, r', p, q);
    }
  }

  /** Agreement outside bit i means agreement on every other bit j. */
  lemma OtherBit(r: bv32, r': bv32, i: BitPos, j: BitPos)
    requires j != i
    requires SameOutside(r, r', Bit(i))
    ensures BitValue(r', j) == BitValue(r, j)
  {
  }

  lemma OtherBits(r: bv32, r': bv32, i: BitPos)
    requires SameOutside(r, r', Bit(i))
    ensures forall j: BitPos :: j != i ==> BitValue(r', j) == BitValue(r, j)
  {
    forall j: BitPos | j != i ensures BitValue(r', j) == BitValue(r, j) {
      OtherBit(r, r', i, j);
    }
  }

  /** The two facts about Place2 pin it down: any register whose field k is v
      and which agrees with r elsewhere is Place2(r, k, v). */
  lemma Place2Unique(r: bv32, k: Field2Index, v: bv32, r': bv32)
    requires v < 4
    requires Field2(r', k) == v && SameOutside(r, r', Mask2(k))
    ensures r' == Place2(r, k, v)
  {
  }
}
