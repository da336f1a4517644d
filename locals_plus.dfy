/** The kinds table of a code object's "locals plus" variables (locals, cell
    variables and free variables): one byte of flags per variable. */
module LocalsPlus {
  import opened MachineTypes

  /** `_PyLocalsPlusKind`, an unsigned char. */
  type LocalsPlusKind = bv8

  const CoFastLocal: LocalsPlusKind := 0x20
  const CoFastCell: LocalsPlusKind := 0x40
  const CoFastFree: LocalsPlusKind := 0x80

  predicate IsSingleBit(b: bv8) { b != 0 && b & (b - 1) == 0 }

  /** The three flags are distinct single bits, so every combination of them is a
      distinct value, and even all three together fit in one unsigned byte. */
  lemma KindFlagsAreDistinctBits()
    ensures IsSingleBit(CoFastLocal) && IsSingleBit(CoFastCell) && IsSingleBit(CoFastFree)
    ensures CoFastLocal & CoFastCell == 0 && CoFastLocal & CoFastFree == 0 && CoFastCell & CoFastFree == 0
    ensures (CoFastLocal as int) + (CoFastCell as int) + (CoFastFree as int) < 0x100
  {
  }

  /** A kind the header's rule admits: made of the three flags only, at least
      one of them, and FREE never together with LOCAL or CELL. */
  predicate IsValidKind(k: LocalsPlusKind)
  {
    k != 0
    && k & !(CoFastLocal | CoFastCell | CoFastFree) == 0
    && (k & CoFastFree != 0 ==> k & (CoFastLocal | CoFastCell) == 0)
  }

  /** The valid kinds are exactly LOCAL, CELL, LOCAL|CELL and FREE. */
  lemma ValidKindsAreExactly(k: LocalsPlusKind)
    ensures IsValidKind(k) <==>
              k == CoFastLocal || k == CoFastCell || k == CoFastLocal | CoFastCell || k == CoFastFree
  {
  }

  /** The memory allocator, seen only as the set of kinds tables currently allocated. */
  class Allocator {
    var live: set<array<LocalsPlusKind>>

    constructor ()
      ensures live == {}
    {
      live := {};
    }
  }

  /** The variable `*pkinds` that `_PyCode_InitLocalsPlusKinds` writes through;
      null is the empty table. */
  class KindsSlot {
    var kinds: array?<LocalsPlusKind>

    constructor (initial: array?<LocalsPlusKind>)
      ensures kinds == initial
    {
      kinds := initial;
    }
  }

  /** `PyMem_NEW(_PyLocalsPlusKind, num)`: may fail (null) for any size, and
      always fails for a negative count, which its size guard turns into a huge
      unsigned request. The table's contents are left unspecified. */
  method NewKinds(num: int32, mem: Allocator) returns (kinds: array?<LocalsPlusKind>)
    modifies mem
    ensures num < 0 ==> kinds == null
    ensures kinds == null ==> mem.live == old(mem.live)
    ensures kinds != null ==> fresh(kinds) && kinds.Length == num && mem.live == old(mem.live) + {kinds}
  {
    var succeeds: bool := *;
    if num < 0 || !succeeds {
      return null;
    }
    kinds := new LocalsPlusKind[num];
    mem.live := mem.live + {kinds};
  }

  /** Allocates a table of `num` kinds into `*pkinds`. No entries: the slot is set
      to null, nothing is allocated, and 0 is returned. Otherwise either 0 with a
      freshly allocated table of exactly `num` kinds in the slot, or -1 (out of
      memory) with the slot unwritten and nothing left allocated. */
  method InitLocalsPlusKinds(num: int32, pkinds: KindsSlot, mem: Allocator) returns (status: int32)
    modifies pkinds, mem
    ensures status == 0 || status == -1
    ensures num == 0 ==> status == 0 && pkinds.kinds == null && mem.live == old(mem.live)
    ensures num < 0 ==> status == -1
    ensures status == 0 && num != 0 ==>
              pkinds.kinds != null && fresh(pkinds.kinds) && pkinds.kinds.Length == num
              && mem.live == old(mem.live) + {pkinds.kinds}
    ensures status == -1 ==> pkinds.kinds == old(pkinds.kinds) && mem.live == old(mem.live)
  {
    if num == 0 {
      pkinds.kinds := null;
      return 0;
    }
    var kinds := NewKinds(num, mem);
    if kinds == null {
      return -1;
    }
    pkinds.kinds := kinds;
    return 0;
  }

  /** Releases a table; a null (empty) table is left alone. A non-null table must
      be one that is still allocated. */
  method ClearLocalsPlusKinds(kinds: array?<LocalsPlusKind>, mem: Allocator)
    requires kinds != null ==> kinds in mem.live
    modifies mem
    ensures kinds == null ==> mem.live == old(mem.live)
    ensures kinds != null ==> mem.live == old(mem.live) - {kinds}
  {
    if kinds != null {
      mem.live := mem.live - {kinds};
    }
  }
}
