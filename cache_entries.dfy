/** The PEP 659 cache entry: one 8-byte slot, and how slots and instructions
    share a single allocation. */
module CacheEntries {
  import opened MachineTypes

  /** One code unit (`_Py_CODEUNIT`): an opcode byte and an oparg byte. */
  type CodeUnit = uint16

  /** The tagged form of the union `SpecializedCacheEntry`: each variant is one
      of the layouts a slot may hold. */
  datatype CacheEntry =
    | Zero(cacheCount: int32, padding: int32)
    | Adaptive(originalOparg: uint8, counter: uint8, index: uint16)

  const SizeOfCodeUnit: nat := 2
  const SizeOfCacheEntry: nat := 8

  /** Code units per cache entry: the 4:1 ratio the addressing arithmetic relies
      on, `sizeof(SpecializedCacheEntry) / sizeof(_Py_CODEUNIT)` (see
      EntryIsEightBytes). */
  const InstructionsPerEntry: nat := 4

  /** Maximum size of code to quicken, in code units (used by the quickening pass). */
  const MaxSizeToQuicken: nat := 5000

  /** Bytes taken by the fields of the variant `e` holds; no variant may outgrow
      the 8-byte slot. */
  function VariantBytes(e: CacheEntry): (r: nat)
    ensures r <= SizeOfCacheEntry
    ensures e.Zero? ==> r == SizeOfCacheEntry
  {
    match e
    case Zero(_, _) => 4 + 4
    case Adaptive(_, _, _) => 1 + 1 + 2
  }

  /** The union is exactly as wide as its widest variant, so it is 8 bytes, and
      an entry covers exactly four code units. */
  lemma EntryIsEightBytes()
    ensures exists e :: VariantBytes(e) == SizeOfCacheEntry
    ensures InstructionsPerEntry == SizeOfCacheEntry / SizeOfCodeUnit
  {
    assert VariantBytes(Zero(0, 0)) == SizeOfCacheEntry;
  }

  /** One code unit of the allocation that holds the caches followed by the code:
      either part `part` (0..3) of a cache entry, or an instruction. */
  datatype Cell = EntryPart(entry: CacheEntry, part: nat) | Instruction(unit: CodeUnit)

  /** The four code units an entry occupies. */
  function EntryCells(e: CacheEntry): (r: seq<Cell>)
    ensures |r| == InstructionsPerEntry
  {
    seq(InstructionsPerEntry, j requires 0 <= j < InstructionsPerEntry => EntryPart(e, j))
  }
}
