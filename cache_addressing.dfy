/** Backward addressing of cache entries from the first instruction, and the
    oparg/offset pair that links an instruction to its entries. Pointers are
    modelled as code-unit indices into the allocation that holds the cache
    region followed by the instructions. */
module CacheAddressing {
  import opened MachineTypes
  import opened CacheEntries

  datatype Option<T> = None | Some(value: T)

  /** Index of the first code unit of cache entry `n`, given the index `first` of
      the first instruction: entries are counted backwards, one entry (four code
      units) per step. */
  function GetSpecializedCacheEntry(first: int, n: int): (r: int)
    ensures (first - r) % InstructionsPerEntry == 0
    ensures r < first <==> n >= 0
  {
    first - InstructionsPerEntry * (1 + n)
  }

  /** Entry 0 sits immediately in front of the first instruction. */
  lemma SlotZeroAbutsCode(first: int)
    ensures GetSpecializedCacheEntry(first, 0) + InstructionsPerEntry == first
  {
  }

  /** With `count` entries placed in front of the code (so the first instruction
      is at `InstructionsPerEntry * count`), every entry `0 <= n < count` lies
      wholly inside the cache region. */
  lemma SlotInCacheRegion(count: nat, n: int)
    requires 0 <= n < count
    ensures 0 <= GetSpecializedCacheEntry(InstructionsPerEntry * count, n)
    ensures GetSpecializedCacheEntry(InstructionsPerEntry * count, n) + InstructionsPerEntry
            <= InstructionsPerEntry * count
  {
  }

  /** Distinct entries occupy disjoint four-unit ranges, and the higher the
      entry number, the lower its position. */
  lemma SlotsDisjointAndDecreasing(first: int, n1: int, n2: int)
    requires n1 < n2
    ensures GetSpecializedCacheEntry(first, n2) + InstructionsPerEntry
            <= GetSpecializedCacheEntry(first, n1)
  {
  }

  /** The oparg quickening gives an instruction at `nexti` so that it reaches
      entry `offset`. C `int` arithmetic must not overflow. */
  function OpargFromOffsetAndNexti(offset: int32, nexti: int32): (r: int32)
    requires InInt32(offset - ShiftRight1(nexti))
    ensures 0 <= r < 0x100 <==> ShiftRight1(nexti) <= offset < ShiftRight1(nexti) + 0x100
  {
    offset - ShiftRight1(nexti)
  }

  /** The entry an instruction at `nexti` with operand `oparg` uses at run time.
      A one-byte oparg reaches only the 256 entries starting at `nexti >> 1`. */
  function OffsetFromOpargAndNexti(oparg: int32, nexti: int32): (r: int32)
    requires InInt32(ShiftRight1(nexti) + oparg)
    ensures 0 <= oparg < 0x100 ==> ShiftRight1(nexti) <= r < ShiftRight1(nexti) + 0x100
  {
    ShiftRight1(nexti) + oparg
  }

  /** Decoding the oparg that was computed for an offset gives that offset back. */
  lemma OffsetOpargRoundTrip(offset: int32, nexti: int32)
    requires InInt32(offset - ShiftRight1(nexti))
    ensures OffsetFromOpargAndNexti(OpargFromOffsetAndNexti(offset, nexti), nexti) == offset
  {
  }

  /** Computing the oparg for the offset an oparg decodes to gives that oparg back. */
  lemma OpargOffsetRoundTrip(oparg: int32, nexti: int32)
    requires InInt32(ShiftRight1(nexti) + oparg)
    ensures OpargFromOffsetAndNexti(OffsetFromOpargAndNexti(oparg, nexti), nexti) == oparg
  {
  }

  /** The one-byte oparg that makes an instruction at `nexti` reach entry
      `offset`, or None when no byte value reaches it (the entry lies outside
      the window `[nexti >> 1, (nexti >> 1) + 255]`). Which entry the quickening
      pass then picks is that pass's choice. */
  function OpargForCache(offset: int32, nexti: int32): (r: Option<uint8>)
    ensures r.Some? <==> ShiftRight1(nexti) <= offset < ShiftRight1(nexti) + 0x100
    ensures r.Some? ==> OffsetFromOpargAndNexti(r.value, nexti) == offset
  {
    if ShiftRight1(nexti) <= offset < ShiftRight1(nexti) + 0x100
    then Some(OpargFromOffsetAndNexti(offset, nexti))
    else None
  }

  /** An entry outside the window `[nexti >> 1, (nexti >> 1) + 255]` is reached by
      no one-byte oparg. */
  lemma OutsideWindowUnreachable(offset: int32, nexti: int32, oparg: uint8)
    requires !(ShiftRight1(nexti) <= offset < ShiftRight1(nexti) + 0x100)
    ensures OffsetFromOpargAndNexti(oparg, nexti) != offset
  {
  }

  /** Index of the first code unit of the entry an instruction at `nexti` with
      operand `oparg` uses: entry `(nexti >> 1) + oparg`. For a one-byte oparg
      this is one of 256 consecutive entries below the code. */
  function GetSpecializedCacheEntryForInstruction(first: int, nexti: int32, oparg: int32): (r: int)
    requires InInt32(ShiftRight1(nexti) + oparg)
    ensures (first - r) % InstructionsPerEntry == 0
    ensures 0 <= oparg < 0x100 ==>
              first - InstructionsPerEntry * (ShiftRight1(nexti) + 0x100) <= r
              < first - InstructionsPerEntry * ShiftRight1(nexti)
  {
    GetSpecializedCacheEntry(first, OffsetFromOpargAndNexti(oparg, nexti))
  }

  /** An instruction quickened to use entry `offset` finds exactly that entry at
      run time. */
  lemma QuickenedInstructionFindsItsEntry(first: int, offset: int32, nexti: int32)
    requires OpargForCache(offset, nexti).Some?
    ensures GetSpecializedCacheEntryForInstruction(first, nexti, OpargForCache(offset, nexti).value)
            == GetSpecializedCacheEntry(first, offset)
  {
  }

  /** A quickened code object's single allocation, as two buffers: `entries[n]`
      is cache entry n and `code` holds the instructions. */
  datatype QuickenedCode = QuickenedCode(entries: seq<CacheEntry>, code: seq<CodeUnit>)
  {
    /** Index of the first instruction in the allocation. */
    function FirstInstr(): nat { InstructionsPerEntry * |entries| }
  }

  /** The cache region in memory order: entry `|entries|-1` first, entry 0 last. */
  function CacheRegion(entries: seq<CacheEntry>): (r: seq<Cell>)
    ensures |r| == InstructionsPerEntry * |entries|
  {
    if entries == [] then [] else CacheRegion(entries[1..]) + EntryCells(entries[0])
  }

  /** The whole allocation: the cache region, then the instructions. */
  function Memory(q: QuickenedCode): (r: seq<Cell>)
    ensures |r| == q.FirstInstr() + |q.code|
  {
    CacheRegion(q.entries) + seq(|q.code|, i requires 0 <= i < |q.code| => Instruction(q.code[i]))
  }

  /** The code unit `j` of entry `n` is found where the backward addressing says. */
  lemma {:induction false} CacheRegionAt(entries: seq<CacheEntry>, n: nat, j: nat)
    requires n < |entries| && j < InstructionsPerEntry
    ensures 0 <= GetSpecializedCacheEntry(InstructionsPerEntry * |entries|, n) + j < |CacheRegion(entries)|
    ensures CacheRegion(entries)[GetSpecializedCacheEntry(InstructionsPerEntry * |entries|, n) + j]
            == EntryPart(entries[n], j)
  {
    if n > 0 {
      CacheRegionAt(entries[1..], n - 1, j);
    }
  }

  /** The allocation at the first instruction and after holds the code. */
  lemma FirstInstrHoldsCode(q: QuickenedCode, i: nat)
    requires i < |q.code|
    ensures Memory(q)[q.FirstInstr() + i] == Instruction(q.code[i])
  {
  }

  /** The entry `_GetSpecializedCacheEntry(first_instr, n)` designates, read from
      the allocation: it is entry n of the cache, for every allocated n. */
  function ReadEntry(q: QuickenedCode, n: int): (r: CacheEntry)
    requires 0 <= n < |q.entries|
    ensures r == q.entries[n]
  {
    var at := GetSpecializedCacheEntry(q.FirstInstr(), n);
    SlotCellsHoldEntry(q, n);
    assert Memory(q)[at + 0] == EntryPart(q.entries[n], 0);
    Memory(q)[at].entry
  }

  /** All four code units at the address of allocated entry n belong to entry n. */
  lemma SlotCellsHoldEntry(q: QuickenedCode, n: nat)
    requires n < |q.entries|
    ensures forall j :: 0 <= j < InstructionsPerEntry ==>
              Memory(q)[GetSpecializedCacheEntry(q.FirstInstr(), n) + j] == EntryPart(q.entries[n], j)
  {
    forall j | 0 <= j < InstructionsPerEntry
      ensures Memory(q)[GetSpecializedCacheEntry(q.FirstInstr(), n) + j] == EntryPart(q.entries[n], j)
    {
      CacheRegionAt(q.entries, n, j);
    }
  }

  /** A specialized instruction at `nexti`, quickened to use allocated entry
      `offset`, reads back exactly that entry. */
  lemma QuickenedInstructionReadsItsEntry(q: QuickenedCode, offset: int32, nexti: int32)
    requires 0 <= offset < |q.entries|
    requires OpargForCache(offset, nexti).Some?
    ensures ReadEntry(q, OffsetFromOpargAndNexti(OpargForCache(offset, nexti).value, nexti))
            == q.entries[offset]
    ensures forall j :: 0 <= j < InstructionsPerEntry ==>
              Memory(q)[GetSpecializedCacheEntryForInstruction(q.FirstInstr(), nexti, OpargForCache(offset, nexti).value) + j]
              == EntryPart(q.entries[offset], j)
  {
    QuickenedInstructionFindsItsEntry(q.FirstInstr(), offset, nexti);
    SlotCellsHoldEntry(q, offset);
  }
}
