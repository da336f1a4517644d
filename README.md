# PEP 659 quickening support of a code object, in Dafny

This project models the quickening helpers of CPython's internal code-object
header `Include/internal/pycore_code.h`:

- the 8-byte specialization cache entry (`SpecializedCacheEntry`) as a tagged
  datatype, and the 4:1 entry-to-code-unit ratio (`INSTRUCTIONS_PER_ENTRY`);
- the backward addressing of cache entries from the first instruction
  (`_GetSpecializedCacheEntry`), the oparg/offset pair
  (`oparg_from_offset_and_nexti`, `offset_from_oparg_and_nexti`) and
  `_GetSpecializedCacheEntryForInstruction`. Pointers become code-unit indices
  into one allocation. That allocation is modelled as two buffers: the entries,
  numbered as the header numbers them, and the instructions. A function lays
  them out in memory order: entry `count-1` first, entry 0 last, then the code;
- the warmup counter (`co_warmup`, `PyCodeObject_IncrementWarmup`,
  `PyCodeObject_IsWarmedUp` and the `QUICKENING_*` constants) as a class;
- the locals-plus kind flags (`CO_FAST_LOCAL/CELL/FREE`) and the allocation
  and release of the kinds table (`_PyCode_InitLocalsPlusKinds`,
  `_PyCode_ClearLocalsPlusKinds`), against an allocator that records which
  tables are live.

C `int` is modelled as a 32-bit subset type. Signed overflow is undefined in C,
so each operation requires that its arithmetic stays in range. Right-shifting a
negative `int` is implementation-defined in C; the model assumes an arithmetic
shift (rounding toward minus infinity). Where `nexti` is used it is an
instruction index plus one, so it is at least 1 and the assumption never
matters there.

Files: `machine_types.dfy` (module `MachineTypes`), `cache_entries.dfy`
(`CacheEntries`), `cache_addressing.dfy` (`CacheAddressing`), `warmup.dfy`
(`Warmup`), `locals_plus.dfy` (`LocalsPlus`).

## Model

| member | source | states |
|---|---|---|
| MachineTypes.ShiftRight1 | Include/internal/pycore_code.h:105-115 | `nexti >> 1` is the floor of half of `nexti`, for negative values too, and stays within half the int range |
| CacheEntries.VariantBytes | Include/internal/pycore_code.h:34-58 | no layout of the union is wider than the 8-byte slot; the zero entry (two int32) fills it exactly |
| CacheEntries.EntryIsEightBytes | Include/internal/pycore_code.h:45-60 | the union is 8 bytes wide (its widest variant) and `INSTRUCTIONS_PER_ENTRY` = 8 / 2 = 4 code units |
| CacheAddressing.GetSpecializedCacheEntry | Include/internal/pycore_code.h:70-80 | the slot of entry n lies a whole number of entries from the first instruction, and lies below the first instruction exactly when n >= 0 |
| CacheAddressing.SlotZeroAbutsCode | Include/internal/pycore_code.h:70-73 | entry 0 ends exactly where the first instruction starts |
| CacheAddressing.SlotInCacheRegion | Include/internal/pycore_code.h:70-80 | with `count` entries in front of the code, every entry 0 <= n < count lies wholly inside the cache region |
| CacheAddressing.SlotsDisjointAndDecreasing | Include/internal/pycore_code.h:70-80 | distinct entries occupy disjoint four-unit ranges; a higher entry number lies strictly lower in memory |
| CacheAddressing.OpargFromOffsetAndNexti | Include/internal/pycore_code.h:105-109 | the computed oparg fits in one byte exactly when the offset lies in the window `[nexti>>1, (nexti>>1)+255]` |
| CacheAddressing.OffsetFromOpargAndNexti | Include/internal/pycore_code.h:111-115 | a one-byte oparg decodes to an offset inside that window |
| CacheAddressing.OffsetOpargRoundTrip | Include/internal/pycore_code.h:82-115 | decoding the oparg computed for an offset gives the offset back |
| CacheAddressing.OpargOffsetRoundTrip | Include/internal/pycore_code.h:82-115 | computing the oparg for the offset an oparg decodes to gives the oparg back |
| CacheAddressing.OpargForCache | Include/internal/pycore_code.h:97-109 | a one-byte oparg reaching the entry exists exactly when the entry lies in the window `[nexti>>1, (nexti>>1)+255]`, and it decodes back to that entry |
| CacheAddressing.OutsideWindowUnreachable | Include/internal/pycore_code.h:97-100 | no one-byte oparg reaches an entry outside the window |
| CacheAddressing.GetSpecializedCacheEntryForInstruction | Include/internal/pycore_code.h:117-128 | the address falls on an entry boundary and, with a one-byte oparg, is one of the 256 consecutive entries starting at entry `nexti>>1` below the code |
| CacheAddressing.QuickenedInstructionFindsItsEntry | Include/internal/pycore_code.h:82-128 | an instruction given the oparg for entry `offset` at quickening addresses exactly `_GetSpecializedCacheEntry(first, offset)` at run time |
| CacheAddressing.CacheRegion | Include/internal/pycore_code.h:70-73 | the backward cache region occupies exactly four code units per entry |
| CacheAddressing.Memory | Include/internal/pycore_code.h:65-73 | the allocation is the cache region followed by the code |
| CacheAddressing.CacheRegionAt | Include/internal/pycore_code.h:70-80 | code unit j of the address computed for entry n holds part j of entry n, for every allocated n |
| CacheAddressing.SlotCellsHoldEntry | Include/internal/pycore_code.h:70-80 | all four code units at entry n's address belong to entry n |
| CacheAddressing.FirstInstrHoldsCode | Include/internal/pycore_code.h:74-78 | the allocation from the first instruction on holds the instructions, unchanged |
| CacheAddressing.ReadEntry | Include/internal/pycore_code.h:74-80 | dereferencing the address of entry n yields entry n |
| CacheAddressing.QuickenedInstructionReadsItsEntry | Include/internal/pycore_code.h:117-128 | an instruction quickened to use allocated entry `offset` reads back exactly that entry: all four code units at the address it computes from `nexti` and its oparg are parts of that entry |
| Warmup.WarmupAfterAdds | Include/internal/pycore_code.h:136-140 | k increments add exactly k to the counter |
| Warmup.WarmedUpExactlyAtDelay | Include/internal/pycore_code.h:130-147 | from -8 the counter is zero after exactly 8 increments, and negative after 0 to 7 |
| Warmup.CodeObject.constructor | Include/internal/pycore_code.h:130-133 | a new code object's counter starts at `QUICKENING_INITIAL_WARMUP_VALUE` with no invocations counted |
| Warmup.CodeObject.IncrementWarmup | Include/internal/pycore_code.h:136-140 | the counter grows by exactly 1, one more invocation is counted, the counter stays `-8 + invocations`, nothing else changes |
| Warmup.CodeObject.IsWarmedUp | Include/internal/pycore_code.h:142-147 | true exactly when eight invocations have been counted since construction |
| LocalsPlus.KindFlagsAreDistinctBits | Include/internal/pycore_code.h:170-177 | LOCAL, CELL and FREE are distinct single bits and all three together fit in one unsigned byte |
| LocalsPlus.ValidKindsAreExactly | Include/internal/pycore_code.h:160-177 | the admitted kinds are exactly LOCAL, CELL, LOCAL\|CELL and FREE |
| LocalsPlus.NewKinds | Include/internal/pycore_code.h:188-192 | allocation either fails (always for a negative count) leaving the allocator unchanged, or yields a fresh table of exactly `num` kinds, now live |
| LocalsPlus.InitLocalsPlusKinds | Include/internal/pycore_code.h:181-195 | for 0 the slot becomes null and nothing is allocated; otherwise status 0 with a fresh live table of exactly `num` kinds in the slot, or -1 with the slot unwritten and nothing allocated |
| LocalsPlus.ClearLocalsPlusKinds | Include/internal/pycore_code.h:197-203 | a null table is left alone; a live table is released and nothing else is |

## Left out

- The legacy opcache structs (`_PyOpcache_LoadGlobal`, `_PyOpCodeOpt_LoadAttr`, `_PyOpcache`): pure data, superseded, no behaviour.
- The byte-level reinterpretation of the union `SpecializedCacheOrInstruction` and raw pointers: an entry is a tagged datatype, and a cache entry's four code units are abstract parts of that entry, not bytes.
- `_PyCodeConstructor`, `_PyCode_Validate` and `_PyCode_New`: the header defines the record but only declares the two functions, so the record (pure data with no behaviour here) is not modelled either. Their bodies (codeobject.c) are not part of this model. The constructor of `Warmup.CodeObject` stands in for the single effect this header fixes, the initial warmup value.
- `_Py_Quicken`, `_PyCode_InitOpcache`, the `_PyCode_Get*` getters and `_Py_QuickenedCount`: declarations only. `MaxSizeToQuicken` is kept as a constant; the pass that uses it is not modelled. How the quickening pass chooses offsets, and what it stores in the zero entry, belong to that pass.
- `QUICKENING_WARMUP_COLDEST` is kept as a constant only: no operation in the header uses it. What happens to the counter after quickening is decided elsewhere.
- `PyErr_NoMemory`: the exception it sets is represented only by the -1 status.
- LocalsPlus.NewKinds: `PyMem_NEW` may fail for any reason, so failure is a nondeterministic outcome. Its size guard (in pymem.h, which is not part of this model) is modelled only through its effect: a negative count always fails. The contents of a new table are uninitialised in C, so the model says nothing about them.
- Concurrent execution of the warmup test, the increment or quickening: the model is sequential.
