# x87sidecar: a verified model of the deferred x87 stack

x87sidecar translates runs of x87 instructions to ARM64. Inside a run the
architectural x87 state is spread out: TOP lives in a register, tag updates are
owed, FXCH is a compile-time permutation, and a tracker remembers which slots
hold binary64 values. At the end of every reply memory has to be the plain x87
stack of the Intel SDM Vol. 1 (sections 8.1.2, 8.1.3.1 and 8.1.7) again, because
that is where stock code and signal handlers look. This project models that
machinery and proves it from the guest instructions of a block down to the bits
in memory, together with the code generation and bookkeeping around it.

Check everything with `dafny verify dfyconfig.toml` (Dafny 4.11).

## Structure

The deferred stack and its driver:

- `X87Stack` is the plain machine every translation is judged against;
  `Agreement` says when the guest cannot tell two of its states apart: registers
  tagged empty and scratch registers do not count.
- `DeferredState` has the emitted code as a sequence of steps, the cache flags,
  and `View`, the architectural state the two stand for. Its `...View` lemmas say
  for one state, and its `...Right` lemmas for all machines at once, that an
  operation keeps them in step with the plain stack.
- `Guards` says of each piece of emitted code exactly from which flags it is right
  on every machine, whatever the slots hold.
- `Flags` has what the emitters do to the flags as functions, and `Misses`, the
  operations that fail the condition of `Guards`.
- `DeferredStack` is the translator's side, a class whose methods change flags
  and append code. Cutting code off is truncation, so the speculative flush of
  the IR gate and its rollback are here too. While its ghost flag `sound` holds,
  code and flags stand for the eager state on every machine; each method says
  from which flags it keeps it, and `Guards` that from the others the code is
  wrong on some machine. Later code may make up for that by chance; nothing is
  claimed of it.
- `Blocks` is a block of guest instructions and what it is for operations to
  stand for a stretch of it; `Fusions` shows that peephole fusions do.
- `RunDriver` is the driver: lookahead, dispatch to singles, fusions and IR
  prefixes, the driver loop of one reply (`TranslateReply`), and the replies of a
  whole block with stock's code between them (`TranslateBlock`). A request opens
  the longest run there is (`RunIsLongest`), and what is emitted for a block is
  one story, told part by part (`StoryUnique`).
- `Departures` holds the states in which the code and the plain stack part.
- `Requests` is a request as a transaction on stock's buffers and masks: the words
  it emits, the allocation at which it fails, and its undoing. `Opcodes` shows that
  no instruction of a run can come back declined.
- `SlotFormat` is the slot tracker, `SlotNotes` what every operation makes of it:
  its TOP moves as the plain stack's, and the format of every slot is told.
  `SlotPlan` is the planner of slot conversions and `SlotMeaning` its simulation
  in terms of the plain stack; `PreciseWindow` cuts runs for precise faults.

Generated code, down to instructions:

- `ArmCode` interprets the A64 instructions the stack emitters use and says what
  memory stands for; `StackCode`, `SlotCode`, `PermFlush` and `SingleOp` prove
  the emitted sequences against the steps of `DeferredState`; `ImageFlush` is the
  permutation flush of whole ten-byte images; `ReplyCode` lowers
  every step, and `BlockCode` concludes from a guest block to the status word, the
  tag word and the slots.
- `Bits` and `BitmaskImmediate` check `is_bitmask_immediate` against
  DecodeBitMasks of the Arm Architecture Reference Manual for A-profile
  (DDI 0487, chapter J1); `WideMoves` builds constants on top of it.
- `FaultProbe` is the branch-free write probe, on a small 64-bit interpreter.

Bookkeeping: `IrHash`, `BlockIds`, `OpcodeTable`, `TraceRing`, `TracePairs`.

Slot contents are opaque numbers; arithmetic on them is an arbitrary function.

## Where the code departs from what it should do

Each is kept as the code has it. There is a concrete state or run of the emitter,
and an equivalence that says exactly when the code is right.

- A pop right after a push drops both tag updates. That is the plain stack if
  and only if the pushed register was tagged empty (`DeferredState.CancelPopView`,
  `Departures.CancelledOverflow`).
- `deferred_pop_count` is an int8_t. The 128th deferred pop wraps it, and the tags
  are lost unless memory has them all empty (`DeferPopView`, `Guards.DeferredPop`,
  `CountWraps`).
- `translate_ffree` resolves its depth through the pending permutation, but an
  fxch exchanges values and not tags (`FreeView`, `Guards.FreeThroughPermutation`,
  `FreeThroughExchange`).
- `translate_fxam` flushes TOP and a pending push and not the deferred pops
  (`ExamineView`, `Guards.ExaminePastPops`, `ExamineBehindPops`).
- `translate_fstsw` does not call `x87_end`. When it ends a run behind a deferred
  fxch, the permutation stays pending past the reply. Memory is right then, for all
  register contents, only if the permutation is the identity
  (`Guards.LeftoverPermutation`, `RunDriver.PendingDelivers`, `ExchangeLeftBehind`).
- The next reply finds it pending. Pushes and pops outside a run, an fxch outside
  a run and the fused lone emitters do not flush it. A push or pop is right, for
  all register contents, if and only if perm[(d + 1) % 8] == (perm[d] + 1) % 8 for
  every d; an fxch if and only if the permutation keeps the two registers among
  themselves; a lone fld if and only if it is the identity
  (`Guards.PushPastPermutation`, `PopPastPermutation`, `SwapPastPermutation`,
  `LoneLoadPastPermutation`, `LeftoverThenPush`).
- A fusion that takes in an fxch counts it off before its emitter runs, and the
  dispatcher counts it off again. When it is followed by one more instruction of
  the run, the run is over before its debts are paid, which is harmless if and only
  if there are none (`Guards.ClearedFlags`, `RunDriver.EmitAbsorbing`,
  `MiscountedFusion`). When it is the last, the run ends without being cleared, and
  the next one takes TOP from a register nobody loaded (`StaleRegister`).
- `try_fuse_fstp_fld` keeps the tag of ST(0), where a pop and a push make it valid
  (`Fusions.FstpFld`). The results about blocks ask for that tag at each such
  fusion (`RunDriver.KeptBy`).
- `flush_run_and_release` works on stock's whole register word, with the pinned
  registers free in it. It is harmless if and only if it needs no register
  (`Requests.FlushIsHarmless`, `FlushTakesOthers`). No request comes to it, since
  the lookahead counts exactly the opcodes that have an emitter
  (`Opcodes.CountedIsEmitted`).
- `plan_slots` names positions after a flush while conversions are applied before
  it (`SlotPlan.ServesIff`, `PlanSound`, `FlushedExchange`).
- The host opcode tables truncate ids to 16 bits (`OpcodeTable.RoundTripsIff`).

Against the comment at Translator.cpp:1245-1248 the permutation flag is kept
independent of the other flags: a push flushes the permutation before it makes
TOP dirty, and a later fxch may set it again. The store probe needs no assumption
about stores that wrap around the end of the address space.

Of the places that concern the stack, the first is an overflow, which proper
instructions (`Agreement.Proper`) do not have; an fstsw leaves a permutation, and
the results about blocks say what that does to memory; the tag of the fused fstp
and fld they ask for. The dispatches that meet one of the others are
`RunDriver.Spoils`, a test on the flags they find. The results about whole blocks
hold for every block of proper instructions, every plan and every cut into replies
of which no dispatch is one of `Spoils`.

## Model

| member | source | states |
|---|---|---|
| X87Stack.EagerAllConcat | rosetta_core/src/TranslatorX87Internal.hpp:220-298 | the plain stack: operations compose, so a prefix handled as one region and the rest afterwards give the eager state of the whole |
| X87Stack.NoOverflowConcat | rosetta_core/src/TranslatorX87Internal.hpp:220-245 | operations overflow nowhere exactly if the first part does not and the second does not after it |
| Agreement.EagerAgrees | rosetta_core/src/TranslatorX87Internal.hpp:220-298 | an operation that reads only registers in use and scratch registers already written cannot tell apart states that differ elsewhere |
| Agreement.ProperSimilar | rosetta_core/src/TranslatorX87Internal.hpp:220-298 | a proper instruction (no overflow, no empty register read, no scratch register read before it is written) takes states the guest cannot tell apart to such states |
| Agreement.ProperSame | rosetta_core/src/TranslatorX87Internal.hpp:220-298 | whether an instruction is proper depends on TOP and the tags alone |
| DeferredState.FlushPermView | rosetta_core/src/TranslatorX87Internal.hpp:112-129 | writing the pending permutation to the slots leaves the architectural state as it was |
| DeferredState.FlushPopsView | rosetta_core/src/TranslatorX87Internal.hpp:192-206 | emitting the deferred pop tags leaves the architectural state as it was |
| DeferredState.FlushTagView | rosetta_core/src/TranslatorX87Internal.hpp:208-218 | emitting the pending push tag leaves the architectural state as it was |
| DeferredState.FlushTopView | rosetta_core/src/TranslatorX87Internal.hpp:181-190 | storing a dirty TOP leaves the architectural state as it was |
| DeferredState.PushView | rosetta_core/src/TranslatorX87Internal.hpp:220-245 | after its flushes a push that only moves the TOP register is the architectural push |
| DeferredState.DeferPopView | rosetta_core/src/TranslatorX87Internal.hpp:258-275 | a deferred pop is the architectural pop if and only if the int8_t count is below 127 or every tag in memory is empty already; the 128th in a row wraps |
| DeferredState.CancelPopView | rosetta_core/src/TranslatorX87Internal.hpp:247-271 | a pop that cancels a pending push is the architectural pop if and only if the pushed register was tagged empty in memory |
| DeferredState.PopNView | rosetta_core/src/TranslatorX87Internal.hpp:281-298 | n pops at once are n architectural pops |
| DeferredState.RotateView | rosetta_core/src/TranslatorX87.cpp:3771-3830 | fincstp and fdecstp move TOP and no tag |
| DeferredState.FxchView | rosetta_core/src/TranslatorX87.cpp:2006-2060 | a deferred fxch, which emits nothing, is the architectural exchange |
| DeferredState.LoadView | rosetta_core/src/TranslatorX87Internal.hpp:22-28 | a load at the resolved depth reads the logical register |
| DeferredState.StoreView | rosetta_core/src/TranslatorX87Internal.hpp:22-28 | a store at the resolved depth writes the logical register, whatever is still permuted |
| DeferredState.FreeView | rosetta_core/src/TranslatorX87.cpp:3848-3910 | ffree at the resolved depth is the architectural ffree if and only if the permutation leaves that depth alone or both tags involved are empty already |
| DeferredState.ExamineView | rosetta_core/src/TranslatorX87.cpp:1679-1713 | fxam behind deferred pops reads the right tag if and only if fewer than eight are owed or the tag in memory is empty already |
| DeferredState.StatusView | rosetta_core/src/TranslatorX87.cpp:1563-1650 | fstsw stores the architectural TOP if and only if memory and register TOP agree |
| DeferredState.PushRight | rosetta_core/src/TranslatorX87Internal.hpp:220-245 | code and flags together stand for the eager state after a push, for every machine the code is run on |
| DeferredState.DeferPopRight | rosetta_core/src/TranslatorX87Internal.hpp:258-275 | the same for a deferred pop while the count is below 127 |
| DeferredState.CancelPopRight | rosetta_core/src/TranslatorX87Internal.hpp:247-271 | the same for a cancelled push and pop |
| DeferredState.PopNRight | rosetta_core/src/TranslatorX87Internal.hpp:281-298 | the same for n pops, with a permutation pending that turns with TOP |
| DeferredState.FxchRight | rosetta_core/src/TranslatorX87.cpp:2006-2060 | the same for a deferred exchange |
| DeferredState.FreeRight | rosetta_core/src/TranslatorX87.cpp:3848-3910 | the same for ffree at a depth that the permutation leaves alone |
| DeferredState.ExamineRight | rosetta_core/src/TranslatorX87.cpp:1679-1713 | the same for fxam behind fewer than eight deferred pops |
| DeferredState.ValueRight | rosetta_core/src/TranslatorX87Internal.hpp:22-28 | the same for loads, stores and arithmetic at permuted depths |
| DeferredState.RightSettles | rosetta_core/src/TranslatorX87Internal.hpp:138-177 | with every flag clear memory alone is the eager state |
| DeferredState.RegionRight | rosetta_core/src/X87IRLower.cpp:600-640 | a prefix lowered at once, entered with nothing owed, keeps code and flags faithful to whatever operations it does, and leaves no scratch register to be relied on |
| DeferredState.RestMemory | rosetta_core/src/TranslatorX87Internal.hpp:138-177 | between replies, with no permutation owed, memory alone is the eager state |
| DeferredState.FxchAtRest | rosetta_core/src/TranslatorX87Fusion.cpp:466-474 | an fxch taken in by a fusion changes the flags only, and code and flags still stand for the eager state |
| DeferredState.LeaveAtRest | rosetta_core/src/TranslatorX87Internal.hpp:30-78 | code that leaves the x87 state alone between replies keeps what the flags say of memory |
| DeferredState.TurnedPermuted | rosetta_core/src/TranslatorX87Internal.hpp:112-129 | a permutation that turns with TOP reads the same from the new TOP |
| Guards.LeftoverPermutation | rosetta_core/src/TranslatorX87.cpp:1563-1650 | memory alone is the state, whatever the slots hold, if and only if the pending permutation is the identity |
| Guards.PushPastPermutation | rosetta_core/src/TranslatorX87Internal.hpp:220-245 | a push outside a run past a pending permutation is the architectural push on every machine if and only if perm[(d + 1) % 8] == (perm[d] + 1) % 8 for every d |
| Guards.PopPastPermutation | rosetta_core/src/TranslatorX87Internal.hpp:247-279 | the same condition for a pop |
| Guards.PopManyPastPermutation | rosetta_core/src/TranslatorX87Internal.hpp:281-298 | the same with n for n pops |
| Guards.SwapPastPermutation | rosetta_core/src/TranslatorX87.cpp:2036-2060 | an fxch in memory past a permutation is right on every machine if and only if the permutation keeps ST(0) and ST(d) among themselves |
| Guards.LoadPastPermutation | rosetta_core/src/TranslatorX87Single.cpp:211-341 | reading ST(0) at depth 0 is right on every machine if and only if the permutation leaves depth 0 alone |
| Guards.StorePastPermutation | rosetta_core/src/TranslatorX87Single.cpp:97-186 | writing it there likewise |
| Guards.LoneLoadPastPermutation | rosetta_core/src/TranslatorX87Single.cpp:97-186 | the whole fused fld is right on every machine if and only if the permutation is the identity |
| Guards.FreeThroughPermutation | rosetta_core/src/TranslatorX87.cpp:3848-3910 | ffree at the resolved depth is right on every machine if and only if the permutation leaves that depth alone |
| Guards.ExaminePastPops | rosetta_core/src/TranslatorX87.cpp:1679-1713 | fxam behind deferred pops is right on every machine if and only if fewer than eight are owed |
| Guards.DeferredPop | rosetta_core/src/TranslatorX87Internal.hpp:272-277 | a deferred pop is right on every machine if and only if the count is below 127 |
| Guards.DroppedDebt | rosetta_core/src/X87Cache.cpp:393-404 | clearing the flags with a debt outstanding is harmless on a machine if and only if TOP agrees there and the owed tags change nothing |
| Guards.ClearedFlags | rosetta_core/src/X87Cache.cpp:393-404 | it is harmless on every machine if and only if nothing is owed |
| Flags.FramePays | rosetta_core/src/TranslatorX87Internal.hpp:138-177 | an instruction that ends the run, or is outside one, leaves nothing owed and no permutation |
| Flags.NeverExchanged | rosetta_core/src/TranslatorX87.cpp:2026-2040 | with exchanges not deferred no operation makes a permutation pending |
| SlotNotes.EagerTop | rosetta_core/src/TranslatorX87Helpers.cpp:186-216 | operations move the plain stack's TOP by the sum of their moves |
| SlotNotes.NotedTop | rosetta_core/src/TranslatorX87Helpers.cpp:186-216 | whatever the flags, one operation moves the tracker's TOP as it moves the plain stack's |
| SlotNotes.NotedAll | rosetta_core/src/TranslatorX87Helpers.cpp:165-255 | so do any operations in turn |
| SlotNotes.NotedFormats | rosetta_core/src/TranslatorX87Helpers.cpp:186-240 | exactly what one operation makes of the format of every slot |
| SlotNotes.ReorderedAt | rosetta_core/src/TranslatorX87Helpers.cpp:248-255 | a flushed permutation takes every format along if a slot that moves holds 80 bits, and otherwise leaves binary64 in the slots that move |
| SlotNotes.RegionTop | rosetta_core/src/X87IRLower.cpp:1500-1520 | a region moves the tracker's TOP by its net move |
| SlotNotes.RegionFormats | rosetta_core/src/X87IRLower.cpp:1500-1535 | a region leaves binary64 where it stores or pushes, kills what it pops, and leaves the other slots as the flushed permutation did |
| DeferredStack.Emitter.Begin | rosetta_core/src/TranslatorX87Internal.hpp:30-78 | loads TOP only if the run does not hold it already |
| DeferredStack.Emitter.End | rosetta_core/src/TranslatorX87Internal.hpp:138-177 | pays every debt, each with its step and in the order of the source, exactly when the run ends with this instruction, and emits nothing otherwise; the slot tracker changes exactly by the permutation flushed |
| DeferredStack.Emitter.Push | rosetta_core/src/TranslatorX87Internal.hpp:220-245 | flushes the pending tag, the deferred pops, TOP and the permutation in that order, then defers; outside a run it stores everything and flushes no permutation; the flags become Flags.Flagged, and code and flags stay right if the permutation turns with TOP (Guards.PushPastPermutation: on some machine they do not otherwise); the slot tracker follows: TOP down by one behind the flushed permutation, the new slot binary64, the others as they were |
| DeferredStack.Emitter.Pop | rosetta_core/src/TranslatorX87Internal.hpp:247-279 | cancels a pending push, defers otherwise, stores everything outside a run; the flags become Flags.Flagged, and code and flags stay right if the count is below 127, or outside a run if the permutation turns with TOP (Guards.DeferredPop and PopPastPermutation: not otherwise); in the slot tracker TOP goes up by one behind the flushed permutation and the slot left is killed |
| DeferredStack.Emitter.PopN | rosetta_core/src/TranslatorX87Internal.hpp:281-298 | flushes what is owed, marks n tags, leaves TOP dirty in a run; outside one code and flags stay right if the permutation reads the same n places on (Guards.PopManyPastPermutation: not otherwise); in the slot tracker TOP goes up by n and the n slots left are killed |
| DeferredStack.Emitter.PopCancelled | rosetta_core/src/TranslatorX87Internal.hpp:251-271 | no tag is touched; TOP is stored only if memory does not hold the final TOP already |
| DeferredStack.Emitter.Fxch | rosetta_core/src/TranslatorX87.cpp:2006-2060 | changes the permutation in a run, swaps in memory otherwise, does nothing for st(0); in memory code and flags stay right if a pending permutation keeps the two registers among themselves (Guards.SwapPastPermutation: not otherwise); the slot tracker swaps the formats, or writes both as binary64 when neither slot holds 80 bits, and only for a swap in memory |
| DeferredStack.Emitter.ResolveDepth | rosetta_core/src/TranslatorX87Internal.hpp:22-28 | the physical depth of a logical one |
| DeferredStack.Emitter.Free | rosetta_core/src/TranslatorX87.cpp:3848-3910 | pays the tag debts and frees the resolved depth; right if the permutation leaves the depth alone (Guards.FreeThroughPermutation: not otherwise); the slot of the resolved depth is killed in the tracker |
| DeferredStack.Emitter.Examine | rosetta_core/src/TranslatorX87.cpp:1679-1713 | flushes TOP and a pending push, not the deferred pops; right if fewer than eight are owed (Guards.ExaminePastPops: not otherwise) |
| DeferredStack.Emitter.Fstsw | rosetta_core/src/TranslatorX87.cpp:1563-1650 | pays tags and TOP and leaves a pending permutation |
| DeferredStack.Emitter.Tick | rosetta_core/src/X87Cache.cpp:393-404 | counts an instruction off; the last one clears the flags, and code and flags stay right if nothing is owed by then (Guards.ClearedFlags: on some machine they do not otherwise) |
| DeferredStack.Emitter.EndAndTick | rosetta_core/src/TranslatorX87Internal.hpp:138-177 | an instruction or a fusion that consumes n and is ticked m times pays what the end after n demands and leaves the run m shorter; code and flags stay right unless the run ends with the ticks, not with what the end was told, and still owes |
| DeferredStack.Emitter.GateFlush | rosetta_core/src/Translator.cpp:1123-1271 | refuses exactly the runs shorter than three or than the threshold of the debt it comes to first, those without TOP in a register, and more than two deferred pops; otherwise pays that one debt, and says which can be taken back |
| DeferredStack.Emitter.UndoFlush | rosetta_core/src/Translator.cpp:1330-1354 | rewinding code, slot formats and the flushed flag restores the state before the flush |
| DeferredStack.Emitter.TryRegion | rosetta_core/src/Translator.cpp:1123-1354 | whether the flush is taken back or kept after a declined region, code and flags still stand for the same eager state; with both undo knobs on they are exactly as before; a region is taken exactly if it is accepted and the gate does not refuse, and its end leaves the flags as a lowered prefix does; the slot tracker is as before unless the region is taken, and then what its moves and stores make of it |
| DeferredStack.Emitter.Lower | rosetta_core/src/X87IRLower.cpp:1500-1535 | pays the remaining debts before the region and leaves none; the slot tracker moves TOP by what the region's operations move it and marks the depths it stores |
| DeferredStack.Emitter.Absorb | rosetta_core/src/TranslatorX87Fusion.cpp:466-474 | a fusion that takes in an fxch changes the permutation and counts itself off first; code and flags stay right unless that ends a run that holds TOP in its register (Departures.StaleRegister) |
| DeferredStack.Emitter.LoneLoad | rosetta_core/src/TranslatorX87Single.cpp:97-186 | the fused fld outside a run takes ST(0) to be at depth 0; code and flags stay right if the pending permutation is the identity (Guards.LoneLoadPastPermutation: not otherwise); the tracker has one more slot, in binary64 |
| DeferredStack.Emitter.LoneStore | rosetta_core/src/TranslatorX87Single.cpp:211-341 | the fused fst and fstp outside a run do too; right if the permutation leaves ST(0) alone, and for fstp turns with TOP (Guards.LoadPastPermutation and PopPastPermutation: not otherwise); for fstp the tracker's slot is popped |
| DeferredStack.Emitter.Leave | rosetta_core/src/TranslatorX87Internal.hpp:30-78 | after the reply nothing in registers is relied on |
| DeferredStack.GateOpens | rosetta_core/src/Translator.cpp:1123-1271 | the gate opens exactly for runs as long as the first debt asks, with TOP in its register and at most two deferred pops; a longer run never closes it |
| DeferredStack.DefaultGate | rosetta_core/src/Translator.cpp:1123-1271 | with no thresholds set every run of three or more passes |
| DeferredStack.GatePays | rosetta_core/src/Translator.cpp:1123-1271 | it pays the first debt and leaves the others as they were |
| DeferredStack.Emitter.Rotate | rosetta_core/src/TranslatorX87.cpp:3770-3825 | fincstp and fdecstp flush permutation and tags and move TOP, in the flags and in the slot tracker |
| DeferredStack.Emitter.Enter | rosetta_core/src/Translator.cpp:165-182 | a reply begins with TOP at 0 and stock's 80-bit value in every slot |
| Blocks.BlockSplit | rosetta_core/src/Translator.cpp:657-689 | the meaning of a stretch of a block is that of its halves, and it is proper exactly when they are, one after the other |
| Blocks.BlockSimilar | rosetta_core/src/Translator.cpp:657-689 | a stretch of proper instructions keeps states indistinguishable and stays proper |
| Blocks.StandsThen | rosetta_core/src/Translator.cpp:657-689 | operations that stand for one stretch followed by operations that stand for the next stand for both |
| Blocks.BlockHasRoom | rosetta_core/src/TranslatorX87Internal.hpp:220-245 | proper instructions push only onto empty registers |
| Blocks.StandsMore | rosetta_core/src/Translator.cpp:657-689 | what stands for a stretch on fewer tag conditions stands for it on more |
| Fusions.FldArithp | rosetta_core/src/TranslatorX87Fusion.cpp:206-310 | fld and f...p st(1): without the push and the pop it does what the two instructions do, as far as the guest can tell |
| Fusions.FldFstpMem | rosetta_core/src/TranslatorX87Fusion.cpp:526-590 | fld and fstp to memory: a copy that touches no register stands for the two |
| Fusions.FldFstpOne | rosetta_core/src/TranslatorX87Fusion.cpp:526-590 | fld and fstp st(1): one store to ST(0) stands for the two |
| Fusions.FldArith | rosetta_core/src/TranslatorX87Fusion.cpp:331-436 | fld and an arithmetic instruction with a memory operand: the operand is combined before the one push |
| Fusions.FxchArithp | rosetta_core/src/TranslatorX87Fusion.cpp:438-524 | fxch st(1) and f...p st(1): the operands the other way round |
| Fusions.FxchFstp | rosetta_core/src/TranslatorX87Fusion.cpp:839-893 | fxch st(1) and fstp st(1): one pop |
| Fusions.FstpFld | rosetta_core/src/TranslatorX87Fusion.cpp:2742-2856 | fstp to memory and fld: without the pop and the push the result is that of the two instructions if and only if ST(0) was tagged valid before |
| Fusions.FstpFldStands | rosetta_core/src/TranslatorX87Fusion.cpp:2742-2856 | as part of a plan it stands for the two where ST(0) is tagged valid |
| Fusions.ArithFstp | rosetta_core/src/TranslatorX87Fusion.cpp:2240-2399 | an arithmetic instruction with a memory operand and fstp to memory: the result never goes to a register |
| Fusions.ArithpFstp | rosetta_core/src/TranslatorX87Fusion.cpp:2097-2218 | f...p st(1) and fstp to memory: one double pop, and neither register is written |
| Fusions.FldArithFstp | rosetta_core/src/TranslatorX87Fusion.cpp:1126-1292 | fld, an arithmetic instruction with st(1) and fstp to memory: no register is touched |
| Fusions.FldArithArithp | rosetta_core/src/TranslatorX87Fusion.cpp:1312-1567 | fld, an arithmetic instruction with st(1) and f...p st(1): one store to ST(0), where the two are not contracted |
| RunDriver.Lookahead | rosetta_core/src/X87Cache.cpp:434-443 | the longest run of handled instructions from an index |
| RunDriver.TranslateStep | rosetta_core/src/Translator.cpp:1490-1935 | one dispatch takes a prefix by the IR, a fusion or one instruction; what it emits stands for what it consumed, the flags become Outcome, and code and flags stay right unless the dispatch is one of Spoils |
| RunDriver.EmitStatus | rosetta_core/src/TranslatorX87.cpp:1563-1650 | fstsw leaves a pending permutation as it is, also when it ends the run |
| RunDriver.TranslateReply | rosetta_core/src/Translator.cpp:580-728 | from any state an earlier reply can leave, a permutation still pending included: the run opened is OpenedRun, the reply goes to its end, an instruction short for every fxch a fusion took in, and begins no dispatch past it; the parts tile block[first..next], each is what plan, gate and flags call for and leaves flags and slot formats as Flags and SlotNotes say; the tracker's TOP is where the operations took TOP; and code and flags stay right unless a part is one of Spoils |
| RunDriver.TilingStands | rosetta_core/src/Translator.cpp:657-689 | dispatches that follow one another without gap or overlap stand for the block, each instruction once and in order |
| RunDriver.RestDelivers | rosetta_core/src/Translator.cpp:657-689 | on every machine on which the instructions are proper the code of a block leaves what they mean, as far as the guest can tell, once the pending permutation is applied |
| RunDriver.PendingDelivers | rosetta_core/src/TranslatorX87.cpp:1563-1650 | with a permutation pending memory alone is what the block means, whatever the registers hold, if and only if the permutation is the identity |
| RunDriver.TranslateBlock | rosetta_core/src/Translator.cpp:580-728 | for every block, plan of singles, fusions and IR prefixes, and setting of the run lengths: each part is what plan, gate and flags call for; unless a part is one of Spoils, the code of all replies delivers what the block means on every machine on which its instructions are proper and ST(0) is tagged valid at each fused fstp and fld; with no permutation pending at the end memory alone is that; a plan of singles emits the operations of the block and asks for no tag; the parts are the one story of block, plan, runs and gate (StoryUnique), so replies are exactly the runs |
| RunDriver.EmitOps | rosetta_core/src/TranslatorX87Internal.hpp:220-298 | the emitters in turn change the flags as Flags says, and code and flags stay right unless an operation misses; so does the slot tracker as SlotNotes says |
| RunDriver.EmitAbsorbing | rosetta_core/src/TranslatorX87Fusion.cpp:466-474 | a fusion that takes in an fxch: exactly what becomes of the flags; code and flags stay right unless TOP stays marked as held, an operation misses, or the run ends with the ticks and still owes (Guards.ClearedFlags: on some machine they are wrong then) |
| RunDriver.OnTrackStep | rosetta_core/src/Translator.cpp:657-689 | a dispatch extends the tiling by what it consumed, the flags and the slot tracker by what it does |
| RunDriver.StoryMore | rosetta_core/src/Translator.cpp:580-728 | a reply extends the story of the block: its parts follow from the flags the reply before left and the run that is opened there |
| RunDriver.LeavesPermutation | rosetta_core/src/TranslatorX87.cpp:1563-1650 | only an fstsw, a lone emitter that found it so and a miscounted fusion end a reply with a permutation pending |
| RunDriver.NeverPending | rosetta_core/src/TranslatorX87.cpp:2026-2040 | with exchanges not deferred, none taken in and none left over, no reply leaves one |
| RunDriver.OneByOneOps | rosetta_core/src/Translator.cpp:657-689 | instructions emitted one by one emit the operations of the block |
| RunDriver.RunIsLongest | rosetta_core/src/Translator.cpp:863-890 | a run is opened exactly where two instructions that may share a reply follow one another, and it is as long as it can be |
| RunDriver.ReplyReaches | rosetta_core/src/Translator.cpp:657-689 | how far the parts of a reply go, from the flags alone |
| RunDriver.PartTop | rosetta_core/src/TranslatorX87Helpers.cpp:186-216 | whatever a dispatch is, the tracker's TOP moves as its operations move TOP |
| RunDriver.ReplyTop | rosetta_core/src/TranslatorX87Helpers.cpp:186-216 | so it does over a whole reply |
| RunDriver.StoryUnique | rosetta_core/src/Translator.cpp:580-728 | what is emitted for a block follows from block, plan, run lengths, gate and the handling of exchanges: two stories agree in every part, its flags, slots and operations |
| Departures.CancelledOverflow | rosetta_core/src/TranslatorX87Internal.hpp:247-271 | on a full stack a push and the pop that cancels it leave a tag the plain stack would have emptied |
| Departures.CountWraps | rosetta_core/src/TranslatorX87Internal.hpp:272-277 | 128 pops emitted one by one: the end of the run writes no tag, and memory still has eight registers in use |
| Departures.FreeThroughExchange | rosetta_core/src/TranslatorX87.cpp:3848-3910 | fxch st(1), ffree st(1) frees the wrong register |
| Departures.ExamineBehindPops | rosetta_core/src/TranslatorX87.cpp:1679-1713 | after eight deferred pops fxam sees a stale tag |
| Departures.ExchangeLeftBehind | rosetta_core/src/TranslatorX87.cpp:1563-1650 | fxch st(1), fstsw at the end of a run leaves memory in the old order |
| Departures.MiscountedFusion | rosetta_core/src/TranslatorX87Fusion.cpp:466-474 | fxch st(1) and faddp fused, the first two of three instructions, emitted: the run is over before the pop is paid, and TOP in memory is stale |
| Departures.LeftoverThenPush | rosetta_core/src/TranslatorX87.cpp:51-55 | fxch st(1) and fstsw, then a lone fldz in the next reply: a register in use loses its value |
| Departures.StaleRegister | rosetta_core/src/TranslatorX87Fusion.cpp:466-474 | an absorbed fxch that ends the run leaves TOP marked as held: the next run loads none, after stock's code had the registers |
| Opcodes.CountedIsEmitted | rosetta_core/src/Translator.cpp:1574-1912 | an opcode is counted into a run if and only if the dispatch has an emitter for it; of those the stub filter claims six are not |
| Requests.CutGrown | rosetta_core/src/Translator.cpp:128-133 | cutting fixup lists that only grew back to their captured counts restores them |
| Requests.Result.Allocate | rosetta_core/src/TranslatorHelpers.cpp:76-86 | an occupied register is a failure, a free one leaves the mask; nothing outside the scratch pool is ever handed out |
| Requests.Result.Do | rosetta_core/src/TranslatorHelpers.cpp:76-134 | what one act does to code, fixups, registers and failure, exactly |
| Requests.Result.Boundary | rosetta_core/src/Translator.cpp:524-577 | probe and conversions emit exactly the words of their acts, take from the scratch pool, fail exactly if the acts run out there, and put the mask they found back |
| Requests.Result.Prologue | rosetta_core/src/Translator.cpp:735-860 | block change, restart and re-ask reset the cache and emit the counter bump, nothing else does; stock's mask is captured exactly when no run is open |
| Requests.Result.TranslateOne | rosetta_core/src/Translator.cpp:735-1935 | emits exactly the bump of a fresh start and the instruction's own words, fails exactly if those acts run out of the scratch registers there are, and answers by the dispatch; whichever way it leaves, stock's mask is back, less the registers an open run pins; inside a run it never declines |
| Requests.Result.Undo | rosetta_core/src/Translator.cpp:124-165 | code end, six fixup lists, GPR, FPR and pinned masks and the cache go back to the entry, and the rest of the block is marked declined; afterwards no later index of the block begins anew unless the failed one did |
| Requests.Result.Continue | rosetta_core/src/Translator.cpp:657-689 | the driver loop ends, none of the run is declined; it plays the phases of Tail one after another and stops at the first that runs out; unless one does the run is released and stock's mask back |
| Requests.Result.Translate | rosetta_core/src/Translator.cpp:580-728 | unless it follows a declined one, a request fails exactly if one of its phases (probe, entry, first dispatch, the rest of the run, leave) finds no register; it is consumed exactly if none does and the opcode has an emitter, up to the index the run reaches, with exactly the words and fixups of its phases; a failed one is as if it had never been made, but that the rest of the block is declined; every reply gives back the mask it came with; a request that follows a declined one changes nothing |
| Requests.Result.Serve | rosetta_core/src/Translator.cpp:580-728 | over any sequence of requests every reply is honest in that sense and all registers ever taken are scratch registers |
| Requests.RestOfBlockDeclined | rosetta_core/src/Translator.cpp:589-598 | after a failure every later request of that block, past the index and of the same shape, goes to stock with nothing emitted, until another block, shape or index is asked |
| Requests.RunsAreEmitted | rosetta_core/src/X87Cache.cpp:42-133 | every instruction of a counted run has an emitter |
| Requests.FlushIsHarmless | rosetta_core/src/Translator.cpp:395-405 | flush_run_and_release takes only scratch registers the run does not hold if and only if no deferred pop and no pending tag is owed |
| Requests.FlushTakesOthers | rosetta_core/src/Translator.cpp:395-405 | with register 3 free in stock's word it takes that; with only the scratch pool free it takes the registers of the state's address and of TOP |
| Requests.Result.EndOne | rosetta_core/src/Translator.cpp:1914-1935 | the ticks of a dispatch, and the mask the reply hands back: stock's, less the pins of a run still open |
| Requests.AskedAgain | rosetta_core/src/Translator.cpp:589-598 | a failed request that is asked again is tried again; the next index is declined exactly if block, length and first pc are the same |
| Requests.ScratchMasks | rosetta_core/include/rosetta_core/Register.h:94-96 | the two register pools are the bits of the two masks |
| Requests.OutIff | rosetta_core/src/TranslatorHelpers.cpp:76-123 | acts run out exactly when one of them wants a register and, after those before it, none that would do is free |
| Requests.TakesRunOut | rosetta_core/src/TranslatorHelpers.cpp:87-97 | registers taken in turn are the least free ones, and n of them run out exactly if fewer than n are free |
| Requests.TakenGivenBack | rosetta_core/src/TranslatorHelpers.cpp:76-111 | a register taken and given back is free again |
| Requests.FprGivenBack | rosetta_core/src/TranslatorHelpers.cpp:113-134 | an FP register taken and given back is free again if and only if it is one of the sixteen upper ones |
| Requests.GoesOn | rosetta_core/src/Translator.cpp:750-775 | a request goes on exactly in the same block, past the last index, and in an open run at its frontier; a run of one is none |
| Requests.TailVisits | rosetta_core/src/Translator.cpp:657-689 | the dispatches after the first follow one another without gap, each with its own emitter's acts and without the registers the one before has pinned |
| Requests.TailReaches | rosetta_core/src/Translator.cpp:657-689 | they go on to the end of the run, an instruction short for every fxch taken in, and none begins past it |
| Requests.Result.DoAll | rosetta_core/src/TranslatorHelpers.cpp:76-134 | a list of acts appends exactly its words and fixups, and takes and gives back registers in turn |
| SlotPlan.ServesIff | rosetta_core/src/Translator.cpp:342-388 | converting a set of slots serves a window if and only if the set holds every value that a hard read meets in 80-bit form |
| SlotPlan.SoftSeen | rosetta_core/src/Translator.cpp:233-247 | with those converted a soft read meets an 80-bit slot only if the planner reported one |
| SlotPlan.PlanAfterLess | rosetta_core/src/Translator.cpp:220-333 | the planner's simulation is the unconverted one less the values it has planned to convert |
| SlotPlan.StillConverted | rosetta_core/src/Translator.cpp:220-333 | while no flush moves a value the planned positions are exactly the values to convert, each 80-bit at the start |
| SlotPlan.PlanSound | rosetta_core/src/Translator.cpp:220-333 | a window in which nothing moves up to its last hard read meets no hard read of an 80-bit slot after the planned conversions |
| SlotPlan.FlushedExchange | rosetta_core/src/Translator.cpp:248-265 | fincstp and a hard read of ST(0) behind a deferred fxch st(1): the plan names slot 1, the value read is in slot 0 when the conversions are made, and the read still meets it in 80-bit form |
| SlotPlan.Planner.ReadSlot | rosetta_core/src/Translator.cpp:233-247 | one read of the planner |
| SlotPlan.Planner.FlushPerm | rosetta_core/src/Translator.cpp:248-265 | formats move with their slots, and the position of the natively pushed value follows |
| SlotPlan.Planner.PlanEffect | rosetta_core/src/Translator.cpp:266-328 | one instruction: reads and writes by depth, its special effect, the flush, pops, pushes |
| SlotPlan.Follow | rosetta_core/src/Translator.cpp:248-265 | where a flushed permutation takes a given slot |
| SlotPlan.PlanSlots | rosetta_core/src/Translator.cpp:220-333 | the planner computes exactly the planned positions, the soft report and the report on the pushed value of the simulation; what that simulation is in terms of the plain stack say SlotMeaning.WindowShows and InstructionPlans |
| SlotMeaning.StepShows | rosetta_core/src/Translator.cpp:248-328 | each step of the simulation is that step of the plain stack: TOP and the value at every depth |
| SlotMeaning.ReadsThere | rosetta_core/src/Translator.cpp:233-247 | a load of ST(d) on the plain stack gets the value of the slot the simulation reads |
| SlotMeaning.ReadsBefore | rosetta_core/src/Translator.cpp:266-290 | so it does at every access of an instruction, before it moves anything |
| SlotMeaning.EffectShows | rosetta_core/src/Translator.cpp:266-328 | an instruction in the simulation is its exchange or turn, its pops and its pushes on the plain stack |
| SlotMeaning.AccessesMeet | rosetta_core/src/Translator.cpp:266-290 | what its accesses meet in 80-bit form are its loads at the depths where such a value was when it began |
| SlotMeaning.InstructionPlans | rosetta_core/src/Translator.cpp:233-290 | one instruction plans exactly the slots it loads for good in 80-bit form, and reports exactly its soft loads of such and its loads of the value pushed natively |
| SlotMeaning.WindowTop | rosetta_core/src/Translator.cpp:220-333 | TOP after a window is the start plus pops, less pushes, plus turns |
| SlotMeaning.WindowShows | rosetta_core/src/Translator.cpp:220-333 | the simulation of any window of instructions is those instructions on the plain stack |
| SlotMeaning.StepFormats | rosetta_core/src/Translator.cpp:233-328 | each step changes the formats as the tracker's does |
| SlotMeaning.FlushFormats | rosetta_core/src/Translator.cpp:248-265 | a flush without 80-bit slots: planner and tracker agree on which slots are 80-bit |
| PreciseWindow.Window | rosetta_core/src/Translator.cpp:467-473 | one instruction at least, no later memory access inside, and no shorter than the limit or the next access demands |
| PreciseWindow.CutRun | rosetta_core/src/Translator.cpp:883-890 | cutting a run window by window partitions it into non-empty windows, each maximal |
| PreciseWindow.CutsAreAccesses | rosetta_core/src/Translator.cpp:450-473 | the inner cuts of a run are exactly its memory accesses |
| PreciseWindow.CutsUnique | rosetta_core/src/Translator.cpp:450-473 | there is one such partition |
| PreciseWindow.FusionBound | rosetta_core/src/Translator.cpp:1494-1498 | a fusion takes no memory access but its first instruction's, and passes the cut its reply ends at only at the run's end and onto an instruction without one |
| PreciseWindow.OneEnd | rosetta_core/src/Translator.cpp:467-473 | there is one end of a window |
| ArmCode.MeansThen | rosetta_core/src/TranslatorX87Helpers.cpp:402-451 | code that does some steps followed by code that does others does both |
| ArmCode.ShowsOne | rosetta_core/src/TranslatorX87Helpers.cpp:72-98 | whatever memory and registers hold stands for a machine of the deferred stack |
| StackCode.TopDown | rosetta_core/src/TranslatorX87Helpers.cpp:686-700 | SUB and AND move TOP down modulo 8 and touch nothing else |
| StackCode.TopUp | rosetta_core/src/TranslatorX87Helpers.cpp:702-718 | ADD and AND move TOP up modulo 8 and touch nothing else |
| StackCode.TopStored | rosetta_core/src/TranslatorX87Helpers.cpp:100-117 | LDRH, BFI, STRH store TOP and keep the other bits of the status word |
| StackCode.TagCleared | rosetta_core/src/TranslatorX87Helpers.cpp:720-749 | exactly the two tag bits of ST(0) become valid |
| StackCode.TagEmptied | rosetta_core/src/TranslatorX87Helpers.cpp:496-545 | exactly the two tag bits of ST(i) become empty |
| StackCode.Pushed | rosetta_core/src/TranslatorX87Helpers.cpp:402-451 | the whole push: TOP down, stored, tag valid |
| StackCode.EmitPopTags | rosetta_core/src/TranslatorX87Helpers.cpp:586-637 | the loop empties the tags of n registers from TOP up |
| StackCode.EmitPopN | rosetta_core/src/TranslatorX87Helpers.cpp:586-637 | n tags, TOP up by n, stored |
| StackCode.EmitTagSetEmptyBatch | rosetta_core/src/TranslatorX87Helpers.cpp:751-795 | one load, n masks, one store: the tags of the n registers popped last become empty |
| SlotCode.KeyLeads | rosetta_core/src/TranslatorX87Helpers.cpp:119-168 | in both layouts, with and without a cached base, the key addresses the slot at the depth asked for |
| SlotCode.OffsetsDiffer | rosetta_core/src/TranslatorX87Helpers.cpp:119-168 | the eight slots do not overlap |
| SlotCode.Loaded | rosetta_core/src/TranslatorX87Helpers.cpp:296-336 | emit_load_st does the load step and nothing else |
| SlotCode.Stored | rosetta_core/src/TranslatorX87Helpers.cpp:338-374 | emit_store_st does the store step and nothing else |
| PermFlush.Opens | rosetta_core/src/TranslatorX87Helpers.cpp:987-992 | starting a cycle at an unvisited depth |
| PermFlush.Follows | rosetta_core/src/TranslatorX87Helpers.cpp:993-1000 | the next depth of an open cycle is unvisited, and moving its value keeps the cycle invariant |
| PermFlush.Closes | rosetta_core/src/TranslatorX87Helpers.cpp:1002-1003 | storing the saved value completes the cycle |
| PermFlush.EmitCycle | rosetta_core/src/TranslatorX87Helpers.cpp:987-1003 | one cycle is rotated through two registers and the rest left alone |
| PermFlush.EmitPermFlush | rosetta_core/src/TranslatorX87Helpers.cpp:974-1005 | for every permutation each depth gets the value of the depth the permutation names, with two accesses for each depth that moves |
| PermFlush.MovesPermute | rosetta_core/src/TranslatorX87Helpers.cpp:974-1005 | that is the permutation step of the deferred stack, but for the two registers |
| PermFlush.LowerMeans | rosetta_core/src/TranslatorX87Helpers.cpp:296-374 | the moves as instructions do what the moves do |
| PermFlush.PermFlushCode | rosetta_core/src/TranslatorX87Helpers.cpp:974-1005 | run from any state the instructions permute the slots in memory and change no tag, no status bit and no other register |
| ImageFlush.ImageEffect | rosetta_core/src/TranslatorX87Helpers.cpp:923-932 | eight bytes and two bytes of one slot go to the two registers, or come from them, and nothing else changes, with and without a cached base |
| ImageFlush.MovePictures | rosetta_core/src/TranslatorX87Helpers.cpp:938-962 | one move keeps every way of reading the two halves as one value in step with the load or store of the plain flush |
| ImageFlush.ImagesPicture | rosetta_core/src/TranslatorX87Helpers.cpp:938-962 | so do all moves of a flush |
| ImageFlush.ImageFlushCode | rosetta_core/src/TranslatorX87Helpers.cpp:934-972 | with an 80-bit slot among those that move: from any state each slot ends with the ten bytes of the slot at the depth the permutation names, and status, tags, TOP and the other FP registers stay |
| ReplyCode.PlainDoes | rosetta_core/src/TranslatorX87Internal.hpp:30-78 | code that refines a step on exactly shown states does it wherever memory agrees and TOP is loaded |
| ReplyCode.LoadTopDoes | rosetta_core/src/TranslatorX87Helpers.cpp:72-93 | LDRH and UBFX: whatever the register held, it holds TOP |
| ReplyCode.AddTopDoes | rosetta_core/src/TranslatorX87Helpers.cpp:686-718 | TOP moves by any amount modulo 8 |
| ReplyCode.StatusDoes | rosetta_core/src/TranslatorX87.cpp:1563-1650 | fstsw hands over the TOP that memory holds |
| ReplyCode.TagDoes | rosetta_core/src/TranslatorX87.cpp:1679-1713 | a shift by twice TOP and a mask give the two tag bits of ST(0) |
| ReplyCode.SwapDoes | rosetta_core/src/TranslatorX87.cpp:2006-2060 | fxch in memory: two loads and two stores exchange the slots |
| ReplyCode.LowerPerm | rosetta_core/src/TranslatorX87Helpers.cpp:974-1005 | a flushed permutation as instructions, but for the two registers it is given |
| ReplyCode.LowerStep | rosetta_core/src/TranslatorX87Helpers.cpp:72-1005 | every step but the IR's as instructions that do it, in both layouts, with and without a cached base |
| ReplyCode.LowerAll | rosetta_core/src/TranslatorX87Internal.hpp:138-177 | the instructions of a whole buffer do all its steps and keep every other status bit |
| BlockCode.CodeImplements | rosetta_core/src/Translator.cpp:644-656 | code that does a buffer which leaves the block's meaning in memory takes the bits there, whatever the registers hold |
| BlockCode.CodeForBlock | rosetta_core/src/Translator.cpp:580-728 | from guest block to bits in memory: status word, tag word and the slots in use end as the instructions of the block say, and every other status bit is kept, unless a part is one of Spoils or a permutation is pending at the very end |
| SingleOp.Borrow | rosetta_core/src/TranslatorX87Single.cpp:126-128 | SUB 0x800 on the fused word and UBFX give TOP - 1 modulo 8, whatever borrows past the field |
| SingleOp.NextTop | rosetta_core/src/TranslatorX87Single.cpp:296-322 | BFI of TOP + 1 without a mask gives TOP + 1 modulo 8 |
| SingleOp.FldSingle | rosetta_core/src/TranslatorX87Single.cpp:97-186 | the fused fld does to memory what a push and a store to ST(0) do, and keeps every other status bit |
| SingleOp.FstpSingle | rosetta_core/src/TranslatorX87Single.cpp:211-341 | the fused fstp does to memory what a load of ST(0) and a pop do, and keeps every other status bit |
| SingleOp.TagsDetermine | rosetta_core/src/TranslatorX87Single.cpp:97-186 | eight tags determine the tag word |
| SingleOp.FldThenFstp | rosetta_core/src/TranslatorX87Single.cpp:97-341 | fld and then fstp restore the status word always, and the tag word if and only if the register was empty |
| Bits.AndMask | rosetta_core/src/Translator.cpp:546-558 | masking with 2^n - 1, as the probe does with -c, keeps the remainder modulo 2^n |
| BitmaskImmediate.OneRunTest | rosetta_core/src/AssemblerHelpers.cpp:71-95 | adding the lowest set bit and masking leaves zero exactly for a single run of ones |
| BitmaskImmediate.ElementBits | rosetta_core/src/AssemblerHelpers.cpp:45-56 | the halving loop finds the least power of two that is a period of the value |
| BitmaskImmediate.SmallestPeriod | rosetta_core/src/AssemblerHelpers.cpp:45-56 | a rotated run of ones repeated with period 2^y has no smaller power-of-two period |
| BitmaskImmediate.NoHalfPeriod | rosetta_core/src/AssemblerHelpers.cpp:45-56 | a rotated run of 0 < k < E ones is not periodic with E/2 |
| BitmaskImmediate.FindRun | rosetta_core/src/AssemblerHelpers.cpp:65-103 | both paths return the rotation and length of the run, or there is none |
| BitmaskImmediate.RotatedIsEncoded | rosetta_core/src/AssemblerHelpers.cpp:105-114 | the three fields written for a run decode to it |
| BitmaskImmediate.EncodableIsRotated | rosetta_core/src/AssemblerHelpers.cpp:27-115 | whatever a valid encoding decodes to is a rotated run of ones, repeated |
| BitmaskImmediate.EncodableNeedsRun | rosetta_core/src/AssemblerHelpers.cpp:65-103 | an encodable value has a single run of ones or of zeros in its smallest element |
| BitmaskImmediate.NotEncodable | rosetta_core/src/AssemblerHelpers.cpp:65-103 | a rejected value is decoded by no valid encoding |
| BitmaskImmediate.ConstantNotEncodable | rosetta_core/src/AssemblerHelpers.cpp:30-39 | all zeros and all ones have no encoding |
| BitmaskImmediate.SearchMixed | rosetta_core/src/AssemblerHelpers.cpp:45-115 | sound and complete for values with a one and a zero |
| BitmaskImmediate.IsBitmaskImmediate | rosetta_core/src/AssemblerHelpers.cpp:27-115 | returns true if and only if some valid (N, immr, imms) decodes to the value at the width asked for, and then the fields returned decode to it |
| BitmaskImmediate.IncValue | rosetta_core/src/AssemblerHelpers.cpp:65-103 | adding one, bit by bit, is adding one modulo 2^n |
| BitmaskImmediate.DecValue | rosetta_core/src/AssemblerHelpers.cpp:65-103 | subtracting one likewise |
| WideMoves.EmitF64Const | rosetta_core/src/AssemblerHelpers.cpp:638-652 | leaves exactly the constant, in max(1, non-zero halfwords) moves |
| WideMoves.EmitAbs64 | rosetta_core/src/AssemblerHelpers.cpp:181-196 | the fixed four-move form leaves the same |
| WideMoves.OrrLeaves | rosetta_core/src/TranslatorHelpers.cpp:154-170 | one logical immediate leaves the value, at 32 bits with the upper half cleared |
| WideMoves.EmitMoves | rosetta_core/src/TranslatorHelpers.cpp:172-220 | MOVZ or MOVN and MOVKs leave the value at the width asked for, in as many moves as MoveCount says |
| WideMoves.LoadImmediate | rosetta_core/src/TranslatorHelpers.cpp:136-221 | zero gives the zero register and no code; every other value is left exactly, in one instruction if and only if a logical immediate does it or one move is enough |
| WideMoves.EachMoveAddsOne | rosetta_core/src/TranslatorHelpers.cpp:172-220 | every move leaves at most one more halfword different from zeros or from ones |
| WideMoves.NoShorterMoves | rosetta_core/src/TranslatorHelpers.cpp:172-220 | no sequence of moves of the same width that leaves the value is shorter |
| FaultProbe.SelectedIs | rosetta_core/src/Translator.cpp:537-563 | the branch-free arithmetic selects the store's first byte, or the last byte of its first page when it crosses, also when it wraps |
| FaultProbe.BeginCovers | rosetta_core/src/Translator.cpp:537-563 | that halfword lies in the store and is on every page the store is on, for every page size 2^k, k >= 12 |
| FaultProbe.WriteBackEffect | rosetta_core/src/Translator.cpp:559-560 | the write-back leaves memory as it was |
| FaultProbe.ProbeCovers | rosetta_core/src/Translator.cpp:537-563 | the emitted code, on every address: one halfword read and written, covering the store, first of the store unless a 4 KiB boundary is crossed, memory unchanged |
| IrHash.OperandIff | rosetta_core/src/ProfileRuntime.cpp:154-197 | two operands have one canonical form if and only if they agree in the fields their kind has, addresses up to whole pages |
| IrHash.LayoutUnique | rosetta_core/src/ProfileRuntime.cpp:199-204 | the bytes hashed determine the canonical instruction |
| IrHash.CanonIff | rosetta_core/src/ProfileRuntime.cpp:145-198 | two instructions have one canonical form if and only if they mean the same |
| IrHash.StreamIff | rosetta_core/src/ProfileRuntime.cpp:118-208 | two streams of any length have the same canonical bytes if and only if they mean the same |
| IrHash.SlideOperand | rosetta_core/src/ProfileRuntime.cpp:165-186 | sliding an AbsMem or fixup-carrying Immediate by whole pages changes no meaning |
| IrHash.TimesUnique | rosetta_core/src/ProfileRuntime.cpp:203 | multiplication by the prime is injective on 64-bit states |
| IrHash.StepUnique | rosetta_core/src/ProfileRuntime.cpp:201-204 | one step is injective in the state and in the byte |
| IrHash.OneByteDiffers | rosetta_core/src/ProfileRuntime.cpp:199-204 | byte strings that differ in exactly one place hash differently |
| IrHash.HashIrStream | rosetta_core/src/ProfileRuntime.cpp:118-208 | the nested loops compute the fold over the canonical bytes |
| IrHash.HashInvariant | rosetta_core/src/ProfileRuntime.cpp:118-208 | streams that mean the same hash the same |
| IrHash.HashDistinguishes | rosetta_core/src/ProfileRuntime.cpp:118-208 | streams whose canonical bytes differ in at most one place hash the same if and only if they mean the same |
| IrHash.CanonKeeps | rosetta_core/src/ProfileRuntime.cpp:145-198 | the canonical operand is the operand with bytes cleared, none moved |
| IrHash.CanonMeans | rosetta_core/src/ProfileRuntime.cpp:145-198 | and it means the same |
| IrHash.XorBits | rosetta_core/src/ProfileRuntime.cpp:201-204 | Xor is exclusive or, bit by bit |
| IrHash.XorByteBits | rosetta_core/src/ProfileRuntime.cpp:201-204 | a byte meets the low eight bits of the state and leaves the others |
| IrHash.KnownHashes | rosetta_core/src/ProfileRuntime.cpp:118-208 | the published FNV-1a values of the empty string, "a" and "b" |
| BlockIds.IdKept | rosetta_core/src/ProfileRuntime.cpp:100-116 | a key keeps its id whatever is asked for later |
| BlockIds.IdsDiffer | rosetta_core/src/ProfileRuntime.cpp:100-116 | two keys never share an id other than the overflow id |
| BlockIds.IdsDense | rosetta_core/src/ProfileRuntime.cpp:100-116 | the ids in use are exactly the numbers below the count, and the overflow id once more than 2^20 distinct keys were asked for |
| BlockIds.VariantsApart | rosetta_core/src/ProfileRuntime.cpp:100-208 | two streams at one address that differ in one canonical byte share no id but the overflow id |
| BlockIds.Registry.RegisterBlock | rosetta_core/src/ProfileRuntime.cpp:100-116 | the id of a key is the number of distinct keys before it, or the overflow id from 2^20 on |
| BlockIds.Registry.BlockCount | rosetta_core/src/ProfileRuntime.cpp:210-213 | the number of ids handed out |
| OpcodeTable.HostOfIsFirst | rosetta_core/src/OpcodeCompatibility.cpp:28-38 | with fewer than 65536 names each id maps to the least host opcode bearing its name, and to the marker only if there is none |
| OpcodeTable.InternalRoundTrip | rosetta_core/src/OpcodeCompatibility.cpp:19-44 | a mapped id comes back, ARPL through the first opcode past the list |
| OpcodeTable.HostRoundTrip | rosetta_core/src/OpcodeCompatibility.cpp:19-44 | a known host opcode comes back if and only if it is the first of its name |
| OpcodeTable.RoundTripsIff | rosetta_core/src/OpcodeCompatibility.cpp:19-44 | round trips hold for all lists of n names if and only if n is below 65536 |
| OpcodeTable.Tables.NamesById | rosetta_core/src/OpcodeCompatibility.cpp:20-25 | the first id of every name, ARPL left out |
| OpcodeTable.Tables.SetHostTable | rosetta_core/src/OpcodeCompatibility.cpp:19-44 | builds exactly the two tables the list calls for |
| OpcodeTable.Tables.HostToInternal | rosetta_core/src/OpcodeCompatibility.cpp:88-96 | looks a host opcode up |
| OpcodeTable.Tables.InternalToHost | rosetta_core/src/OpcodeCompatibility.cpp:1445-1451 | looks an id up |
| OpcodeTable.Tables.FirstUnmappedRequired | rosetta_core/src/OpcodeCompatibility.cpp:57-86 | the first required id without a host opcode, in the order they are looked at, or none exactly when all have one |
| OpcodeTable.Tables.ClearHostTable | rosetta_core/src/OpcodeCompatibility.cpp:50-55 | forgets the tables, so lookups go back to the built-in numbering |
| OpcodeTable.RequiredIff | rosetta_core/src/OpcodeCompatibility.cpp:56-86 | the required ids are exactly those the filter claims, every one with an emitter among them, and those run bridging reads, each once |
| TraceRing.ReadTrace | tools/x87_trace_analyze.py:46-70 | accepts exactly the well-formed captures (AcceptedIff) and returns their records by sequence number |
| TraceRing.OneNumberPerSlot | tools/x87_trace_analyze.py:60-62 | two numbers of the window that lead to one slot are the same |
| TraceRing.SortIncreasing | tools/x87_trace_analyze.py:66 | sorting records with distinct numbers makes them increase |
| TraceRing.AcceptedTrace | tools/x87_trace_analyze.py:46-70 | accepted records have increasing numbers inside the window; for every slot in use there is exactly one, and it says what the slot's words say: number, context, pc, index, phase and state; retained and dropped add up to min(events, capacity) |
| TraceRing.Complete | tools/x87_trace_analyze.py:67-68 | nothing is dropped if and only if the numbers are consecutive up to the last event |
| TraceRing.MagicSpells | rosetta_core/include/rosetta_core/X87Trace.h:11 | the magic number spells X87TRC1 |
| TraceRing.AcceptedIff | tools/x87_trace_analyze.py:46-70 | which captures are accepted, written on their words |
| TraceRing.SaysOne | tools/x87_trace_analyze.py:30-44 | the words of a slot say one record only |
| TraceRing.DecodeSays | tools/x87_trace_analyze.py:30-44 | and the record decoded is the one they say |
| TracePairs.PoppedIff | tools/x87_trace_analyze.py:82-95 | an exit takes exactly the latest entry of its context, if nothing of that context and no gap lies between |
| TracePairs.PairMeans | tools/x87_trace_analyze.py:90-97 | a pair is that, at one pc |
| TracePairs.NothingMissing | tools/x87_trace_analyze.py:82-87 | inside a pair every sequence number is present |
| TracePairs.NextFates | tools/x87_trace_analyze.py:82-95 | reading a record changes the fate of one entry, or clears all that wait |
| TracePairs.Analyze | tools/x87_trace_analyze.py:73-116 | finds exactly the pairs there are, in order; reports exactly the whole chains whose state changed or whose result disagrees; the counts are those of the fates, and with the misplaced exits and the cleared entries they account for every record |
| TracePairs.Compare | tools/x87_trace_analyze.py:96-112 | one more pair is reported, counted or passed over as its indices, operand and result say |
| TracePairs.GapIff | tools/x87_trace_analyze.py:82-87 | among increasing numbers there is a gap exactly if some number lies between |

## Left out

- RunDriver.TranslateBlock: takes from its caller that each fusion and each IR prefix stands for the instructions it consumes, overflows no more than they do, and uses its scratch registers after writing them. `Fusions` shows it for ten of the fusions in one or two operand forms each; the compare fusions, those that contract to one rounding, the integer and 80-bit forms, fld fld fucompp and fstp arith fstp are not modelled, and neither is run bridging over non-x87 instructions.
- DeferredStack.Emitter.Absorb: that a run which ends there with TOP in its register goes wrong is shown on one run of the emitter (Departures.StaleRegister), not for every block.
- DeferredState.RegionRight: a prefix handled by the IR is one step that does the operations it is said to do; the SSA passes, register assignment and instruction selection of X87IR*.cpp are not modelled.
- BlockCode.CodeForBlock: takes from its caller that the IR's code does the regions it was given, and that stock's code between replies leaves the x87 state alone; blocks that hold x87 instructions stock translates itself (fclex, finit, fldenv, fstenv, fxsave, fxrstor) are not covered.
- ReplyCode.LowerStep: guest loads and stores, constants and FP arithmetic are one instruction each, of which nothing is known but operands and result; addresses, conversions and flags are not modelled, and of the status word fstsw hands over only TOP is.
- SlotMeaning.WindowShows: leaves out windows with fsave or frstor, which replace the stack; what they make of TOP and formats says StepFormats.
- DeferredStack.Emitter.Store: marks the slot binary64 in every case; the 80-bit loads that mark it native (x87_slot_note_native) and the check of a read against the tracker (x87_slot_note_read) are not modelled.
- Requests.Result.Translate: the words an emitter appends are opaque, and which register it was handed does not show in them; what the words of the stack emitters do is proved in StackCode and its neighbours.
- SlotPlan.PlanSound: covers windows in which no non-identity permutation is flushed, nothing is restored from memory and nothing is pushed natively before the last hard read; for flushed permutations the claim is false (FlushedExchange).
- DeferredStack.Emitter.FlushTop: the emitters of DeferredStack never fail to allocate; what an allocation failure does is modelled in Requests.
- ReplyCode.LowerPerm: uses the plain eight-byte moves; the moves of whole images (ImageFlush) and the conversions SlotPlan plans are proved on their own and not composed with the code of a reply, in which a slot is one value.
- SingleOp.FldSingle: the compact layout, with the operand already in an FP register; the address, the guest load and the store of the native layout are not modelled.
- SingleOp.FstpSingle: the same, for the guest store.
- SingleOp.FldThenFstp: the same.
- WideMoves.NoShorterMoves: compares with moves of one width only; a 32-bit MOVN, or MOVKs after a logical immediate, can be shorter for some 64-bit values, and the code does not look for them.
- OpcodeTable.Tables.HostToInternal: the 26.4 numbering is a parameter; its switch tables are a finite enumeration.
- OpcodeTable.Tables.InternalToHost: the same.
- TracePairs.Analyze: that the operand is finite and in range, that the result agrees with exp2 and that the captured state changed are parameters of the analysis.
- Native transport replies, control-word-only runs (top_unused), forced gates and the environment switches that turn single optimisations off.
- emit_x87_tag_set_valid_batch, the status-word packing of the compare instructions, and FP arithmetic, rounding and 80-bit conversion.
- Register choice beyond "the lowest free one" or "this pool slot", and the words the instructions are encoded as.
- The layout conversion at the boundary of a reply, the trace and counter stores, profile tallies, logging, mutexes and atomics.
- fsave and frstor are modelled only in the slot planner.
- Mach messages, hooks, memory mapping, process attach and sampling, benchmarks and scripts: I/O and foreign calls.
- TranslatorCustom.cpp (ARPL as code), configuration parsing and opcode name lists: they would only add easy members.
