/** One run of x87 instructions as one reply (Translator.cpp), and the replies
    of a block one after another: the driver loop and the dispatch of single
    instructions, fusions and IR prefixes. */
module RunDriver {
  import opened X87Stack
  import opened Agreement
  import opened DeferredState
  import opened SlotFormat
  import opened Guards
  import opened Flags
  import opened DeferredStack
  import opened SlotNotes
  import opened PreciseWindow
  import opened Blocks

  /** Consecutive handled instructions from idx (X87Cache::lookahead). */
  method Lookahead(block: seq<Insn>, idx: nat) returns (count: nat)
    requires idx <= |block|
    ensures idx + count <= |block| && AllHandled(block, idx, idx + count)
    ensures idx + count < |block| ==> !block[idx + count].Handled()
  {
    count := 0;
    for i := idx to |block|
      invariant count == i - idx && AllHandled(block, idx, i)
    {
      if !block[i].Handled() {
        break;
      }
      count := count + 1;
    }
  }

  /** The length of the run of handled instructions at i. */
  function RunFrom(block: seq<Insn>, i: nat): (n: nat)
    requires i <= |block|
    ensures i + n <= |block| && AllHandled(block, i, i + n) && (i + n < |block| ==> !block[i + n].Handled())
    decreases |block| - i
  {
    if i < |block| && block[i].Handled() then RunFrom(block, i + 1) + 1 else 0
  }

  lemma OneLength(block: seq<Insn>, i: nat, n: nat)
    requires i + n <= |block| && AllHandled(block, i, i + n) && (i + n < |block| ==> !block[i + n].Handled())
    ensures n == RunFrom(block, i)
  {}

  /** What decides how long a run may be: whether runs are kept at all, whether
      every reply is one instruction, whether a run ends before each later memory
      access, and which instructions access memory. */
  datatype Runs = Runs(cached: bool, single: bool, split: bool, mem: seq<bool>)

  /** The run that a request at `first` opens; a run of one is none. */
  function OpenedRun(block: seq<Insn>, runs: Runs, first: nat): (run: nat)
    requires first < |block| && block[first].Handled() && |runs.mem| == |block|
    ensures first + run <= |block| && AllHandled(block, first, first + run) && run != 1
  {
    var n := if runs.single then 1 else RunFrom(block, first);
    var k := if runs.split then WindowEnd(runs.mem, first, first + n) - first else n;
    if runs.cached && k >= 2 then k else 0
  }

  /** A run is opened exactly where two handled instructions follow one another
      that may share a reply, and it is as long as it can be: up to the first
      instruction that is not handled, or when runs are split the first later one
      that accesses memory. */
  lemma RunIsLongest(block: seq<Insn>, runs: Runs, first: nat)
    requires first < |block| && block[first].Handled() && |runs.mem| == |block|
    ensures var run := OpenedRun(block, runs, first);
      && (run >= 2 <==> runs.cached && !runs.single && first + 1 < |block| && JoinsRun(block, runs, first + 1))
      && (run >= 2 ==> (forall i :: first < i < first + run ==> JoinsRun(block, runs, i))
                       && (first + run < |block| ==> !JoinsRun(block, runs, first + run)))
  {
    var n := if runs.single then 1 else RunFrom(block, first);
    if runs.split {
      assert OneWindow(runs.mem, first, WindowEnd(runs.mem, first, first + n), first + n);
    }
  }

  predicate JoinsRun(block: seq<Insn>, runs: Runs, i: nat)
    requires i < |block| == |runs.mem|
  {
    block[i].Handled() && !(runs.split && runs.mem[i])
  }

  // ---- what is emitted at an index ----

  /** What the dispatcher finds at one index: the prefix the IR takes, if any,
      what its code does, and the depths at which it stores in the end; the emitter otherwise; and the two FP registers
      that are free meanwhile. */
  datatype Choice = Choice(irCount: nat, irOps: seq<Op>, writes: set<nat>, emit: Emission, save: Reg, chain: Reg)

  datatype Emission =
    | Single
    | LoneLoad(r: Reg, v: Value)                      // the fused emitters for a lone fld
    | LoneStore(r: Reg, pop: bool)                    //   and fst or fstp, outside a run only
    | Fused(count: nat, ops: seq<Op>, keepsTag: bool) // keepsTag: fstp and fld
    | Absorbing(others: nat, d: Index, ops: seq<Op>)  // a fusion that takes in an fxch first

  /** The operations of an emission that starts at block[i]. */
  function EmissionOps(block: seq<Insn>, i: nat, e: Emission): (ops: seq<Op>)
    requires i < |block|
  {
    match e
    case Single => block[i].Ops()
    case LoneLoad(_, _) => LoneOps(e)
    case LoneStore(_, _) => LoneOps(e)
    case Fused(_, ops, _) => ops
    case Absorbing(_, d, ops) => AbsorbedOps(d, ops)
  }

  function LoneOps(emit: Emission): (ops: seq<Op>) {
    match emit
    case LoneLoad(r, v) => [Const(r, v), Push, Store(0, r)]
    case LoneStore(r, pop) => [Load(0, r), GuestStore(r)] + if pop then [Pop] else []
    case _ => []
  }

  function AbsorbedOps(d: Index, ops: seq<Op>): (r: seq<Op>) {
    if d == 0 then ops else [Fxch(d)] + ops
  }

  function EmissionCount(e: Emission): (n: nat) {
    match e case Fused(count, _, _) => count case Absorbing(others, _, _) => others + 1 case _ => 1
  }

  /** Where the emission keeps the tag of ST(0). */
  function Keeping(e: Emission, i: nat): (k: set<nat>) {
    if e.Fused? && e.keepsTag then {i} else {}
  }

  /** An emission takes handled instructions of the block, stands for them, and
      uses its scratch registers properly. */
  ghost predicate Works(block: seq<Insn>, i: nat, e: Emission, save: Reg, chain: Reg)
    requires i < |block|
  {
    && 1 <= EmissionCount(e) && i + EmissionCount(e) <= |block| && AllHandled(block, i, i + EmissionCount(e))
    && (e.Absorbing? ==> e.others >= 1)
    && Stands(EmissionOps(block, i, e), block, i, i + EmissionCount(e), Keeping(e, i))
    && Tidy(EmissionOps(block, i, e), save, chain)
    && (e.Absorbing? ==> Tidy(e.ops, save, chain))
    && (e.LoneLoad? || e.LoneStore? ==> e.r != save && e.r != chain)
  }

  /** The same for what the IR may take. */
  ghost predicate IrWorks(block: seq<Insn>, i: nat, c: Choice)
    requires i < |block|
  {
    0 < c.irCount && i + c.irCount <= |block| ==> Stands(c.irOps, block, i, i + c.irCount, {}) && Fetched(c.irOps)
  }

  ghost predicate PlanWorks(block: seq<Insn>, plan: seq<Choice>) {
    && |plan| == |block|
    && forall i :: 0 <= i < |plan| && block[i].Handled() ==> ChoiceWorks(block, i, plan[i])
  }

  ghost predicate ChoiceWorks(block: seq<Insn>, i: nat, c: Choice)
    requires i < |block|
  {
    && c.save != c.chain && IrWorks(block, i, c)
    && Works(block, i, c.emit, c.save, c.chain) && Works(block, i, Single, c.save, c.chain)
  }

  // ---- emitting ----

  /** One operation: the flags become what Flags says, and the code is as right
      as Flags says. */
  method EmitOp(e: Emitter, op: Op)
    requires e.Loaded() && Reads(op, e.held) && e.save !in Holds(op, {}) && e.chain !in Holds(op, {})
    modifies e`buf, e`ops, e`cache, e`slots, e`held, e`sound
    ensures e.Loaded() && e.ops == old(e.ops) + [op] && e.held == Holds(op, old(e.held))
    ensures e.cache == Flagged(old(e.cache), e.deferFxch, op)
    ensures e.sound == (old(e.sound) && !Misses(old(e.cache), e.deferFxch, op))
    ensures e.slots == Noted(old(e.slots), old(e.cache), e.deferFxch, op)
  {
    match op
    case Push => e.Push();
    case Pop => e.Pop();
    case PopN(n) => e.PopN(n);
    case Fxch(d) => e.Fxch(d);
    case Load(d, r) => e.Load(d, r);
    case Store(d, r) => e.Store(d, r);
    case Const(_, _) => e.Compute(op);
    case Alu(_, _, _, _, _) => e.Compute(op);
    case GuestStore(_) => e.Compute(op);
    case Rotate(delta) => e.Rotate(delta);
    case Free(d) => e.Free(d);
    case FlushTop => e.RequestFlush(op);
    case FlushTags => e.RequestFlush(op);
    case ReadStatus => e.FlushTop(); e.StoreStatusWord();
    case Examine => e.Examine();
  }

  method EmitOps(e: Emitter, ops: seq<Op>)
    requires e.Loaded() && e.held == {} && Tidy(ops, e.save, e.chain)
    modifies e`buf, e`ops, e`cache, e`slots, e`held, e`sound
    ensures e.Loaded() && e.ops == old(e.ops) + ops
    ensures e.cache == FlaggedAll(old(e.cache), e.deferFxch, ops)
    ensures e.sound == (old(e.sound) && !MissesAny(old(e.cache), e.deferFxch, ops))
    ensures e.slots == NotedAll(old(e.slots), old(e.cache), e.deferFxch, ops)
  {
    ghost var c, before, sound, t := e.cache, e.ops, e.sound, e.slots;
    for k := 0 to |ops|
      invariant e.Loaded() && Emitted(ops[..k], c, e.deferFxch, before, sound, e.ops, e.cache, e.held, e.sound)
      invariant e.slots == NotedAll(t, c, e.deferFxch, ops[..k])
    {
      EmitNext(e, ops, k, c, before, sound, t);
    }
    assert ops[..|ops|] == ops;
  }

  /** Where the emission of `ops` has brought operations, flags, registers and
      the ghost flag. */
  ghost predicate Emitted(ops: seq<Op>, c: Cache, defer: bool, before: seq<Op>, sound: bool, ops': seq<Op>, c': Cache,
                          held: set<nat>, sound': bool) {
    && Permutation(c.perm) && ops' == before + ops && c' == FlaggedAll(c, defer, ops) && held == HeldAfter(ops)
    && sound' == (sound && !MissesAny(c, defer, ops))
  }

  method EmitNext(e: Emitter, ops: seq<Op>, k: nat, ghost c: Cache, ghost before: seq<Op>, ghost sound: bool,
                  ghost t: Tracker)
    requires k < |ops| && Tidy(ops, e.save, e.chain) && e.Loaded()
    requires Emitted(ops[..k], c, e.deferFxch, before, sound, e.ops, e.cache, e.held, e.sound)
    requires e.slots == NotedAll(t, c, e.deferFxch, ops[..k])
    modifies e`buf, e`ops, e`cache, e`slots, e`held, e`sound
    ensures e.Loaded() && Emitted(ops[..k + 1], c, e.deferFxch, before, sound, e.ops, e.cache, e.held, e.sound)
    ensures e.slots == NotedAll(t, c, e.deferFxch, ops[..k + 1])
  {
    TidyAt(ops, e.save, e.chain, k);
    NotedNext(ops, k, c, e.deferFxch, t);
    EmitOp(e, ops[k]);
    EmittedMore(ops, k, c, e.deferFxch, before, sound, old(e.ops), old(e.cache), old(e.held), old(e.sound));
  }

  lemma NotedNext(ops: seq<Op>, k: nat, c: Cache, defer: bool, t: Tracker)
    requires k < |ops| && Permutation(c.perm)
    ensures NotedAll(t, c, defer, ops[..k + 1])
            == Noted(NotedAll(t, c, defer, ops[..k]), FlaggedAll(c, defer, ops[..k]), defer, ops[k])
  {
    assert ops[..k + 1] == ops[..k] + [ops[k]];
    NotedStep(t, c, defer, ops[..k], ops[k]);
  }

  lemma EmittedMore(ops: seq<Op>, k: nat, c: Cache, defer: bool, before: seq<Op>, sound: bool, ops': seq<Op>, c': Cache,
                    held: set<nat>, sound': bool)
    requires k < |ops| && Emitted(ops[..k], c, defer, before, sound, ops', c', held, sound')
    ensures Emitted(ops[..k + 1], c, defer, before, sound, ops' + [ops[k]], Flagged(c', defer, ops[k]),
                    Holds(ops[k], held), sound' && !Misses(c', defer, ops[k]))
  {
    assert ops[..k + 1] == ops[..k] + [ops[k]];
    FlaggedStep(c, defer, ops[..k], ops[k]);
    HeldMore(ops[..k], ops[k]);
  }

  lemma HeldMore(ops: seq<Op>, op: Op)
    ensures HeldAfter(ops + [op]) == Holds(op, HeldAfter(ops))
  {
    assert (ops + [op])[..|ops + [op]| - 1] == ops;
  }

  /** An emitter's whole frame: preamble, operations, epilogue, ticks. */
  method EmitInsn(e: Emitter, ops: seq<Op>, consumed: nat, ticks: nat)
    requires e.Between() && e.held == {} && Tidy(ops, e.save, e.chain) && 1 <= consumed <= ticks <= consumed + 1
    modifies e
    ensures e.Between() && e.ops == old(e.ops) + ops
    ensures e.cache == Framed(old(e.cache), e.deferFxch, ops, consumed, ticks)
    ensures e.sound == (old(e.sound) && !FrameMisses(old(e.cache), e.deferFxch, ops, consumed, ticks))
    ensures e.slots == NotedFrame(old(e.slots), old(e.cache), e.deferFxch, ops, consumed)
  {
    e.Begin();
    EmitOps(e, ops);
    e.EndAndTick(consumed, ticks);
  }

  /** fstsw in the dispatch. */
  method EmitStatus(e: Emitter)
    requires e.Between() && e.held == {}
    modifies e
    ensures e.Between() && e.ops == old(e.ops) + [Op.ReadStatus] && e.sound == old(e.sound)
    ensures e.cache == Ticked(Asked(old(e.cache)), 1) && e.slots == old(e.slots)
  {
    e.Fstsw();
    e.Tick();
  }

  /** A fusion that takes in an fxch: it counts the fxch off the run, and the
      dispatcher counts it again with the rest. */
  method EmitAbsorbing(e: Emitter, others: nat, d: Index, ops: seq<Op>)
    requires e.Between() && e.held == {} && Tidy(ops, e.save, e.chain) && others >= 1
    modifies e
    ensures e.Between() && e.ops == old(e.ops) + AbsorbedOps(d, ops)
    ensures e.cache == Framed(Absorbed(old(e.cache), d), e.deferFxch, ops, others, others + 1)
    ensures e.sound == (old(e.sound) && !(old(e.cache.run) == 1 && old(e.cache.gprsValid))
                        && !FrameMisses(Absorbed(old(e.cache), d), e.deferFxch, ops, others, others + 1))
    ensures e.slots == NotedFrame(old(e.slots), Absorbed(old(e.cache), d), e.deferFxch, ops, others)
  {
    ghost var before := e.ops;
    e.Absorb(d);
    ghost var c := e.cache;
    assert c == Absorbed(old(e.cache), d) && e.slots == old(e.slots);
    EmitInsn(e, ops, others, others + 1);
    Joined(before, d, ops);
  }

  lemma Joined(before: seq<Op>, d: Index, ops: seq<Op>)
    ensures (before + if d == 0 then [] else [Fxch(d)]) + ops == before + AbsorbedOps(d, ops)
  {}

  // ---- one dispatch ----

  /** One dispatch of a reply: block[start..end], the operations emitted for it,
      the flags it met, those that the gate of the IR left, those afterwards, the
      slot tracker before and after, and what was chosen. */
  datatype Part = Part(start: nat, end: nat, ops: seq<Op>, met: Cache, from: Cache, left: Cache, slots: Tracker,
                       noted: Tracker, ir: bool, writes: set<nat>, emit: Emission)

  /** What is left of a run after `consumed` of its instructions. */
  function Rest(run: nat, consumed: nat): (r: nat) {
    if run > consumed then run - consumed else 0
  }

  /** The flags afterwards. */
  function Outcome(p: Part, block: seq<Insn>, defer: bool): (c: Cache)
    requires Permutation(p.from.perm)
  {
    if p.ir then Lowered(p.from, Rest(p.end, p.start))
    else
      match p.emit
      case LoneLoad(_, _) => p.from
      case LoneStore(_, pop) => if pop then p.from.(topDirty := false) else p.from
      case Absorbing(others, d, ops) => Framed(Absorbed(p.from, d), defer, ops, others, others + 1)
      case Fused(count, ops, _) => Framed(p.from, defer, ops, count, count)
      case Single =>
        if AtStatus(p, block) then Ticked(Asked(p.from), 1) else Framed(p.from, defer, p.ops, 1, 1)
  }

  /** The slot tracker afterwards. */
  function OutcomeNotes(p: Part, block: seq<Insn>, defer: bool): (t: Tracker)
    requires Permutation(p.from.perm)
  {
    if p.ir then NotedRegion(p.slots, p.from, MovesAll(p.ops), p.writes)
    else
      match p.emit
      case LoneLoad(_, _) => LoneNotes(p.emit, p.slots)
      case LoneStore(_, _) => LoneNotes(p.emit, p.slots)
      case Absorbing(others, d, ops) => NotedFrame(p.slots, Absorbed(p.from, d), defer, ops, others)
      case Fused(count, ops, _) => NotedFrame(p.slots, p.from, defer, ops, count)
      case Single => if AtStatus(p, block) then p.slots else NotedFrame(p.slots, p.from, defer, p.ops, 1)
  }

  function LoneNotes(emit: Emission, t: Tracker): (u: Tracker) {
    match emit
    case LoneLoad(_, _) => t.NotePush().NoteWrite(0)
    case LoneStore(_, pop) => if pop then t.NotePop(1) else t
    case _ => t
  }

  predicate AtStatus(p: Part, block: seq<Insn>) {
    p.start < |block| && block[p.start].Status?
  }

  /** The dispatches whose code is wrong on some machine with the flags they met. */
  predicate Spoils(p: Part, block: seq<Insn>, defer: bool)
    requires Permutation(p.from.perm)
  {
    if p.ir then false
    else
      match p.emit
      case LoneLoad(_, _) => p.from.perm != Identity()
      case LoneStore(_, pop) => if pop then p.from.perm != Identity() else p.from.perm[0] != 0
      case Absorbing(others, d, ops) =>
        || (p.from.run == 1 && p.from.gprsValid)
        || FrameMisses(Absorbed(p.from, d), defer, ops, others, others + 1)
      case Fused(count, ops, _) => FrameMisses(p.from, defer, ops, count, count)
      case Single => !AtStatus(p, block) && FrameMisses(p.from, defer, p.ops, 1, 1)
  }

  /** A part takes handled instructions and stands for them. */
  ghost predicate PartOf(p: Part, block: seq<Insn>) {
    && p.start < p.end <= |block| && AllHandled(block, p.start, p.end) && Permutation(p.from.perm)
    && Stands(p.ops, block, p.start, p.end, Kept(p))
    && (!p.ir && p.emit.Single? ==> p.end == p.start + 1 && p.ops == block[p.start].Ops())
  }

  /** Where the part keeps the tag of ST(0). */
  function Kept(p: Part): (k: set<nat>) {
    if p.ir then {} else Keeping(p.emit, p.start)
  }

  /** The part that an emission makes. */
  function PartFor(block: seq<Insn>, next: nat, emit: Emission, met: Cache, c: Cache, left: Cache, slots: Tracker,
                   noted: Tracker): (p: Part)
    requires next < |block|
  {
    Part(next, next + EmissionCount(emit), EmissionOps(block, next, emit), met, c, left, slots, noted, false, {}, emit)
  }

  /** What a dispatch does to flags and slots, given the part it makes. */
  predicate Accounts(p: Part, block: seq<Insn>, defer: bool, sound: bool, sound': bool, c: Cache, t: Tracker) {
    && Permutation(p.from.perm) && c == p.left == Outcome(p, block, defer)
    && t == p.noted == OutcomeNotes(p, block, defer)
    && sound' == (sound && !Spoils(p, block, defer))
  }

  /** What a dispatch counts off the run: its instructions, and an fxch that a
      fusion took in once more. */
  function Spent(p: Part): (n: nat) {
    Rest(p.end, p.start) + if Absorbs(p) then 1 else 0
  }

  predicate Absorbs(p: Part) {
    !p.ir && p.emit.Absorbing?
  }

  /** A dispatch leaves the run shorter by what it counted off. */
  lemma OutcomeRun(p: Part, block: seq<Insn>, defer: bool)
    requires PartOf(p, block) && (!p.ir ==> p.end == p.start + EmissionCount(p.emit))
    requires !p.ir && (p.emit.LoneLoad? || p.emit.LoneStore?) ==> p.from.run == 0
    ensures Outcome(p, block, defer).run == Rest(p.from.run, Spent(p))
  {
    if !p.ir && p.emit.Absorbing? {
      FramedRun(Absorbed(p.from, p.emit.d), defer, p.emit.ops, p.emit.others, p.emit.others + 1);
    } else if !p.ir && p.emit.Fused? {
      FramedRun(p.from, defer, p.emit.ops, p.emit.count, p.emit.count);
    } else if !p.ir && p.emit.Single? {
      FramedRun(p.from, defer, p.ops, 1, 1);
    }
  }

  lemma FramedRun(c: Cache, defer: bool, ops: seq<Op>, consumed: nat, ticks: nat)
    requires Permutation(c.perm)
    ensures Framed(c, defer, ops, consumed, ticks).run == Rest(c.run, ticks)
  {}

  method EmitChoice(e: Emitter, block: seq<Insn>, next: nat, emit: Emission, ghost met: Cache)
    requires e.Between() && e.held == {} && next < |block| && block[next].Handled()
    requires Works(block, next, emit, e.save, e.chain)
    requires emit.LoneLoad? || emit.LoneStore? ==> e.cache.run == 0
    modifies e
    ensures e.Between() && e.ops == old(e.ops) + EmissionOps(block, next, emit)
    ensures Accounts(PartFor(block, next, emit, met, old(e.cache), e.cache, old(e.slots), e.slots), block,
                     e.deferFxch, old(e.sound), e.sound, e.cache, e.slots)
  {
    if emit.Single? {
      EmitSingle(e, block, next, met);
    } else if emit.Fused? {
      EmitFused(e, block, next, emit, met);
    } else if emit.Absorbing? {
      EmitAbsorber(e, block, next, emit, met);
    } else {
      EmitLoner(e, block, next, emit, met);
    }
  }

  method EmitFused(e: Emitter, block: seq<Insn>, next: nat, emit: Emission, ghost met: Cache)
    requires e.Between() && e.held == {} && next < |block| && emit.Fused?
    requires Works(block, next, emit, e.save, e.chain)
    modifies e
    ensures e.Between() && e.ops == old(e.ops) + EmissionOps(block, next, emit)
    ensures Accounts(PartFor(block, next, emit, met, old(e.cache), e.cache, old(e.slots), e.slots), block,
                     e.deferFxch, old(e.sound), e.sound, e.cache, e.slots)
  {
    EmitInsn(e, emit.ops, emit.count, emit.count);
  }

  method EmitAbsorber(e: Emitter, block: seq<Insn>, next: nat, emit: Emission, ghost met: Cache)
    requires e.Between() && e.held == {} && next < |block| && emit.Absorbing?
    requires Works(block, next, emit, e.save, e.chain)
    modifies e
    ensures e.Between() && e.ops == old(e.ops) + EmissionOps(block, next, emit)
    ensures Accounts(PartFor(block, next, emit, met, old(e.cache), e.cache, old(e.slots), e.slots), block,
                     e.deferFxch, old(e.sound), e.sound, e.cache, e.slots)
  {
    EmitAbsorbing(e, emit.others, emit.d, emit.ops);
  }

  method EmitLoner(e: Emitter, block: seq<Insn>, next: nat, emit: Emission, ghost met: Cache)
    requires e.Between() && e.held == {} && next < |block| && e.cache.run == 0 && (emit.LoneLoad? || emit.LoneStore?)
    requires Works(block, next, emit, e.save, e.chain)
    modifies e
    ensures e.Between() && e.ops == old(e.ops) + EmissionOps(block, next, emit)
    ensures Accounts(PartFor(block, next, emit, met, old(e.cache), e.cache, old(e.slots), e.slots), block,
                     e.deferFxch, old(e.sound), e.sound, e.cache, e.slots)
  {
    EmitLone(e, emit);
  }

  method EmitSingle(e: Emitter, block: seq<Insn>, next: nat, ghost met: Cache)
    requires e.Between() && e.held == {} && next < |block| && block[next].Handled()
    requires Works(block, next, Single, e.save, e.chain)
    modifies e
    ensures e.Between() && e.ops == old(e.ops) + EmissionOps(block, next, Single)
    ensures Accounts(PartFor(block, next, Single, met, old(e.cache), e.cache, old(e.slots), e.slots), block,
                     e.deferFxch, old(e.sound), e.sound, e.cache, e.slots)
  {
    if block[next].Status? {
      EmitStatus(e);
    } else {
      EmitInsn(e, block[next].Ops(), 1, 1);
    }
  }

  method EmitLone(e: Emitter, emit: Emission)
    requires e.Between() && e.held == {} && e.cache.run == 0 && (emit.LoneLoad? || emit.LoneStore?)
    requires emit.r != e.save && emit.r != e.chain
    modifies e
    ensures e.Between()
    ensures e.cache == if emit.LoneStore? && emit.pop then old(e.cache).(topDirty := false) else old(e.cache)
    ensures e.ops == old(e.ops) + LoneOps(emit)
    ensures e.sound == (old(e.sound) && match emit
      case LoneStore(_, pop) => if pop then old(e.cache.perm) == Identity() else old(e.cache.perm)[0] == 0
      case _ => old(e.cache.perm) == Identity())
    ensures e.slots == LoneNotes(emit, old(e.slots))
  {
    match emit
    case LoneLoad(r, v) =>
      e.LoneLoad(r, v);
      assert [Const(r, v)] + [Push] + [Store(0, r)] == [Const(r, v), Push, Store(0, r)];
    case LoneStore(r, pop) =>
      e.LoneStore(r, pop);
      assert [Load(0, r)] + [GuestStore(r)] == [Load(0, r), GuestStore(r)];
  }

  /** The emission the dispatcher comes to: the lone emitters are for outside a
      run. */
  function Chosen(c: Choice, run: nat): (e: Emission) {
    if run > 0 && (c.emit.LoneLoad? || c.emit.LoneStore?) then Single else c.emit
  }

  /** The part that an IR prefix makes. */
  function IrPart(next: nat, choice: Choice, c: Cache, left: Cache, slots: Tracker, noted: Tracker): (p: Part) {
    Part(next, next + choice.irCount, choice.irOps, c, c, left, slots, noted, true, choice.writes, Single)
  }

  lemma HandledPrefix(block: seq<Insn>, i: nat, k: nat, j: nat)
    requires i <= k <= j <= |block| && AllHandled(block, i, j)
    ensures AllHandled(block, i, k) && AllHandled(block, k, j)
  {}

  /** What the dispatch does at an index with the flags it meets: the IR first, if
      it has something and the gate lets it, and the emitter otherwise. */
  ghost predicate Dispatched(p: Part, block: seq<Insn>, choice: Choice, cfg: GateConfig) {
    && p.start < |block| && p.from == (if p.ir then p.met else Declined(cfg, p.met))
    && (p.ir <==> 0 < choice.irCount <= p.met.run && !Refuses(cfg, p.met))
    && p == if p.ir then IrPart(p.start, choice, p.met, p.left, p.slots, p.noted)
            else PartFor(block, p.start, Chosen(choice, p.met.run), p.met, p.from, p.left, p.slots, p.noted)
  }

  /** A dispatch at `next` has consumed some instructions: what it adds to the
      operations, and what becomes of flags, slots and ghost flag. */
  ghost predicate Stepped(p: Part, block: seq<Insn>, next: nat, consumed: nat, choice: Choice, cfg: GateConfig,
                          defer: bool, met: Cache, slots: Tracker, ops: seq<Op>, sound: bool, ops': seq<Op>,
                          sound': bool, c': Cache, slots': Tracker) {
    && ops' == ops + p.ops && PartOf(p, block) && p.start == next && p.end == next + consumed
    && c'.run == Rest(met.run, Spent(p)) && Accounts(p, block, defer, sound, sound', c', slots')
    && p.met == met && p.slots == slots && Dispatched(p, block, choice, cfg)
  }

  /** Offer a prefix of what is left of the run to the IR. */
  method StepByIr(e: Emitter, block: seq<Insn>, next: nat, choice: Choice, cfg: GateConfig)
    returns (taken: nat, ghost part: Part)
    requires e.Between() && e.held == {} && 0 < e.cache.run <= |block| - next
    requires AllHandled(block, next, next + e.cache.run)
    requires next < |block| && IrWorks(block, next, choice)
    modifies e
    ensures e.Between() && e.held == {} && e.save == old(e.save) && e.chain == old(e.chain)
    ensures taken > 0 <==> 0 < choice.irCount <= old(e.cache).run && !Refuses(cfg, old(e.cache))
    ensures taken == 0 ==> e.ops == old(e.ops) && e.cache == Declined(cfg, old(e.cache)) && e.sound == old(e.sound)
    ensures taken == 0 ==> e.slots == old(e.slots)
    ensures taken > 0 ==> Stepped(part, block, next, taken, choice, cfg, e.deferFxch, old(e.cache), old(e.slots),
                                  old(e.ops), old(e.sound), e.ops, e.sound, e.cache, e.slots)
  {
    var run := e.cache.run;
    var accepted := 0 < choice.irCount <= e.cache.run;
    var count := if accepted then choice.irCount else 1;
    taken := e.TryRegion(count, choice.irOps, accepted, choice.writes, cfg);
    part := IrPart(next, choice, old(e.cache), e.cache, old(e.slots), e.slots);
    if taken > 0 {
      HandledPrefix(block, next, next + taken, next + run);
      IrStepped(part, block, next, choice, cfg, e.deferFxch, old(e.cache), old(e.slots), old(e.ops), old(e.sound),
                e.ops, e.cache, e.slots);
    }
  }

  lemma IrStepped(p: Part, block: seq<Insn>, next: nat, choice: Choice, cfg: GateConfig, defer: bool, met: Cache,
                  slots: Tracker, ops: seq<Op>, sound: bool, ops': seq<Op>, c': Cache, slots': Tracker)
    requires next < |block| && 0 < choice.irCount <= met.run <= |block| - next && IrWorks(block, next, choice)
    requires AllHandled(block, next, next + choice.irCount) && Permutation(met.perm) && !Refuses(cfg, met)
    requires p == IrPart(next, choice, met, c', slots, slots') && ops' == ops + choice.irOps
    requires c' == Lowered(met, choice.irCount)
    requires slots' == NotedRegion(slots, met, MovesAll(choice.irOps), choice.writes)
    ensures Stepped(p, block, next, choice.irCount, choice, cfg, defer, met, slots, ops, sound, ops', sound, c', slots')
  {
    OutcomeRun(p, block, defer);
  }

  lemma PartForWorks(block: seq<Insn>, next: nat, emit: Emission, met: Cache, c: Cache, left: Cache, slots: Tracker,
                     noted: Tracker, save: Reg, chain: Reg)
    requires next < |block| && Works(block, next, emit, save, chain) && Permutation(c.perm)
    ensures var p := PartFor(block, next, emit, met, c, left, slots, noted);
      PartOf(p, block) && p.start == next && p.end == next + EmissionCount(emit)
      && p.ops == EmissionOps(block, next, emit)
  {}

  method StepByEmitter(e: Emitter, block: seq<Insn>, next: nat, choice: Choice, cfg: GateConfig, ghost met: Cache)
    returns (consumed: nat, ghost part: Part)
    requires e.Between() && e.held == {} && next < |block| && block[next].Handled()
    requires Works(block, next, choice.emit, e.save, e.chain) && Works(block, next, Single, e.save, e.chain)
    requires e.cache == Declined(cfg, met) && !(0 < choice.irCount <= met.run && !Refuses(cfg, met))
    modifies e
    ensures e.Between()
    ensures Stepped(part, block, next, consumed, choice, cfg, e.deferFxch, met, old(e.slots),
                    old(e.ops), old(e.sound), e.ops, e.sound, e.cache, e.slots)
  {
    var emit := Chosen(choice, e.cache.run);
    consumed := EmissionCount(emit);
    EmitChoice(e, block, next, emit, met);
    part := PartFor(block, next, emit, met, old(e.cache), e.cache, old(e.slots), e.slots);
    EmitterStepped(part, block, next, emit, choice, cfg, e.deferFxch, met, old(e.save), old(e.chain),
                   old(e.ops), old(e.sound), e.ops, e.sound, e.cache, e.slots);
  }

  lemma EmitterStepped(p: Part, block: seq<Insn>, next: nat, emit: Emission, choice: Choice, cfg: GateConfig,
                       defer: bool, met: Cache, save: Reg, chain: Reg, ops: seq<Op>, sound: bool, ops': seq<Op>,
                       sound': bool, c': Cache, slots': Tracker)
    requires next < |block| && Works(block, next, emit, save, chain) && emit == Chosen(choice, p.from.run)
    requires p == PartFor(block, next, emit, met, p.from, c', p.slots, slots') && ops' == ops + p.ops
    requires Accounts(p, block, defer, sound, sound', c', slots') && p.from == Declined(cfg, met)
    requires !(0 < choice.irCount <= met.run && !Refuses(cfg, met))
    ensures Stepped(p, block, next, EmissionCount(emit), choice, cfg, defer, met, p.slots, ops, sound, ops', sound', c',
                    slots')
  {
    PartForWorks(block, next, emit, met, p.from, c', p.slots, slots', save, chain);
    EmitterRun(p, block, next, emit, choice, cfg, met, defer, save, chain);
    EmitterDispatched(p, block, next, met, choice, cfg);
  }

  lemma EmitterDispatched(p: Part, block: seq<Insn>, next: nat, met: Cache, choice: Choice, cfg: GateConfig)
    requires next < |block|
    requires p == PartFor(block, next, Chosen(choice, p.from.run), met, p.from, p.left, p.slots, p.noted)
    requires p.from == Declined(cfg, met) && !(0 < choice.irCount <= met.run && !Refuses(cfg, met))
    ensures Dispatched(p, block, choice, cfg) && p.met == met
  {}

  lemma EmitterRun(p: Part, block: seq<Insn>, next: nat, emit: Emission, choice: Choice, cfg: GateConfig, met: Cache,
                   defer: bool, save: Reg, chain: Reg)
    requires next < |block| && Works(block, next, emit, save, chain) && emit == Chosen(choice, p.from.run)
    requires p == PartFor(block, next, emit, met, p.from, p.left, p.slots, p.noted) && Permutation(p.from.perm)
    requires p.from == Declined(cfg, met)
    ensures Outcome(p, block, defer).run == Rest(met.run, Spent(p))
  {
    PartForWorks(block, next, emit, met, p.from, p.left, p.slots, p.noted, save, chain);
    OutcomeRun(p, block, defer);
  }

  /** One dispatch (translate_instruction_impl from the IR gate on): a prefix by
      the IR, a fusion, or one instruction. */
  method TranslateStep(e: Emitter, block: seq<Insn>, next: nat, choice: Choice, cfg: GateConfig)
    returns (consumed: nat, ghost part: Part)
    requires e.Between() && next < |block| && next + e.cache.run <= |block|
    requires AllHandled(block, next, next + e.cache.run)
    requires block[next].Handled() && ChoiceWorks(block, next, choice)
    modifies e
    ensures e.Between()
    ensures Stepped(part, block, next, consumed, choice, cfg, e.deferFxch, old(e.cache), old(e.slots),
                    old(e.ops), old(e.sound), e.ops, e.sound, e.cache, e.slots)
  {
    ghost var met := e.cache;
    e.Prepare(choice.save, choice.chain);
    if e.cache.run > 0 {
      consumed, part := StepByIr(e, block, next, choice, cfg);
      if consumed > 0 {
        return;
      }
    }
    consumed, part := StepByEmitter(e, block, next, choice, cfg, met);
  }

  // ---- a reply ----

  /** The parts follow one another from `first` to `next` without gap or
      overlap. */
  ghost predicate Tiling(parts: seq<Part>, block: seq<Insn>, first: nat, next: nat)
    decreases |parts|
  {
    if parts == [] then first == next
    else
      var p := parts[|parts| - 1];
      p.end == next && PartOf(p, block) && Tiling(parts[..|parts| - 1], block, first, p.start)
  }

  /** Everything the parts emitted, in order. */
  function Output(parts: seq<Part>): (ops: seq<Op>)
    decreases |parts|
  {
    if parts == [] then [] else Output(parts[..|parts| - 1]) + parts[|parts| - 1].ops
  }

  /** Where they keep the tag of ST(0). */
  function KeptBy(parts: seq<Part>): (k: set<nat>)
    decreases |parts|
  {
    if parts == [] then {} else KeptBy(parts[..|parts| - 1]) + Kept(parts[|parts| - 1])
  }

  /** Some part went wrong. */
  ghost predicate Spoiled(parts: seq<Part>, block: seq<Insn>, defer: bool)
    decreases |parts|
  {
    parts != [] &&
    var p := parts[|parts| - 1];
    Spoiled(parts[..|parts| - 1], block, defer) || (Permutation(p.from.perm) && Spoils(p, block, defer))
  }

  /** The flags after the first k parts, c0 before them. */
  function FlagsAt(parts: seq<Part>, k: nat, c0: Cache): (c: Cache)
    requires k <= |parts|
  {
    if k == 0 then c0 else parts[k - 1].left
  }

  function FlagsAfter(parts: seq<Part>, c0: Cache): (c: Cache) {
    FlagsAt(parts, |parts|, c0)
  }

  /** The slot tracker of a reply after its first k parts. */
  function SlotsAt(parts: seq<Part>, k: nat): (t: Tracker)
    requires k <= |parts|
  {
    if k == 0 then STOCK else parts[k - 1].noted
  }

  /** Each part is what the dispatch does with the flags and the slots that the one
      before left, the first with c0 and the slots as stock left them, and the run
      is not over before the last. */
  ghost predicate Chained(parts: seq<Part>, block: seq<Insn>, plan: seq<Choice>, cfg: GateConfig, defer: bool,
                          c0: Cache) {
    forall k :: 0 <= k < |parts| ==> ChainedAt(parts, k, block, plan, cfg, defer, c0)
  }

  ghost predicate ChainedAt(parts: seq<Part>, k: nat, block: seq<Insn>, plan: seq<Choice>, cfg: GateConfig, defer: bool,
                            c0: Cache)
    requires k < |parts|
  {
    && parts[k].met == FlagsAt(parts, k, c0) && (k > 0 ==> parts[k].met.run > 0)
    && parts[k].slots == SlotsAt(parts, k) && Plays(parts[k], block, plan, cfg, defer)
  }

  /** The part is the plan's, and its flags are the outcome. */
  ghost predicate Plays(p: Part, block: seq<Insn>, plan: seq<Choice>, cfg: GateConfig, defer: bool) {
    && p.start < |plan| && Dispatched(p, block, plan[p.start], cfg)
    && Permutation(p.from.perm) && p.left == Outcome(p, block, defer) && p.noted == OutcomeNotes(p, block, defer)
  }

  lemma OnePart(parts: seq<Part>, p: Part)
    ensures var more := parts + [p];
      more[..|more| - 1] == parts && more[|more| - 1] == p && Output(more) == Output(parts) + p.ops
      && KeptBy(more) == KeptBy(parts) + Kept(p)
  {
    assert (parts + [p])[..|parts + [p]| - 1] == parts;
  }

  /** A tiling stands for the block: each instruction once and in order. */
  lemma {:induction false} TilingStands(parts: seq<Part>, block: seq<Insn>, first: nat, next: nat)
    requires first <= |block| && Tiling(parts, block, first, next)
    ensures first <= next <= |block| && AllHandled(block, first, next)
    ensures Stands(Output(parts), block, first, next, KeptBy(parts))
    decreases |parts|
  {
    if parts == [] {
      StandsItself(block, first, next, {});
    } else {
      var init, p := parts[..|parts| - 1], parts[|parts| - 1];
      TilingStands(init, block, first, p.start);
      StandsMore(Output(init), block, first, p.start, KeptBy(init), KeptBy(parts));
      StandsMore(p.ops, block, p.start, next, Kept(p), KeptBy(parts));
      StandsThen(Output(init), p.ops, block, first, p.start, next, KeptBy(parts));
    }
  }

  /** Instructions emitted one by one, in their own emitters. */
  predicate OneByOne(parts: seq<Part>) {
    forall k :: 0 <= k < |parts| ==> !parts[k].ir && parts[k].emit.Single?
  }

  /** Then the operations emitted are the block's own. */
  lemma {:induction false} OneByOneOps(parts: seq<Part>, block: seq<Insn>, first: nat, next: nat)
    requires first <= |block| && Tiling(parts, block, first, next) && OneByOne(parts)
    ensures first <= next <= |block| && Output(parts) == BlockOps(block, first, next)
    decreases |parts|
  {
    if parts != [] {
      var p := parts[|parts| - 1];
      assert p == parts[|parts| - 1] && !p.ir && p.emit.Single?;
      OneByOneOps(parts[..|parts| - 1], block, first, p.start);
      BlockSplit(block, first, p.start, next, EMPTY, {});
      assert BlockOps(block, p.start, next) == p.ops + [] == p.ops;
    }
  }

  const EMPTY: X87 := X87(0, seq(8, _ => Tag.Empty), seq(8, _ => 0), seq(32, _ => 0), [])

  /** How a reply began. */
  datatype Start = Start(first: nat, ops: seq<Op>, sound: bool, cache: Cache, defer: bool, plan: seq<Choice>,
                         cfg: GateConfig)

  /** Where the loop is: the parts so far and all that is known of them. */
  ghost predicate OnTrack(start: Start, parts: seq<Part>, block: seq<Insn>, next: nat, ops: seq<Op>, sound: bool,
                          c: Cache, t: Tracker) {
    && next + c.run <= |block| && AllHandled(block, next, next + c.run)
    && Laid(start, parts, block, next, ops, sound) && Played(start, parts, block, c, t)
  }

  ghost predicate Laid(start: Start, parts: seq<Part>, block: seq<Insn>, next: nat, ops: seq<Op>, sound: bool) {
    && ops == start.ops + Output(parts) && Tiling(parts, block, start.first, next)
    && sound == (start.sound && !Spoiled(parts, block, start.defer))
  }

  lemma {:induction false} LaidStep(start: Start, parts: seq<Part>, part: Part, block: seq<Insn>, ops: seq<Op>,
                                    sound: bool)
    requires Laid(start, parts, block, part.start, ops, sound) && PartOf(part, block)
    ensures Laid(start, parts + [part], block, part.end, ops + part.ops, sound && !Spoils(part, block, start.defer))
  {
    OnePart(parts, part);
    SpoiledStep(parts, part, block, start.defer);
    TilingStep(parts, part, block, start.first);
    assert start.ops + Output(parts) + part.ops == start.ops + (Output(parts) + part.ops);
  }

  ghost predicate Played(start: Start, parts: seq<Part>, block: seq<Insn>, c: Cache, t: Tracker) {
    && Chained(parts, block, start.plan, start.cfg, start.defer, start.cache)
    && c == FlagsAfter(parts, start.cache) && t == SlotsAt(parts, |parts|)
  }

  lemma StillHandled(block: seq<Insn>, next: nat, run: nat, consumed: nat, spent: nat)
    requires next + run <= |block| && AllHandled(block, next, next + run) && next + consumed <= |block|
    requires consumed <= spent
    ensures next + consumed + Rest(run, spent) <= |block|
    ensures AllHandled(block, next + consumed, next + consumed + Rest(run, spent))
  {}

  lemma {:induction false} PlayedStep(start: Start, parts: seq<Part>, part: Part, block: seq<Insn>, c: Cache,
                                      t: Tracker)
    requires Played(start, parts, block, c, t) && (parts != [] ==> c.run > 0) && part.met == c && part.slots == t
    requires Plays(part, block, start.plan, start.cfg, start.defer)
    ensures Played(start, parts + [part], block, part.left, part.noted)
  {
    ChainedStep(parts, part, block, start.plan, start.cfg, start.defer, start.cache);
  }

  lemma {:induction false} OnTrackStep(start: Start, parts: seq<Part>, part: Part, block: seq<Insn>, next: nat,
                                       consumed: nat, ops: seq<Op>, sound: bool, c: Cache, t: Tracker, ops': seq<Op>,
                                       sound': bool, c': Cache, t': Tracker)
    requires OnTrack(start, parts, block, next, ops, sound, c, t) && next < |start.plan| && (parts != [] ==> c.run > 0)
    requires Stepped(part, block, next, consumed, start.plan[next], start.cfg, start.defer, c, t,
                     ops, sound, ops', sound', c', t')
    ensures OnTrack(start, parts + [part], block, next + consumed, ops', sound', c', t')
  {
    OnTrackMore(start, parts, part, block, next, ops, sound, c, t);
  }

  lemma {:induction false} OnTrackMore(start: Start, parts: seq<Part>, part: Part, block: seq<Insn>, next: nat,
                                       ops: seq<Op>, sound: bool, c: Cache, t: Tracker)
    requires OnTrack(start, parts, block, next, ops, sound, c, t) && (parts != [] ==> c.run > 0)
    requires Plays(part, block, start.plan, start.cfg, start.defer) && PartOf(part, block)
    requires part.start == next && part.met == c && part.slots == t && part.left.run == Rest(c.run, Spent(part))
    ensures OnTrack(start, parts + [part], block, part.end, ops + part.ops,
                    sound && !Spoils(part, block, start.defer), part.left, part.noted)
  {
    StillHandled(block, next, c.run, part.end - next, Spent(part));
    PlayedStep(start, parts, part, block, c, t);
    LaidStep(start, parts, part, block, ops, sound);
  }

  lemma {:induction false} ChainedStep(parts: seq<Part>, p: Part, block: seq<Insn>, plan: seq<Choice>, cfg: GateConfig,
                                       defer: bool, c0: Cache)
    requires Chained(parts, block, plan, cfg, defer, c0) && p.met == FlagsAfter(parts, c0)
    requires p.slots == SlotsAt(parts, |parts|) && (parts != [] ==> p.met.run > 0)
    requires Plays(p, block, plan, cfg, defer)
    ensures Chained(parts + [p], block, plan, cfg, defer, c0)
  {
    var more := parts + [p];
    forall k | 0 <= k < |more| ensures ChainedAt(more, k, block, plan, cfg, defer, c0) {
      if k < |parts| {
        ChainedKept(parts, more, k, block, plan, cfg, defer, c0);
      } else {
        assert more[k] == p && FlagsAt(more, k, c0) == FlagsAfter(parts, c0);
        assert SlotsAt(more, k) == SlotsAt(parts, k);
      }
    }
  }

  lemma ChainedKept(parts: seq<Part>, more: seq<Part>, k: nat, block: seq<Insn>, plan: seq<Choice>, cfg: GateConfig,
                    defer: bool, c0: Cache)
    requires k < |parts| <= |more| && parts == more[..|parts|] && ChainedAt(parts, k, block, plan, cfg, defer, c0)
    ensures ChainedAt(more, k, block, plan, cfg, defer, c0)
  {
    assert more[k] == parts[k] && FlagsAt(more, k, c0) == FlagsAt(parts, k, c0);
    assert SlotsAt(more, k) == SlotsAt(parts, k);
  }

  lemma SpoiledStep(parts: seq<Part>, p: Part, block: seq<Insn>, defer: bool)
    requires Permutation(p.from.perm)
    ensures Spoiled(parts + [p], block, defer) <==> Spoiled(parts, block, defer) || Spoils(p, block, defer)
  {
    assert (parts + [p])[..|parts + [p]| - 1] == parts;
  }

  lemma TilingStep(parts: seq<Part>, p: Part, block: seq<Insn>, first: nat)
    requires Tiling(parts, block, first, p.start) && PartOf(p, block)
    ensures Tiling(parts + [p], block, first, p.end)
  {
    assert (parts + [p])[..|parts + [p]| - 1] == parts;
  }

  // ---- how far a reply goes ----

  /** What the first k parts counted off the run, and how many of them took in an
      fxch. */
  function SpentBy(parts: seq<Part>, k: nat): (n: nat)
    requires k <= |parts|
  {
    if k == 0 then 0 else SpentBy(parts, k - 1) + Spent(parts[k - 1])
  }

  function AbsorbedBy(parts: seq<Part>, k: nat): (n: nat)
    requires k <= |parts|
    ensures n <= k && ((forall i :: 0 <= i < k ==> !Absorbs(parts[i])) ==> n == 0)
  {
    if k == 0 then 0 else AbsorbedBy(parts, k - 1) + if Absorbs(parts[k - 1]) then 1 else 0
  }

  /** A reply goes on to the end of its run, an instruction short for every fxch
      that a fusion took in, and begins no part past it; without a run it is one
      part. */
  predicate Reaches(parts: seq<Part>, first: nat, next: nat, run: nat) {
    && parts != [] && (run == 0 ==> |parts| == 1) && first + run <= next + AbsorbedBy(parts, |parts|)
    && (|parts| > 1 ==> parts[|parts| - 1].start + AbsorbedBy(parts, |parts| - 1) < first + run)
  }

  /** What is left of the run, and how far the parts have come. */
  ghost predicate LeftAt(parts: seq<Part>, c0: Cache, first: nat, k: nat)
    requires k <= |parts|
  {
    && FlagsAt(parts, k, c0).run == Rest(c0.run, SpentBy(parts, k))
    && SpentBy(parts, k) == (if k == 0 then first else parts[k - 1].end) - first + AbsorbedBy(parts, k)
  }

  /** Part k comes right after the one before, and counts itself off. */
  predicate CountsAt(parts: seq<Part>, c0: Cache, first: nat, k: nat)
    requires k < |parts|
  {
    && parts[k].left.run == Rest(FlagsAt(parts, k, c0).run, Spent(parts[k]))
    && parts[k].end > parts[k].start == if k == 0 then first else parts[k - 1].end
  }

  lemma {:induction false} Counts(parts: seq<Part>, block: seq<Insn>, plan: seq<Choice>, cfg: GateConfig, defer: bool,
                                  c0: Cache, first: nat, next: nat, k: nat)
    requires Chained(parts, block, plan, cfg, defer, c0) && Tiling(parts, block, first, next) && k < |parts|
    ensures CountsAt(parts, c0, first, k)
  {
    TilingAt(parts, block, first, next, k);
    assert ChainedAt(parts, k, block, plan, cfg, defer, c0);
    PlaysRun(parts[k], block, plan, cfg, defer);
  }

  lemma {:induction false} RunLeft(parts: seq<Part>, c0: Cache, first: nat, k: nat)
    requires k <= |parts| && forall i :: 0 <= i < |parts| ==> CountsAt(parts, c0, first, i)
    ensures LeftAt(parts, c0, first, k)
  {
    if k > 0 {
      RunLeft(parts, c0, first, k - 1);
      assert CountsAt(parts, c0, first, k - 1);
    }
  }

  lemma PlaysRun(p: Part, block: seq<Insn>, plan: seq<Choice>, cfg: GateConfig, defer: bool)
    requires Plays(p, block, plan, cfg, defer) && PartOf(p, block)
    ensures p.left.run == Rest(p.met.run, Spent(p))
  {
    OutcomeRun(p, block, defer);
  }

  lemma {:induction false} ReplyReaches(parts: seq<Part>, block: seq<Insn>, plan: seq<Choice>, cfg: GateConfig,
                                        defer: bool, c0: Cache, first: nat, next: nat)
    requires Chained(parts, block, plan, cfg, defer, c0) && Tiling(parts, block, first, next) && parts != []
    requires FlagsAfter(parts, c0).run == 0
    ensures Reaches(parts, first, next, c0.run)
  {
    var n := |parts|;
    forall k | 0 <= k < n ensures CountsAt(parts, c0, first, k) {
      Counts(parts, block, plan, cfg, defer, c0, first, next, k);
    }
    assert ChainedAt(parts, n - 1, block, plan, cfg, defer, c0);
    assert parts[n - 1].end == next;
    CountsReach(parts, c0, first, next);
  }

  lemma {:induction false} CountsReach(parts: seq<Part>, c0: Cache, first: nat, next: nat)
    requires parts != [] && forall i :: 0 <= i < |parts| ==> CountsAt(parts, c0, first, i)
    requires parts[|parts| - 1].end == next && FlagsAt(parts, |parts|, c0).run == 0
    requires |parts| > 1 ==> FlagsAt(parts, |parts| - 1, c0).run > 0
    ensures Reaches(parts, first, next, c0.run)
  {
    var n := |parts|;
    RunLeft(parts, c0, first, n);
    RunLeft(parts, c0, first, n - 1);
    assert CountsAt(parts, c0, first, n - 1);
  }

  // ---- TOP at the end of a reply ----

  lemma {:induction false} PartTop(p: Part, block: seq<Insn>, plan: seq<Choice>, cfg: GateConfig, defer: bool)
    requires Plays(p, block, plan, cfg, defer)
    ensures p.noted.topRel == Slot(p.slots.topRel, MovesAll(p.ops))
  {
    if p.ir {
      RegionTop(p.slots, p.from, MovesAll(p.ops), p.writes);
    } else if p.emit.LoneLoad? || p.emit.LoneStore? {
      LoneTop(p.emit, p.slots);
      assert p.ops == LoneOps(p.emit);
    } else if p.emit.Absorbing? {
      AbsorbedTop(p.emit.d, p.emit.ops);
      assert p.ops == AbsorbedOps(p.emit.d, p.emit.ops);
    } else if p.emit.Single? && AtStatus(p, block) {
      assert p.ops == [Op.ReadStatus] && p.ops[..0] == [];
    }
  }

  lemma AbsorbedTop(d: Index, ops: seq<Op>)
    ensures MovesAll(AbsorbedOps(d, ops)) == MovesAll(ops)
  {
    MovesConcat([Fxch(d)], ops);
    assert [Fxch(d)][..0] == [];
  }

  lemma {:induction false} LoneTop(emit: Emission, t: Tracker)
    ensures LoneNotes(emit, t).topRel == Slot(t.topRel, MovesAll(LoneOps(emit)))
  {
    LoneMoves(emit);
    if emit.LoneStore? && emit.pop {
      PopsTop(t, 1);
    }
  }

  lemma {:induction false} LoneMoves(emit: Emission)
    ensures MovesAll(LoneOps(emit)) ==
      if emit.LoneLoad? then -1 else if emit.LoneStore? && emit.pop then 1 else 0
  {
    match emit
    case LoneLoad(r, v) => MovesThree(Op.Const(r, v), Op.Push, Op.Store(0, r));
    case LoneStore(r, pop) =>
      MovesThree(Op.Load(0, r), Op.GuestStore(r), Op.Pop);
      var two := [Op.Load(0, r), Op.GuestStore(r)];
      assert two + [Op.Pop] == [Op.Load(0, r), Op.GuestStore(r), Op.Pop] && two + [] == two;
    case _ =>
  }

  lemma {:induction false} MovesThree(a: Op, b: Op, c: Op)
    ensures MovesAll([a, b]) == Moves(a) + Moves(b) && MovesAll([a, b, c]) == Moves(a) + Moves(b) + Moves(c)
  {
    assert [a][..0] == [] && [a, b][..1] == [a] && [a, b, c][..2] == [a, b];
    assert MovesAll([a]) == Moves(a);
    assert MovesAll([a, b]) == MovesAll([a]) + Moves(b);
  }

  /** The tracker's TOP is where the operations of the reply have taken TOP. */
  lemma {:induction false} ReplyTop(parts: seq<Part>, block: seq<Insn>, plan: seq<Choice>, cfg: GateConfig, defer: bool,
                                    c0: Cache)
    requires Chained(parts, block, plan, cfg, defer, c0)
    ensures SlotsAt(parts, |parts|).topRel == Slot(0, MovesAll(Output(parts)))
    decreases |parts|
  {
    if parts != [] {
      var init, p := parts[..|parts| - 1], parts[|parts| - 1];
      ChainedBefore(parts, block, plan, cfg, defer, c0);
      ReplyTop(init, block, plan, cfg, defer, c0);
      assert ChainedAt(parts, |init|, block, plan, cfg, defer, c0) && SlotsAt(parts, |init|) == SlotsAt(init, |init|);
      PartTop(p, block, plan, cfg, defer);
      TopOnward(p.slots.topRel, Output(init), p.ops);
    }
  }

  lemma TopOnward(top: nat, before: seq<Op>, ops: seq<Op>)
    requires top == Slot(0, MovesAll(before))
    ensures Slot(top, MovesAll(ops)) == Slot(0, MovesAll(before + ops))
  {
    MovesConcat(before, ops);
    SlotTwice(0, MovesAll(before), MovesAll(ops));
  }

  lemma {:induction false} ChainedBefore(parts: seq<Part>, block: seq<Insn>, plan: seq<Choice>, cfg: GateConfig,
                                         defer: bool, c0: Cache)
    requires Chained(parts, block, plan, cfg, defer, c0) && parts != []
    ensures Chained(parts[..|parts| - 1], block, plan, cfg, defer, c0)
  {
    var init := parts[..|parts| - 1];
    forall k | 0 <= k < |init| ensures ChainedAt(init, k, block, plan, cfg, defer, c0) {
      assert ChainedAt(parts, k, block, plan, cfg, defer, c0);
      assert init[k] == parts[k] && FlagsAt(init, k, c0) == FlagsAt(parts, k, c0);
      assert SlotsAt(init, k) == SlotsAt(parts, k);
    }
  }

  /** A request: the whole run in one reply.  The loop ends; the parts of the
      reply tile block[first..next]; flags and slots went from part to part as
      Flags and SlotNotes say, starting with the run that the request opens, and
      the code is right exactly unless a part is one that spoils it. */
  method TranslateReply(e: Emitter, block: seq<Insn>, first: nat, plan: seq<Choice>, runs: Runs, cfg: GateConfig)
    returns (next: nat, ghost parts: seq<Part>)
    requires PlanWorks(block, plan) && first < |block| && block[first].Handled() && |runs.mem| == |block|
    requires e.Between() && e.cache.run == 0
    modifies e
    ensures e.Between() && e.cache.run == 0 && first < next <= |block|
    ensures parts != [] && Tiling(parts, block, first, next) && e.ops == old(e.ops) + Output(parts)
    ensures e.sound == (old(e.sound) && !Spoiled(parts, block, e.deferFxch))
    ensures Chained(parts, block, plan, cfg, e.deferFxch, old(e.cache).(run := OpenedRun(block, runs, first)))
    ensures e.cache == FlagsAfter(parts, old(e.cache)) && e.slots == SlotsAt(parts, |parts|)
    ensures Reaches(parts, first, next, OpenedRun(block, runs, first))
    ensures forall x: X87 :: EagerAll(Output(parts), x).top == Slot(x.top, e.slots.topRel)
    ensures e.sound ==> AtRest(e.cache, e.buf, e.ops)
  {
    e.Enter();
    OpenRun(e, block, first, runs);
    ghost var c := e.cache;
    next, parts := Drive(e, block, first, plan, cfg);
    ReplyReaches(parts, block, plan, cfg, e.deferFxch, c, first, next);
    TopFollows(parts, block, plan, cfg, e.deferFxch, c);
  }

  lemma TopFollows(parts: seq<Part>, block: seq<Insn>, plan: seq<Choice>, cfg: GateConfig, defer: bool, c0: Cache)
    requires Chained(parts, block, plan, cfg, defer, c0)
    ensures forall x: X87 :: EagerAll(Output(parts), x).top == Slot(x.top, SlotsAt(parts, |parts|).topRel)
  {
    forall x: X87 ensures EagerAll(Output(parts), x).top == Slot(x.top, SlotsAt(parts, |parts|).topRel) {
      EagerTop(Output(parts), x);
      ReplyTop(parts, block, plan, cfg, defer, c0);
      SameTurn(x.top, MovesAll(Output(parts)));
    }
  }

  lemma SameTurn(top: nat, n: int)
    ensures Slot(top, n) == Slot(top, Slot(0, n))
  {}

  method OpenRun(e: Emitter, block: seq<Insn>, first: nat, runs: Runs)
    requires first < |block| && block[first].Handled() && |runs.mem| == |block|
    requires e.Between() && e.cache.run == 0
    modifies e`cache
    ensures e.Between() && e.cache == old(e.cache).(run := OpenedRun(block, runs, first))
  {
    if runs.cached {
      var length := 1;
      if !runs.single {
        length := Lookahead(block, first);
        OneLength(block, first, length);
      }
      if runs.split {
        ghost var stop := first + length;
        length := Window(runs.mem, first, length);
        OneEnd(runs.mem, first, first + length, stop);
      }
      e.SetRun(length);
    }
  }

  method Drive(e: Emitter, block: seq<Insn>, first: nat, plan: seq<Choice>, cfg: GateConfig)
    returns (next: nat, ghost parts: seq<Part>)
    requires PlanWorks(block, plan) && first < |block| && block[first].Handled()
    requires e.Between() && first + e.cache.run <= |block| && AllHandled(block, first, first + e.cache.run)
    requires e.slots == STOCK
    modifies e
    ensures e.Between() && e.cache.run == 0 && first < next <= |block|
    ensures parts != [] && Tiling(parts, block, first, next) && e.ops == old(e.ops) + Output(parts)
    ensures e.sound == (old(e.sound) && !Spoiled(parts, block, e.deferFxch))
    ensures Chained(parts, block, plan, cfg, e.deferFxch, old(e.cache))
    ensures e.cache == FlagsAfter(parts, old(e.cache)) && e.slots == SlotsAt(parts, |parts|)
  {
    ghost var start := Start(first, e.ops, e.sound, e.cache, e.deferFxch, plan, cfg);
    assert OnTrack(start, [], block, first, e.ops, e.sound, e.cache, e.slots);
    next, parts := DriveOn(e, block, start, plan, first, [], cfg);
    next, parts := DriveLoop(e, block, start, plan, next, parts, cfg);
    TilingEnds(parts, block, first, next);
  }

  lemma {:induction false} TilingEnds(parts: seq<Part>, block: seq<Insn>, first: nat, next: nat)
    requires Tiling(parts, block, first, next)
    ensures |parts| > 0 ==> first < next <= |block|
    decreases |parts|
  {
    if parts != [] {
      TilingEnds(parts[..|parts| - 1], block, first, parts[|parts| - 1].start);
    }
  }

  method DriveLoop(e: Emitter, block: seq<Insn>, ghost start: Start, plan: seq<Choice>, next0: nat,
                   ghost parts0: seq<Part>, cfg: GateConfig)
    returns (next: nat, ghost parts: seq<Part>)
    requires PlanWorks(block, plan) && parts0 != []
    requires start.defer == e.deferFxch && start.plan == plan && start.cfg == cfg
    requires e.Between() && OnTrack(start, parts0, block, next0, e.ops, e.sound, e.cache, e.slots)
    modifies e
    ensures e.Between() && e.cache.run == 0 && parts != []
    ensures OnTrack(start, parts, block, next, e.ops, e.sound, e.cache, e.slots)
  {
    next, parts := next0, parts0;
    while e.cache.run > 0
      invariant e.Between() && parts != [] && OnTrack(start, parts, block, next, e.ops, e.sound, e.cache, e.slots)
      decreases |block| - next
    {
      next, parts := DriveOn(e, block, start, plan, next, parts, cfg);
    }
  }

  /** The body of the loop. */
  method DriveOn(e: Emitter, block: seq<Insn>, ghost start: Start, plan: seq<Choice>, next0: nat,
                 ghost parts0: seq<Part>, cfg: GateConfig)
    returns (next: nat, ghost parts: seq<Part>)
    requires PlanWorks(block, plan) && next0 < |block| && block[next0].Handled()
    requires start.defer == e.deferFxch && start.plan == plan && start.cfg == cfg
    requires e.Between() && OnTrack(start, parts0, block, next0, e.ops, e.sound, e.cache, e.slots)
    requires parts0 != [] ==> e.cache.run > 0
    modifies e
    ensures e.Between() && next0 < next <= |block| && parts != []
    ensures OnTrack(start, parts, block, next, e.ops, e.sound, e.cache, e.slots)
  {
    ghost var part;
    var consumed;
    consumed, part := TranslateStep(e, block, next0, plan[next0], cfg);
    OnTrackStep(start, parts0, part, block, next0, consumed, old(e.ops), old(e.sound), old(e.cache), old(e.slots),
                e.ops, e.sound, e.cache, e.slots);
    next, parts := next0 + consumed, parts0 + [part];
  }

  // ---- a permutation left at the end of a reply ----

  /** Only three kinds of dispatch end a reply with a permutation pending: an
      fstsw, a lone emitter that found it so, and a fusion that took in an fxch
      and was miscounted. */
  lemma LeavesPermutation(p: Part, block: seq<Insn>, defer: bool)
    requires PartOf(p, block) && Outcome(p, block, defer).run == 0 && Outcome(p, block, defer).permDirty
    requires !p.ir && p.emit.Absorbing? ==> p.emit.others >= 1
    ensures !p.ir && (p.emit.Single? ==> AtStatus(p, block))
    ensures !p.emit.Fused? && (p.emit.Absorbing? ==> p.from.run == p.emit.others + 2)
    ensures !p.emit.Absorbing? ==> p.from.permDirty
  {
    if p.emit.Fused? {
      FramePays(p.from, defer, p.emit.ops, p.emit.count);
    } else if p.emit.Single? && !AtStatus(p, block) {
      FramePays(p.from, defer, p.ops, 1);
    }
  }

  lemma NonePending(p: Part, block: seq<Insn>, cfg: GateConfig)
    requires Permutation(p.from.perm) && Orderly(p.met) && (p.from == p.met || p.from == Declined(cfg, p.met))
    requires p.ir || !p.emit.Absorbing?
    ensures Orderly(Outcome(p, block, false))
  {
    assert Orderly(p.from);
    if !p.ir && p.emit.Fused? {
      StaysFramed(p.from, p.emit.ops, p.emit.count);
    } else if !p.ir && p.emit.Single? {
      StaysFramed(p.from, p.ops, 1);
    }
  }

  lemma StaysFramed(c: Cache, ops: seq<Op>, consumed: nat)
    requires Permutation(c.perm) && Orderly(c)
    ensures Orderly(Framed(c, false, ops, consumed, consumed))
  {
    NeverExchanged(Begun(c), ops);
  }

  lemma StillOrderly(p: Part, block: seq<Insn>, plan: seq<Choice>, cfg: GateConfig)
    requires Plays(p, block, plan, cfg, false) && Orderly(p.met) && (p.ir || !p.emit.Absorbing?)
    ensures Orderly(p.left)
  {
    NonePending(p, block, cfg);
  }

  /** With exchanges not deferred, none taken in and none left over, none is
      pending. */
  lemma {:induction false} NeverPending(parts: seq<Part>, block: seq<Insn>, plan: seq<Choice>, cfg: GateConfig,
                                        c0: Cache, n: nat)
    requires Chained(parts, block, plan, cfg, false, c0) && Orderly(c0) && n <= |parts|
    requires forall k :: 0 <= k < |parts| ==> parts[k].ir || !parts[k].emit.Absorbing?
    ensures Orderly(FlagsAt(parts, n, c0))
    decreases n
  {
    if n > 0 {
      NeverPending(parts, block, plan, cfg, c0, n - 1);
      assert ChainedAt(parts, n - 1, block, plan, cfg, false, c0);
      StillOrderly(parts[n - 1], block, plan, cfg);
    }
  }

  // ---- what a reply, or a block of replies, delivers ----

  /** Run on any machine on which the instructions are proper, the code leaves a
      state that is the block's as far as the guest can tell, once the pending
      permutation is applied. */
  ghost predicate Delivers(c: Cache, buf: seq<Step>, block: seq<Insn>, i: nat, j: nat, kept: set<nat>)
    requires Permutation(c.perm) && i <= j <= |block|
  {
    forall m: Machine {:trigger Run(buf, m)} :: DeliversAt(c, m, Run(buf, m), block, i, j, kept)
  }

  ghost predicate DeliversAt(c: Cache, m: Machine, m': Machine, block: seq<Insn>, i: nat, j: nat, kept: set<nat>)
    requires Permutation(c.perm) && i <= j <= |block|
  {
    ProperBlock(block, i, j, Memory(m), kept) ==>
      Similar(EagerAll(BlockOps(block, i, j), Memory(m)), View(c, Exec(LoadTop, m')))
  }

  lemma RestDelivers(c: Cache, buf: seq<Step>, ops: seq<Op>, block: seq<Insn>, i: nat, j: nat, kept: set<nat>)
    requires Permutation(c.perm) && i <= j <= |block|
    requires AtRest(c, buf, ops) && Stands(ops, block, i, j, kept)
    ensures Delivers(c, buf, block, i, j, kept)
  {
    forall m: Machine ensures DeliversAt(c, m, Run(buf, m), block, i, j, kept) {
      assert Settled(c, Run(buf, m), Memory(m), ops);
      assert StandsAt(ops, block, i, j, kept, Memory(m));
    }
  }

  /** Nothing but a permutation is owed. */
  predicate AtMostPermuted(c: Cache) {
    Permutation(c.perm) && !c.topDirty && !c.tagPending && c.deferred == 0
  }

  /** Memory alone is what the block means, whatever the slots hold, exactly when
      the pending permutation is the identity. */
  lemma PendingDelivers(c: Cache)
    requires AtMostPermuted(c)
    ensures (forall m: Machine, y: X87 :: Similar(y, View(c, Exec(LoadTop, m))) ==> Similar(y, Memory(m))) <==>
      c.perm == Identity()
  {
    if c.perm == Identity() {
      forall m: Machine, y: X87 | Similar(y, View(c, Exec(LoadTop, m))) ensures Similar(y, Memory(m)) {
        PlainView(c, Exec(LoadTop, m));
      }
    } else {
      var m := Full(c, 0);
      var y := View(c, Exec(LoadTop, m));
      if Similar(y, Memory(m)) {
        forall s | 0 <= s < 8 ensures c.perm[s] == Identity()[s] {
          FromZero(c.perm, s);
          assert s in Live(y);
        }
      }
    }
  }

  const FRESH: Cache := Cache(false, false, 0, Identity(), false, 0, false)

  predicate NoneHandled(block: seq<Insn>, i: nat, j: nat)
    requires j <= |block|
  {
    forall k :: i <= k < j ==> !block[k].Handled()
  }

  /** The parts of all replies up to index `next`, one after another: where stock
      translates, nothing is emitted; where no run is open a reply begins, and
      opens the run there is. */
  ghost predicate Story(parts: seq<Part>, block: seq<Insn>, plan: seq<Choice>, runs: Runs, cfg: GateConfig, defer: bool,
                        next: nat) {
    && |runs.mem| == |block| && (forall k :: 0 <= k < |parts| ==> StoryAt(parts, k, block, plan, runs, cfg, defer))
    && EndAt(parts, |parts|) <= next <= |block| && NoneHandled(block, EndAt(parts, |parts|), next)
  }

  ghost predicate StoryAt(parts: seq<Part>, k: nat, block: seq<Insn>, plan: seq<Choice>, runs: Runs, cfg: GateConfig,
                          defer: bool)
    requires k < |parts| && |runs.mem| == |block|
  {
    StoryPart(parts[k], EndAt(parts, k), FlagsAt(parts, k, FRESH), SlotsAt(parts, k), block, plan, runs, cfg, defer)
  }

  /** The part p, when the parts before have come to index i and left c and t. */
  ghost predicate StoryPart(p: Part, i: nat, c: Cache, t: Tracker, block: seq<Insn>, plan: seq<Choice>, runs: Runs,
                            cfg: GateConfig, defer: bool)
    requires |runs.mem| == |block|
  {
    && PartOf(p, block) && block[p.start].Handled() && i <= p.start && NoneHandled(block, i, p.start)
    && (c.run > 0 ==> p.start == i) && p.met == Begins(c, block, runs, p.start)
    && p.slots == (if c.run == 0 then STOCK else t) && Plays(p, block, plan, cfg, defer)
  }

  /** The index that the first k parts have come to. */
  function EndAt(parts: seq<Part>, k: nat): (i: nat)
    requires k <= |parts|
  {
    if k == 0 then 0 else parts[k - 1].end
  }

  /** The flags a dispatch at i finds when the last one left c. */
  function Begins(c: Cache, block: seq<Insn>, runs: Runs, i: nat): (met: Cache)
    requires i < |block| && block[i].Handled() && |runs.mem| == |block|
  {
    if c.run == 0 then c.(run := OpenedRun(block, runs, i)) else c
  }

  /** One more instruction for stock. */
  lemma {:induction false} StoryOn(parts: seq<Part>, block: seq<Insn>, plan: seq<Choice>, runs: Runs, cfg: GateConfig,
                                   defer: bool, i: nat)
    requires i < |block| && Story(parts, block, plan, runs, cfg, defer, i) && !block[i].Handled()
    ensures Story(parts, block, plan, runs, cfg, defer, i + 1)
  {}

  /** One more reply. */
  lemma {:induction false} StoryMore(parts: seq<Part>, more: seq<Part>, block: seq<Insn>, plan: seq<Choice>, runs: Runs,
                                     cfg: GateConfig, defer: bool, i: nat, j: nat)
    requires Story(parts, block, plan, runs, cfg, defer, i) && i < |block| && block[i].Handled()
    requires FlagsAfter(parts, FRESH).run == 0 && Tiling(more, block, i, j) && more != []
    requires Chained(more, block, plan, cfg, defer, Begins(FlagsAfter(parts, FRESH), block, runs, i))
    ensures Story(parts + more, block, plan, runs, cfg, defer, j)
  {
    StoryAll(parts, more, block, plan, runs, cfg, defer, i, j);
    TilingEnds(more, block, i, j);
    TilingAt(more, block, i, j, |more| - 1);
    assert (parts + more)[|parts + more| - 1] == more[|more| - 1];
  }

  lemma {:induction false} StoryAll(parts: seq<Part>, more: seq<Part>, block: seq<Insn>, plan: seq<Choice>, runs: Runs,
                                    cfg: GateConfig, defer: bool, i: nat, j: nat)
    requires Story(parts, block, plan, runs, cfg, defer, i) && i < |block| && block[i].Handled()
    requires FlagsAfter(parts, FRESH).run == 0 && Tiling(more, block, i, j)
    requires Chained(more, block, plan, cfg, defer, Begins(FlagsAfter(parts, FRESH), block, runs, i))
    ensures forall k :: 0 <= k < |parts + more| ==> StoryAt(parts + more, k, block, plan, runs, cfg, defer)
  {
    forall k | 0 <= k < |parts + more| ensures StoryAt(parts + more, k, block, plan, runs, cfg, defer) {
      StoryEach(parts, more, k, block, plan, runs, cfg, defer, i, j);
    }
  }

  lemma {:induction false} StoryEach(parts: seq<Part>, more: seq<Part>, k: nat, block: seq<Insn>, plan: seq<Choice>,
                                     runs: Runs, cfg: GateConfig, defer: bool, i: nat, j: nat)
    requires k < |parts + more| && Story(parts, block, plan, runs, cfg, defer, i) && i < |block| && block[i].Handled()
    requires FlagsAfter(parts, FRESH).run == 0 && Tiling(more, block, i, j)
    requires Chained(more, block, plan, cfg, defer, Begins(FlagsAfter(parts, FRESH), block, runs, i))
    ensures StoryAt(parts + more, k, block, plan, runs, cfg, defer)
  {
    if k < |parts| {
      assert StoryAt(parts, k, block, plan, runs, cfg, defer);
      assert (parts + more)[..|parts|] == parts;
      StoryKept(parts, parts + more, k, block, plan, runs, cfg, defer);
    } else {
      StoryAdded(parts, more, k - |parts|, block, plan, runs, cfg, defer, i, j);
    }
  }

  lemma {:induction false} StoryKept(parts: seq<Part>, all: seq<Part>, k: nat, block: seq<Insn>, plan: seq<Choice>,
                                     runs: Runs, cfg: GateConfig, defer: bool)
    requires k < |parts| <= |all| && parts == all[..|parts|] && |runs.mem| == |block|
    requires StoryAt(parts, k, block, plan, runs, cfg, defer)
    ensures StoryAt(all, k, block, plan, runs, cfg, defer)
  {
    assert all[k] == parts[k] && FlagsAt(all, k, FRESH) == FlagsAt(parts, k, FRESH) && EndAt(all, k) == EndAt(parts, k);
    assert SlotsAt(all, k) == SlotsAt(parts, k);
  }

  lemma {:induction false} StoryAdded(parts: seq<Part>, more: seq<Part>, k: nat, block: seq<Insn>, plan: seq<Choice>,
                                      runs: Runs, cfg: GateConfig, defer: bool, i: nat, j: nat)
    requires k < |more| && Story(parts, block, plan, runs, cfg, defer, i) && i < |block| && block[i].Handled()
    requires FlagsAfter(parts, FRESH).run == 0 && Tiling(more, block, i, j)
    requires Chained(more, block, plan, cfg, defer, Begins(FlagsAfter(parts, FRESH), block, runs, i))
    ensures StoryAt(parts + more, |parts| + k, block, plan, runs, cfg, defer)
  {
    var all, c0 := parts + more, FlagsAfter(parts, FRESH);
    assert all[|parts| + k] == more[k];
    assert ChainedAt(more, k, block, plan, cfg, defer, Begins(c0, block, runs, i));
    TilingAt(more, block, i, j, k);
    if k == 0 {
      assert FlagsAt(all, |parts|, FRESH) == c0 && EndAt(all, |parts|) == EndAt(parts, |parts|);
    } else {
      assert all[|parts| + k - 1] == more[k - 1];
    }
  }

  // ---- the story is the only one ----

  /** What is emitted for a block follows from the block, the plan, the run
      lengths, the gate and the handling of exchanges: two stories agree part by
      part, in flags, slots and operations. */
  lemma {:induction false} StoriesAgree(a: seq<Part>, b: seq<Part>, block: seq<Insn>, plan: seq<Choice>, runs: Runs,
                                        cfg: GateConfig, defer: bool, i: nat, j: nat, k: nat)
    requires Story(a, block, plan, runs, cfg, defer, i) && Story(b, block, plan, runs, cfg, defer, j)
    requires k < |a| && k < |b|
    ensures a[k] == b[k]
  {
    if k > 0 {
      StoriesAgree(a, b, block, plan, runs, cfg, defer, i, j, k - 1);
    }
    HasPart(a, block, plan, runs, cfg, defer, i, k);
    HasPart(b, block, plan, runs, cfg, defer, j, k);
    SameBefore(a, b, k);
    OnlyPart(a[k], b[k], EndAt(a, k), FlagsAt(a, k, FRESH), SlotsAt(a, k), block, plan, runs, cfg, defer);
  }

  lemma HasPart(parts: seq<Part>, block: seq<Insn>, plan: seq<Choice>, runs: Runs, cfg: GateConfig, defer: bool, i: nat,
                k: nat)
    requires Story(parts, block, plan, runs, cfg, defer, i) && k < |parts|
    ensures StoryPart(parts[k], EndAt(parts, k), FlagsAt(parts, k, FRESH), SlotsAt(parts, k), block, plan, runs, cfg,
                      defer)
  {
    assert StoryAt(parts, k, block, plan, runs, cfg, defer);
  }

  lemma SameBefore(a: seq<Part>, b: seq<Part>, k: nat)
    requires k < |a| && k < |b| && (k > 0 ==> a[k - 1] == b[k - 1])
    ensures FlagsAt(a, k, FRESH) == FlagsAt(b, k, FRESH) && EndAt(a, k) == EndAt(b, k) && SlotsAt(a, k) == SlotsAt(b, k)
  {}

  lemma OnlyPart(p: Part, q: Part, i: nat, c: Cache, t: Tracker, block: seq<Insn>, plan: seq<Choice>, runs: Runs,
                 cfg: GateConfig, defer: bool)
    requires |runs.mem| == |block| && StoryPart(p, i, c, t, block, plan, runs, cfg, defer)
    requires StoryPart(q, i, c, t, block, plan, runs, cfg, defer)
    ensures p == q
  {
    SameStart(block, i, p.start, q.start);
    SamePart(p, q, block, plan, cfg, defer);
  }

  lemma SameStart(block: seq<Insn>, i: nat, s: nat, t: nat)
    requires i <= s < |block| && i <= t < |block| && NoneHandled(block, i, s) && NoneHandled(block, i, t)
    requires block[s].Handled() && block[t].Handled()
    ensures s == t
  {}

  lemma SamePart(p: Part, q: Part, block: seq<Insn>, plan: seq<Choice>, cfg: GateConfig, defer: bool)
    requires Plays(p, block, plan, cfg, defer) && Plays(q, block, plan, cfg, defer)
    requires p.start == q.start && p.met == q.met && p.slots == q.slots
    ensures p == q
  {}

  lemma StoryUnique(a: seq<Part>, b: seq<Part>, block: seq<Insn>, plan: seq<Choice>, runs: Runs, cfg: GateConfig,
                    defer: bool)
    requires Story(a, block, plan, runs, cfg, defer, |block|) && Story(b, block, plan, runs, cfg, defer, |block|)
    ensures a == b
  {
    NotLonger(a, b, block, plan, runs, cfg, defer);
    NotLonger(b, a, block, plan, runs, cfg, defer);
    forall k | 0 <= k < |a| ensures a[k] == b[k] {
      StoriesAgree(a, b, block, plan, runs, cfg, defer, |block|, |block|, k);
    }
  }

  lemma {:induction false} NotLonger(a: seq<Part>, b: seq<Part>, block: seq<Insn>, plan: seq<Choice>, runs: Runs,
                                     cfg: GateConfig, defer: bool)
    requires Story(a, block, plan, runs, cfg, defer, |block|) && Story(b, block, plan, runs, cfg, defer, |block|)
    ensures |b| <= |a|
  {
    if |a| < |b| {
      if a != [] {
        StoriesAgree(a, b, block, plan, runs, cfg, defer, |block|, |block|, |a| - 1);
      }
      assert EndAt(b, |a|) == EndAt(a, |a|);
      HasNext(b, block, plan, runs, cfg, defer, |a|);
      assert false;
    }
  }

  lemma {:induction false} HasNext(parts: seq<Part>, block: seq<Insn>, plan: seq<Choice>, runs: Runs, cfg: GateConfig,
                                   defer: bool, k: nat)
    requires Story(parts, block, plan, runs, cfg, defer, |block|) && k < |parts|
    ensures !NoneHandled(block, EndAt(parts, k), |block|)
  {
    assert StoryAt(parts, k, block, plan, runs, cfg, defer);
  }

  lemma {:induction false} TilingAt(parts: seq<Part>, block: seq<Insn>, first: nat, next: nat, k: nat)
    requires Tiling(parts, block, first, next) && k < |parts|
    ensures PartOf(parts[k], block) && parts[k].start == if k == 0 then first else parts[k - 1].end
    decreases |parts|
  {
    var init, p := parts[..|parts| - 1], parts[|parts| - 1];
    if k < |parts| - 1 {
      TilingAt(init, block, first, p.start, k);
    }
  }

  /** What is known when the replies have come to index i. */
  ghost predicate Served(parts: seq<Part>, block: seq<Insn>, defer: bool, ops: seq<Op>, sound: bool, i: nat) {
    && i <= |block| && Stands(ops, block, 0, i, KeptBy(parts)) && sound == !Spoiled(parts, block, defer)
    && (OneByOne(parts) ==> ops == BlockOps(block, 0, i))
  }

  /** The replies of a whole block, as stock asks for them, with stock's own code
      in between.  Unless a dispatch spoils it, the code delivers what the block
      means; and memory alone does when no permutation is pending at the end. */
  method TranslateBlock(block: seq<Insn>, plan: seq<Choice>, deferFxch: bool, runs: Runs, cfg: GateConfig)
    returns (e: Emitter, ghost parts: seq<Part>)
    requires PlanWorks(block, plan) && |runs.mem| == |block|
    ensures fresh(e) && e.Between() && e.cache.run == 0
    ensures Story(parts, block, plan, runs, cfg, deferFxch, |block|)
    ensures e.cache == FlagsAfter(parts, FRESH) && !Track(e.buf).loaded
    ensures e.sound == !Spoiled(parts, block, deferFxch)
    ensures Stands(e.ops, block, 0, |block|, KeptBy(parts)) && (e.sound ==> AtRest(e.cache, e.buf, e.ops))
    ensures OneByOne(parts) ==> e.ops == BlockOps(block, 0, |block|) && KeptBy(parts) == {}
    ensures e.sound ==> Delivers(e.cache, e.buf, block, 0, |block|, KeptBy(parts))
    ensures e.sound && e.cache.perm == Identity() ==> LeavesInMemory(e.buf, block, KeptBy(parts))
  {
    e := new Emitter(deferFxch);
    parts := [];
    var i := 0;
    StandsItself(block, 0, 0, {});
    while i < |block|
      invariant fresh(e) && e.Between() && e.cache.run == 0 && e.deferFxch == deferFxch
      invariant Served(parts, block, deferFxch, e.ops, e.sound, i)
      invariant Story(parts, block, plan, runs, cfg, deferFxch, i) && e.cache == FlagsAfter(parts, FRESH)
      invariant !Track(e.buf).loaded
      decreases |block| - i
    {
      i, parts := AskFor(e, block, plan, i, runs, cfg, parts);
    }
    if OneByOne(parts) {
      OneByOneKeeps(parts);
    }
    if e.sound {
      RestDelivers(e.cache, e.buf, e.ops, block, 0, |block|, KeptBy(parts));
      if e.cache.perm == Identity() {
        NowInMemory(e.cache, e.buf, block, KeptBy(parts));
      }
    }
  }

  /** The code alone leaves in memory what the block means. */
  ghost predicate LeavesInMemory(buf: seq<Step>, block: seq<Insn>, kept: set<nat>) {
    forall m: Machine {:trigger Run(buf, m)} :: ProperBlock(block, 0, |block|, Memory(m), kept) ==>
      Similar(EagerAll(BlockOps(block, 0, |block|), Memory(m)), Memory(Run(buf, m)))
  }

  lemma NowInMemory(c: Cache, buf: seq<Step>, block: seq<Insn>, kept: set<nat>)
    requires AtMostPermuted(c) && c.perm == Identity() && Delivers(c, buf, block, 0, |block|, kept)
    ensures LeavesInMemory(buf, block, kept)
  {
    forall m: Machine | ProperBlock(block, 0, |block|, Memory(m), kept)
      ensures Similar(EagerAll(BlockOps(block, 0, |block|), Memory(m)), Memory(Run(buf, m)))
    {
      assert DeliversAt(c, m, Run(buf, m), block, 0, |block|, kept);
      PlainView(c, Exec(LoadTop, Run(buf, m)));
    }
  }

  lemma {:induction false} Together(a: seq<Part>, b: seq<Part>, block: seq<Insn>, defer: bool)
    ensures Spoiled(a + b, block, defer) <==> Spoiled(a, block, defer) || Spoiled(b, block, defer)
    ensures KeptBy(a + b) == KeptBy(a) + KeptBy(b)
    decreases |b|
  {
    if b == [] {
      assert a + b == a;
    } else {
      assert (a + b)[..|a + b| - 1] == a + b[..|b| - 1];
      Together(a, b[..|b| - 1], block, defer);
    }
  }

  lemma OneByOneTogether(a: seq<Part>, b: seq<Part>)
    requires OneByOne(a + b)
    ensures OneByOne(a) && OneByOne(b)
  {
    forall k | 0 <= k < |a| ensures !a[k].ir && a[k].emit.Single? {
      assert (a + b)[k] == a[k];
    }
    forall k | 0 <= k < |b| ensures !b[k].ir && b[k].emit.Single? {
      assert (a + b)[|a| + k] == b[k];
    }
  }

  lemma {:induction false} OneByOneKeeps(parts: seq<Part>)
    requires OneByOne(parts)
    ensures KeptBy(parts) == {}
    decreases |parts|
  {
    if parts != [] {
      var p := parts[|parts| - 1];
      assert p == parts[|parts| - 1] && p.emit.Single?;
      OneByOneKeeps(parts[..|parts| - 1]);
    }
  }

  /** A reply, or stock's own code for one instruction. */
  lemma ServedMore(parts: seq<Part>, more: seq<Part>, block: seq<Insn>, defer: bool, ops: seq<Op>, ops': seq<Op>,
                   sound: bool, i: nat, j: nat)
    requires Served(parts, block, defer, ops, sound, i) && i <= j <= |block|
    requires Stands(ops', block, i, j, KeptBy(more)) && (OneByOne(more) ==> ops' == BlockOps(block, i, j))
    ensures Served(parts + more, block, defer, ops + ops', sound && !Spoiled(more, block, defer), j)
  {
    var kept := KeptBy(parts + more);
    Together(parts, more, block, defer);
    StandsMore(ops, block, 0, i, KeptBy(parts), kept);
    StandsMore(ops', block, i, j, KeptBy(more), kept);
    StandsThen(ops, ops', block, 0, i, j, kept);
    if OneByOne(parts + more) {
      OneByOneTogether(parts, more);
      BlockSplit(block, 0, i, j, EMPTY, {});
    }
  }

  /** Stock asks at index i. */
  method AskFor(e: Emitter, block: seq<Insn>, plan: seq<Choice>, i: nat, runs: Runs, cfg: GateConfig,
                ghost parts0: seq<Part>)
    returns (next: nat, ghost parts: seq<Part>)
    requires PlanWorks(block, plan) && |runs.mem| == |block| && i < |block|
    requires e.Between() && e.cache.run == 0 && Served(parts0, block, e.deferFxch, e.ops, e.sound, i)
    requires Story(parts0, block, plan, runs, cfg, e.deferFxch, i)
    requires e.cache == FlagsAfter(parts0, FRESH) && !Track(e.buf).loaded
    modifies e
    ensures e.Between() && e.cache.run == 0 && i < next <= |block|
    ensures Served(parts, block, e.deferFxch, e.ops, e.sound, next)
    ensures Story(parts, block, plan, runs, cfg, e.deferFxch, next)
    ensures e.cache == FlagsAfter(parts, FRESH) && !Track(e.buf).loaded
  {
    if block[i].Handled() {
      next, parts := Answer(e, block, plan, i, runs, cfg, parts0);
    } else {
      next, parts := i + 1, parts0;
      LeftToStock(parts0, block, e.deferFxch, e.ops, e.sound, i);
      StoryOn(parts0, block, plan, runs, cfg, e.deferFxch, i);
    }
    NothingKept(e.buf);
    e.Leave();
  }

  lemma LeftToStock(parts: seq<Part>, block: seq<Insn>, defer: bool, ops: seq<Op>, sound: bool, i: nat)
    requires i < |block| && !block[i].Handled() && Served(parts, block, defer, ops, sound, i)
    ensures Served(parts, block, defer, ops, sound, i + 1)
  {
    StandsOne(block, i);
    assert BlockOps(block, i, i + 1) == [] + [];
    ServedMore(parts, [], block, defer, ops, [], sound, i, i + 1);
    assert ops + [] == ops && parts + [] == parts;
  }

  method Answer(e: Emitter, block: seq<Insn>, plan: seq<Choice>, i: nat, runs: Runs, cfg: GateConfig,
                ghost parts0: seq<Part>)
    returns (next: nat, ghost parts: seq<Part>)
    requires PlanWorks(block, plan) && |runs.mem| == |block| && i < |block| && block[i].Handled()
    requires e.Between() && e.cache.run == 0 && Served(parts0, block, e.deferFxch, e.ops, e.sound, i)
    requires Story(parts0, block, plan, runs, cfg, e.deferFxch, i)
    requires e.cache == FlagsAfter(parts0, FRESH)
    modifies e
    ensures e.Between() && e.cache.run == 0 && i < next <= |block|
    ensures Served(parts, block, e.deferFxch, e.ops, e.sound, next)
    ensures Story(parts, block, plan, runs, cfg, e.deferFxch, next)
    ensures e.cache == FlagsAfter(parts, FRESH)
  {
    ghost var more;
    next, more := TranslateReply(e, block, i, plan, runs, cfg);
    parts := parts0 + more;
    ReplyServed(parts0, more, block, e.deferFxch, old(e.ops), old(e.sound), i, next);
    StoryMore(parts0, more, block, plan, runs, cfg, e.deferFxch, i, next);
    assert parts[|parts| - 1] == more[|more| - 1];
  }

  lemma ReplyServed(parts: seq<Part>, more: seq<Part>, block: seq<Insn>, defer: bool, ops: seq<Op>, sound: bool, i: nat,
                    next: nat)
    requires i <= next <= |block| && Served(parts, block, defer, ops, sound, i) && Tiling(more, block, i, next)
    ensures Served(parts + more, block, defer, ops + Output(more), sound && !Spoiled(more, block, defer), next)
  {
    TilingStands(more, block, i, next);
    if OneByOne(more) {
      OneByOneOps(more, block, i, next);
    }
    ServedMore(parts, more, block, defer, ops, Output(more), sound, i, next);
  }
}
