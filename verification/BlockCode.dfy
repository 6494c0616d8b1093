/** From a block of guest instructions to bits in memory: the driver's code,
    lowered to instructions, run on any state of the status word, the tag word,
    the slots and the registers. */
module BlockCode {
  import opened X87Stack
  import opened Agreement
  import opened DeferredState
  import DeferredStack
  import opened Blocks
  import opened RunDriver
  import opened ArmCode
  import opened ReplyCode

  /** Memory holds the architectural state.  The registers may hold anything. */
  ghost predicate Before(s: Full, native: bool, x: X87) {
    && TopBits(s.arm.status) == Imm(x.top) && TagsAre(s.arm.tag, x.tags) && SlotsAre(native, s.arm.file, x.st)
    && s.out == x.out
  }

  /** Memory holds what the guest can see of a state. */
  ghost predicate After(s: Full, native: bool, y: X87) {
    && TopBits(s.arm.status) == Imm(y.top) && TagsAre(s.arm.tag, y.tags) && s.out == y.out
    && forall k: nat {:trigger y.st[k]} :: k < 8 && y.tags[k] != Tag.Empty ==> s.arm.file(Offset(native, k)) == y.st[k]
  }

  /** The machine that memory alone stands for. */
  function Resting(x: X87): (m: Machine)
    ensures Memory(m) == x
  {
    Machine(x.top, x.tags, x.st, x.top, x.fpr, x.out)
  }

  lemma SeenBy(s: Full, m: Machine, native: bool, known: set<nat>, y: X87)
    requires Near(s, m, native, known) && Similar(y, Memory(m))
    ensures After(s, native, y)
  {
    forall k: nat {:trigger y.st[k]} | k < 8 && y.tags[k] != Tag.Empty
      ensures s.arm.file(Offset(native, k)) == y.st[k]
    {
      assert k in Live(y);
      assert m.st[k] == Memory(m).st[k] == y.st[k];
    }
  }

  /** Wherever the block's instructions are proper the code takes memory to what
      the block means. */
  ghost predicate Implements(code: seq<Instr>, block: seq<Insn>, native: bool, kept: set<nat>) {
    forall s: Full, x: X87 {:trigger Before(s, native, x)} ::
      Before(s, native, x) && ProperBlock(block, 0, |block|, x, kept) ==>
        && After(RunFull(code, s), native, EagerAll(BlockOps(block, 0, |block|), x))
        && OtherBits(RunFull(code, s).arm.status) == OtherBits(s.arm.status)
  }

  lemma CodeImplements(code: seq<Instr>, buf: seq<Step>, block: seq<Insn>, top: Reg, native: bool, kept: set<nat>)
    requires DoesAll(code, buf, top, native) && Track(buf).ok && LeavesInMemory(buf, block, kept)
    ensures Implements(code, block, native, kept)
  {
    forall s: Full, x: X87 | Before(s, native, x) && ProperBlock(block, 0, |block|, x, kept)
      ensures After(RunFull(code, s), native, EagerAll(BlockOps(block, 0, |block|), x))
      ensures OtherBits(RunFull(code, s).arm.status) == OtherBits(s.arm.status)
    {
      var m := Resting(x);
      assert DoesAllAt(code, buf, top, native, s, m);
      SeenBy(RunFull(code, s), DeferredState.Run(buf, m), native, Track(buf).known,
             EagerAll(BlockOps(block, 0, |block|), x));
    }
  }

  /** The parts are those that block, plan, runs and gate call for, and unless one of
      them spoils it, or a permutation is still pending at the very end, the steps
      leave in memory what the block means, and so does the code if that of the IR
      does its regions. */
  ghost predicate Carries(parts: seq<Part>, block: seq<Insn>, plan: seq<Choice>, runs: Runs,
                          cfg: DeferredStack.GateConfig, defer: bool, code: seq<Instr>, steps: seq<Step>, flags: Cache,
                          ir: seq<Op> -> seq<Instr>, top: Reg, native: bool) {
    && Story(parts, block, plan, runs, cfg, defer, |block|) && flags == FlagsAfter(parts, FRESH)
    && (OneByOne(parts) ==> KeptBy(parts) == {})
    && (!Spoiled(parts, block, defer) && flags.perm == Identity() ==>
          && LeavesInMemory(steps, block, KeptBy(parts))
          && (IrDoes(steps, ir, top, native) ==> Implements(code, block, native, KeptBy(parts))))
  }

  /** The whole way.  The code for a block of guest instructions, as the driver
      emits it reply by reply, does to memory what the instructions mean. */
  method CodeForBlock(block: seq<Insn>, plan: seq<Choice>, deferFxch: bool, runs: Runs, cfg: DeferredStack.GateConfig,
                      g: Gprs, native: bool, cached: bool, ir: seq<Op> -> seq<Instr>, stock: seq<Instr>)
    returns (code: seq<Instr>, steps: seq<Step>, flags: Cache)
    requires PlanWorks(block, plan) && |runs.mem| == |block|
    requires g.Distinct() && Does(stock, Leave, g.top, native)
    ensures exists parts :: Carries(parts, block, plan, runs, cfg, deferFxch, code, steps, flags, ir, g.top, native)
  {
    var e;
    ghost var parts;
    e, parts := TranslateBlock(block, plan, deferFxch, runs, cfg);
    steps, flags := e.buf, e.cache;
    code := LowerAll(e.buf, g, native, cached, ir, stock);
    if IrDoes(e.buf, ir, g.top, native) && e.sound && e.cache.perm == Identity() {
      CodeImplements(code, e.buf, block, g.top, native, KeptBy(parts));
    }
    assert Carries(parts, block, plan, runs, cfg, deferFxch, code, steps, flags, ir, g.top, native);
  }
}
