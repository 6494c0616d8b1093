/** A block of guest instructions, what it means, and when some operations stand
    for a stretch of it. */
module Blocks {
  import opened X87Stack
  import opened Agreement
  import opened DeferredState

  /** A guest instruction, as the stack operations its emitter performs. */
  datatype Insn =
    | Stack(ops: seq<Op>)   // begins with x87_begin and ends with x87_end
    | Status                // fstsw: neither
    | Foreign               // not an x87 instruction; stock translates it
  {
    predicate Handled() {
      !Foreign?
    }

    /** What the instruction means. */
    function Ops(): (r: seq<Op>)
    {
      match this
      case Stack(ops) => ops
      case Status => [ReadStatus]
      case Foreign => []
    }
  }

  /** The meaning of block[i..j]. */
  function BlockOps(block: seq<Insn>, i: nat, j: nat): (r: seq<Op>)
    requires i <= j <= |block|
    decreases j - i
  {
    if i == j then [] else block[i].Ops() + BlockOps(block, i + 1, j)
  }

  /** Every instruction of block[i..j] is proper on the state it meets, and ST(0)
      is tagged valid at the instructions of `kept`, those at which a fusion
      keeps its tag. */
  predicate ProperBlock(block: seq<Insn>, i: nat, j: nat, x: X87, kept: set<nat>)
    requires i <= j <= |block|
    decreases j - i
  {
    i == j ||
    (&& Proper(block[i].Ops(), x) && (i in kept ==> x.tags[x.top] == Tag.Valid)
     && ProperBlock(block, i + 1, j, EagerAll(block[i].Ops(), x), kept))
  }

  lemma {:induction false} ProperLess(block: seq<Insn>, i: nat, j: nat, x: X87, few: set<nat>, many: set<nat>)
    requires i <= j <= |block| && few <= many && ProperBlock(block, i, j, x, many)
    ensures ProperBlock(block, i, j, x, few)
    decreases j - i
  {
    if i < j {
      ProperLess(block, i + 1, j, EagerAll(block[i].Ops(), x), few, many);
    }
  }

  lemma {:induction false} BlockSplit(block: seq<Insn>, i: nat, k: nat, j: nat, x: X87, kept: set<nat>)
    requires i <= k <= j <= |block|
    ensures BlockOps(block, i, j) == BlockOps(block, i, k) + BlockOps(block, k, j)
    ensures ProperBlock(block, i, j, x, kept) <==>
      ProperBlock(block, i, k, x, kept) && ProperBlock(block, k, j, EagerAll(BlockOps(block, i, k), x), kept)
    decreases k - i
  {
    if i < k {
      var a, b, c := block[i].Ops(), BlockOps(block, i + 1, k), BlockOps(block, k, j);
      BlockSplit(block, i + 1, k, j, EagerAll(a, x), kept);
      assert (a + b) + c == a + (b + c);
      EagerAllConcat(a, b, x);
    }
  }

  /** Similar states stay similar over proper instructions. */
  lemma {:induction false} BlockSimilar(block: seq<Insn>, i: nat, j: nat, x: X87, y: X87, kept: set<nat>)
    requires i <= j <= |block| && Similar(x, y) && ProperBlock(block, i, j, x, kept)
    ensures Similar(EagerAll(BlockOps(block, i, j), x), EagerAll(BlockOps(block, i, j), y))
    ensures ProperBlock(block, i, j, y, kept)
    decreases j - i
  {
    if i < j {
      var a := block[i].Ops();
      ProperSimilar(a, x, y);
      ProperSame(a, x, y);
      BlockSimilar(block, i + 1, j, EagerAll(a, x), EagerAll(a, y), kept);
      EagerAllConcat(a, BlockOps(block, i + 1, j), x);
      EagerAllConcat(a, BlockOps(block, i + 1, j), y);
    }
  }

  /** Proper instructions overflow nowhere. */
  lemma {:induction false} BlockHasRoom(block: seq<Insn>, i: nat, j: nat, x: X87, kept: set<nat>)
    requires i <= j <= |block| && ProperBlock(block, i, j, x, kept)
    ensures NoOverflow(BlockOps(block, i, j), x)
    decreases j - i
  {
    if i < j {
      var a := block[i].Ops();
      UsesHasRoom(a, x, Known(Live(x), {}));
      BlockHasRoom(block, i + 1, j, EagerAll(a, x), kept);
      NoOverflowConcat(a, BlockOps(block, i + 1, j), x);
    }
  }

  /** Wherever the instructions of block[i..j] are proper, the operations do the
      same as far as the guest can tell, and overflow nowhere. */
  ghost predicate Stands(ops: seq<Op>, block: seq<Insn>, i: nat, j: nat, kept: set<nat>)
    requires i <= j <= |block|
  {
    forall x: X87 {:trigger StandsAt(ops, block, i, j, kept, x)} :: StandsAt(ops, block, i, j, kept, x)
  }

  ghost predicate StandsAt(ops: seq<Op>, block: seq<Insn>, i: nat, j: nat, kept: set<nat>, x: X87)
    requires i <= j <= |block|
  {
    ProperBlock(block, i, j, x, kept) ==>
      Similar(EagerAll(BlockOps(block, i, j), x), EagerAll(ops, x)) && NoOverflow(ops, x)
  }

  lemma StandsItself(block: seq<Insn>, i: nat, j: nat, kept: set<nat>)
    requires i <= j <= |block|
    ensures Stands(BlockOps(block, i, j), block, i, j, kept)
  {
    forall x: X87 ensures StandsAt(BlockOps(block, i, j), block, i, j, kept, x) {
      if ProperBlock(block, i, j, x, kept) {
        BlockHasRoom(block, i, j, x, kept);
      }
    }
  }

  lemma StandsOne(block: seq<Insn>, i: nat)
    requires i < |block|
    ensures Stands(block[i].Ops(), block, i, i + 1, {})
  {
    assert BlockOps(block, i, i + 1) == block[i].Ops() + [] == block[i].Ops();
    StandsItself(block, i, i + 1, {});
  }

  /** What stands on fewer conditions stands on more. */
  lemma StandsMore(ops: seq<Op>, block: seq<Insn>, i: nat, j: nat, few: set<nat>, many: set<nat>)
    requires i <= j <= |block| && few <= many && Stands(ops, block, i, j, few)
    ensures Stands(ops, block, i, j, many)
  {
    forall x: X87 ensures StandsAt(ops, block, i, j, many, x) {
      if ProperBlock(block, i, j, x, many) {
        ProperLess(block, i, j, x, few, many);
        assert StandsAt(ops, block, i, j, few, x);
      }
    }
  }

  lemma StandsThen(a: seq<Op>, b: seq<Op>, block: seq<Insn>, i: nat, k: nat, j: nat, kept: set<nat>)
    requires i <= k <= j <= |block| && Stands(a, block, i, k, kept) && Stands(b, block, k, j, kept)
    ensures Stands(a + b, block, i, j, kept)
  {
    forall x: X87 ensures StandsAt(a + b, block, i, j, kept, x) {
      if ProperBlock(block, i, j, x, kept) {
        StandsThenAt(a, b, block, i, k, j, kept, x);
      }
    }
  }

  lemma StandsThenAt(a: seq<Op>, b: seq<Op>, block: seq<Insn>, i: nat, k: nat, j: nat, kept: set<nat>, x: X87)
    requires i <= k <= j <= |block| && Stands(a, block, i, k, kept) && Stands(b, block, k, j, kept)
    requires ProperBlock(block, i, j, x, kept)
    ensures StandsAt(a + b, block, i, j, kept, x)
  {
    var ab, bb := BlockOps(block, i, k), BlockOps(block, k, j);
    BlockSplit(block, i, k, j, x, kept);
    EagerAllConcat(ab, bb, x);
    EagerAllConcat(a, b, x);
    NoOverflowConcat(a, b, x);
    var u, v := EagerAll(ab, x), EagerAll(a, x);
    assert StandsAt(a, block, i, k, kept, x);
    BlockSimilar(block, k, j, u, v, kept);
    assert StandsAt(b, block, k, j, kept, v);
    SimilarTransitive(EagerAll(bb, u), EagerAll(bb, v), EagerAll(b, v));
  }

  predicate AllHandled(block: seq<Insn>, i: nat, j: nat)
    requires i <= j <= |block|
  {
    forall k :: i <= k < j ==> block[k].Handled()
  }

  // ---- scratch registers ----

  /** No operation reads a scratch register before it is written, and none uses
      the two that are free. */
  predicate Tidy(ops: seq<Op>, save: Reg, chain: Reg)
    decreases |ops|
  {
    ops == [] ||
    var init, op := ops[..|ops| - 1], ops[|ops| - 1];
    Tidy(init, save, chain) && Reads(op, HeldAfter(init)) && save !in Holds(op, {}) && chain !in Holds(op, {})
  }

  lemma {:induction false} TidyAt(ops: seq<Op>, save: Reg, chain: Reg, k: nat)
    requires Tidy(ops, save, chain) && k < |ops|
    ensures HeldAfter(ops[..k + 1]) == Holds(ops[k], HeldAfter(ops[..k]))
    ensures Reads(ops[k], HeldAfter(ops[..k])) && save !in Holds(ops[k], {}) && chain !in Holds(ops[k], {})
    decreases |ops|
  {
    var init := ops[..|ops| - 1];
    if k == |ops| - 1 {
      assert ops[..k + 1] == ops;
    } else {
      TidyAt(init, save, chain, k);
      assert init[..k + 1] == ops[..k + 1] && init[..k] == ops[..k];
    }
  }
}
