/** When two states of the plain stack are the same to the guest: they agree but
    for the contents of registers tagged empty and of the scratch registers of
    the emitted code, which no guest instruction can see. */
module Agreement {
  import opened X87Stack

  /** The stack registers and scratch registers whose contents matter. */
  datatype Known = Known(slots: set<nat>, regs: set<nat>)

  function Live(x: X87): (s: set<nat>) {
    set s: nat | s < 8 && x.tags[s] != Tag.Empty
  }

  ghost predicate Agree(x: X87, y: X87, k: Known) {
    && x.top == y.top && x.tags == y.tags && x.out == y.out
    && (forall s: nat {:trigger x.st[s]} {:trigger y.st[s]} :: s < 8 && s in k.slots ==> x.st[s] == y.st[s])
    && (forall r: nat {:trigger x.fpr[r]} {:trigger y.fpr[r]} :: r < 32 && r in k.regs ==> x.fpr[r] == y.fpr[r])
  }

  /** The same to the guest. */
  ghost predicate Similar(x: X87, y: X87) {
    Agree(x, y, Known(Live(x), {}))
  }

  /** The operation reads only what is known, and a push finds its register
      empty. */
  predicate Uses(op: Op, x: X87, k: Known) {
    match op
    case Push => x.tags[Slot(x.top, -1)] == Tag.Empty
    case Fxch(d) => Slot(x.top, 0) in k.slots && Slot(x.top, d) in k.slots
    case Load(d, _) => Slot(x.top, d) in k.slots
    case Store(_, r) => r in k.regs
    case Alu(_, a, b, c, _) => a in k.regs && b in k.regs && c in k.regs
    case GuestStore(r) => r in k.regs
    case _ => true
  }

  /** What is known afterwards.  A register just pushed holds nothing yet. */
  function Knows(op: Op, x: X87, k: Known): (k': Known) {
    match op
    case Push => k.(slots := k.slots - {Slot(x.top, -1)})
    case Load(_, r) => k.(regs := k.regs + {r})
    case Const(r, _) => k.(regs := k.regs + {r})
    case Alu(r, _, _, _, _) => k.(regs := k.regs + {r})
    case Store(d, _) => k.(slots := k.slots + {Slot(x.top, d)})
    case _ => k
  }

  /** An operation that uses only what is known cannot tell the states apart. */
  lemma EagerAgrees(op: Op, x: X87, y: X87, k: Known)
    requires Agree(x, y, k) && Uses(op, x, k)
    ensures Agree(Eager(op, x), Eager(op, y), Knows(op, x, k))
  {}

  // ---- sequences ----

  function KnowsAll(ops: seq<Op>, x: X87, k: Known): (k': Known)
    decreases |ops|
  {
    if ops == [] then k
    else
      var init := ops[..|ops| - 1];
      Knows(ops[|ops| - 1], EagerAll(init, x), KnowsAll(init, x, k))
  }

  predicate UsesAll(ops: seq<Op>, x: X87, k: Known)
    decreases |ops|
  {
    ops == [] ||
    var init := ops[..|ops| - 1];
    UsesAll(init, x, k) && Uses(ops[|ops| - 1], EagerAll(init, x), KnowsAll(init, x, k))
  }

  lemma {:induction false} EagerAllAgrees(ops: seq<Op>, x: X87, y: X87, k: Known)
    requires Agree(x, y, k) && UsesAll(ops, x, k)
    ensures Agree(EagerAll(ops, x), EagerAll(ops, y), KnowsAll(ops, x, k))
    decreases |ops|
  {
    if ops != [] {
      var init := ops[..|ops| - 1];
      EagerAllAgrees(init, x, y, k);
      EagerAgrees(ops[|ops| - 1], EagerAll(init, x), EagerAll(init, y), KnowsAll(init, x, k));
    }
  }

  /** One instruction on one state: no stack overflow, no register read that is
      empty, no scratch register read before it is written, and nothing left
      undefined in a register that is tagged in use. */
  predicate Proper(ops: seq<Op>, x: X87) {
    UsesAll(ops, x, Known(Live(x), {})) && Live(EagerAll(ops, x)) <= KnowsAll(ops, x, Known(Live(x), {})).slots
  }

  /** A proper instruction does the same to similar states. */
  lemma ProperSimilar(ops: seq<Op>, x: X87, y: X87)
    requires Similar(x, y) && Proper(ops, x)
    ensures Similar(EagerAll(ops, x), EagerAll(ops, y))
  {
    EagerAllAgrees(ops, x, y, Known(Live(x), {}));
  }

  /** What uses only what is known overflows nowhere. */
  lemma {:induction false} UsesHasRoom(ops: seq<Op>, x: X87, k: Known)
    requires UsesAll(ops, x, k)
    ensures NoOverflow(ops, x)
    decreases |ops|
  {
    if ops != [] {
      UsesHasRoom(ops[..|ops| - 1], x, k);
    }
  }

  lemma SimilarTransitive(x: X87, y: X87, z: X87)
    requires Similar(x, y) && Similar(y, z)
    ensures Similar(x, z)
  {}

  ghost predicate SameTags(x: X87, y: X87) {
    x.top == y.top && x.tags == y.tags
  }

  lemma EagerByTags(op: Op, x: X87, y: X87, k: Known)
    requires SameTags(x, y)
    ensures SameTags(Eager(op, x), Eager(op, y))
    ensures Knows(op, x, k) == Knows(op, y, k) && (Uses(op, x, k) <==> Uses(op, y, k))
  {}

  /** Whether an instruction is proper depends on TOP and the tags alone. */
  lemma {:induction false} ProperByTags(ops: seq<Op>, x: X87, y: X87, k: Known)
    requires SameTags(x, y)
    ensures SameTags(EagerAll(ops, x), EagerAll(ops, y))
    ensures KnowsAll(ops, x, k) == KnowsAll(ops, y, k) && (UsesAll(ops, x, k) <==> UsesAll(ops, y, k))
    decreases |ops|
  {
    if ops != [] {
      var init, op := ops[..|ops| - 1], ops[|ops| - 1];
      ProperByTags(init, x, y, k);
      EagerByTags(op, EagerAll(init, x), EagerAll(init, y), KnowsAll(init, x, k));
    }
  }

  lemma ProperSame(ops: seq<Op>, x: X87, y: X87)
    requires SameTags(x, y)
    ensures Proper(ops, x) <==> Proper(ops, y)
  {
    ProperByTags(ops, x, y, Known(Live(x), {}));
  }
}
