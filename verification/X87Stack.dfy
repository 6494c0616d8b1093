/** The plain x87 register stack of the Intel SDM Vol. 1: eight data registers
    (section 8.1.2), the TOP pointer of the status word (8.1.3.1) and a tag
    per register (8.1.7).  Every translation in this project is judged against
    this eager machine. */
module X87Stack {

  datatype Tag = Valid | Zero | Special | Empty

  /** The contents of one register; no proof here looks inside it. */
  type Value = nat

  /** `fpr` are the scratch registers of the emitted code and `out` lists what
      was given to the guest: stored values, and the answers of fstsw and fxam. */
  datatype RawX87 = X87(top: nat, tags: seq<Tag>, st: seq<Value>, fpr: seq<Value>, out: seq<nat>)

  type X87 = x: RawX87 | x.top < 8 && |x.tags| == 8 && |x.st| == 8 && |x.fpr| == 32
    witness X87(0, seq(8, _ => Empty), seq(8, _ => 0), seq(32, _ => 0), [])

  /** The physical register `depth` places from TOP. */
  function Slot(top: nat, depth: int): (s: nat)
    ensures s < 8
  {
    (top + depth) % 8
  }

  /** The depth at which physical register `s` is found. */
  function Depth(top: nat, s: nat): (d: nat)
    ensures d < 8
  {
    (s as int - top as int) % 8
  }

  lemma SlotDepth(top: nat, s: nat)
    requires top < 8 && s < 8
    ensures Slot(top, Depth(top, s)) == s
  {}

  lemma DepthSlot(top: nat, d: nat)
    requires top < 8 && d < 8
    ensures Depth(top, Slot(top, d)) == d
  {}

  type Index = d: nat | d < 8

  /** A scratch register of the emitted code. */
  type Reg = r: nat | r < 32

  /** What an emitter does to the stack, in the order it does it. */
  datatype Op =
    | Push
    | Pop
    | PopN(n: nat)
    | Fxch(d: Index)
    | Load(d: Index, r: Reg)               // fpr[r] := ST(d)
    | Store(d: Index, r: Reg)              // ST(d) := fpr[r]
    | Const(r: Reg, v: Value)              // fpr[r] := v, a guest load or a constant
    | Alu(r: Reg, a: Reg, b: Reg, c: Reg, f: (Value, Value, Value) -> Value)
    | GuestStore(r: Reg)                   // fpr[r] goes to guest memory
    | Rotate(delta: Turn)                  // fincstp, fdecstp
    | Free(d: Index)                       // ffree
    | FlushTop
    | FlushTags
    | ReadStatus                           // fstsw stores TOP
    | Examine                              // fxam reads the tag of ST(0)

  type Turn = d: int | d == 1 || d == -1 witness 1

  function TagCode(t: Tag): nat {
    match t case Valid => 0 case Zero => 1 case Special => 2 case Empty => 3
  }

  /** `n` pops tag the registers from TOP upwards empty. */
  function EmptyAbove(tags: seq<Tag>, top: nat, n: nat): (r: seq<Tag>)
    requires |tags| == 8 && top < 8
    ensures |r| == 8
  {
    seq(8, s requires 0 <= s < 8 => if Depth(top, s) < n then Tag.Empty else tags[s])
  }

  function Swap<T>(s: seq<T>, i: nat, j: nat): (r: seq<T>)
    requires i < |s| && j < |s|
    ensures |r| == |s|
  {
    s[i := s[j]][j := s[i]]
  }

  function Eager(op: Op, x: X87): (y: X87)
  {
    match op
    case Push => x.(top := Slot(x.top, -1), tags := x.tags[Slot(x.top, -1) := Tag.Valid])
    case Pop => x.(top := Slot(x.top, 1), tags := x.tags[x.top := Tag.Empty])
    case PopN(n) => x.(top := Slot(x.top, n), tags := EmptyAbove(x.tags, x.top, n))
    case Fxch(d) => x.(st := Swap(x.st, Slot(x.top, 0), Slot(x.top, d)))
    case Load(d, r) => x.(fpr := x.fpr[r := x.st[Slot(x.top, d)]])
    case Store(d, r) => x.(st := x.st[Slot(x.top, d) := x.fpr[r]])
    case Const(r, v) => x.(fpr := x.fpr[r := v])
    case Alu(r, a, b, c, f) => x.(fpr := x.fpr[r := f(x.fpr[a], x.fpr[b], x.fpr[c])])
    case GuestStore(r) => x.(out := x.out + [x.fpr[r]])
    case Rotate(delta) => x.(top := Slot(x.top, delta))
    case Free(d) => x.(tags := x.tags[Slot(x.top, d) := Tag.Empty])
    case FlushTop => x
    case FlushTags => x
    case ReadStatus => x.(out := x.out + [x.top])
    case Examine => x.(out := x.out + [TagCode(x.tags[x.top])])
  }

  function EagerAll(ops: seq<Op>, x: X87): (y: X87)
    decreases |ops|
  {
    if ops == [] then x else Eager(ops[|ops| - 1], EagerAll(ops[..|ops| - 1], x))
  }

  lemma {:induction false} EagerAllConcat(a: seq<Op>, b: seq<Op>, x: X87)
    ensures EagerAll(a + b, x) == EagerAll(b, EagerAll(a, x))
    decreases |b|
  {
    if b == [] {
      assert a + b == a;
    } else {
      var b' := b[..|b| - 1];
      EagerAllConcat(a, b', x);
      assert (a + b)[..|a + b| - 1] == a + b';
    }
  }

  /** No push of `ops` lands on a register still in use (stack overflow). */
  predicate NoOverflow(ops: seq<Op>, x: X87)
    decreases |ops|
  {
    ops == [] ||
    var init := ops[..|ops| - 1];
    NoOverflow(init, x) && HasRoom(ops[|ops| - 1], EagerAll(init, x))
  }

  predicate HasRoom(op: Op, x: X87) {
    op.Push? ==> x.tags[Slot(x.top, -1)] == Tag.Empty
  }

  lemma OneMoreOp(ops: seq<Op>, op: Op, x: X87)
    ensures EagerAll(ops + [op], x) == Eager(op, EagerAll(ops, x))
    ensures NoOverflow(ops + [op], x) <==> NoOverflow(ops, x) && HasRoom(op, EagerAll(ops, x))
  {
    assert (ops + [op])[..|ops + [op]| - 1] == ops;
  }

  lemma {:induction false} NoOverflowConcat(a: seq<Op>, b: seq<Op>, x: X87)
    ensures NoOverflow(a + b, x) <==> NoOverflow(a, x) && NoOverflow(b, EagerAll(a, x))
    decreases |b|
  {
    if b == [] {
      assert a + b == a;
    } else {
      var b' := b[..|b| - 1];
      assert (a + b)[..|a + b| - 1] == a + b';
      NoOverflowConcat(a, b', x);
      EagerAllConcat(a, b', x);
    }
  }
}
