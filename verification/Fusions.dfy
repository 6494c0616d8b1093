/** Peephole fusions (TranslatorX87Fusion.cpp) and the instructions they stand
    for: they skip the push and the pop, so they agree with them only as far as
    the guest can tell. */
module Fusions {
  import opened X87Stack
  import opened Agreement
  import opened Blocks

  // ---- the instructions ----

  type Binary = (Value, Value, Value) -> Value

  /** fld m, or a constant. */
  function Fld(a: Reg, v: Value): (ops: seq<Op>) {
    [Const(a, v), Push, Store(0, a)]
  }

  /** fstp m. */
  function FstpMem(r: Reg): (ops: seq<Op>) {
    [Load(0, r), GuestStore(r), Pop]
  }

  /** fstp st(1). */
  function FstpOne(r: Reg): (ops: seq<Op>) {
    [Load(0, r), Store(1, r), Pop]
  }

  /** f...p st(1), st(0): ST(1) := f(ST(1), ST(0)) and pop. */
  function Arithp(s: Reg, t: Reg, f: Binary): (ops: seq<Op>) {
    [Load(0, s), Load(1, t), Alu(t, t, s, s, f), Store(1, t), Pop]
  }

  /** f... m: ST(0) := f(ST(0), w). */
  function ArithMem(s: Reg, t: Reg, w: Value, f: Binary): (ops: seq<Op>) {
    [Load(0, s), Const(t, w), Alu(s, s, t, t, f), Store(0, s)]
  }

  function FxchOne(): (ops: seq<Op>) {
    [Fxch(1)]
  }

  // ---- evaluation ----

  lemma Then(ops: seq<Op>, op: Op, x: X87)
    ensures EagerAll(ops + [op], x) == Eager(op, EagerAll(ops, x))
  {
    assert (ops + [op])[..|ops + [op]| - 1] == ops;
  }

  lemma Ops1(o1: Op, x: X87)
    ensures EagerAll([o1], x) == Eager(o1, x)
  {
    assert [o1][..0] == [];
  }

  lemma Ops2(o1: Op, o2: Op, x: X87)
    ensures EagerAll([o1, o2], x) == Eager(o2, Eager(o1, x))
  {
    Ops1(o1, x);
    assert [o1, o2] == [o1] + [o2];
    Then([o1], o2, x);
  }

  lemma Ops3(o1: Op, o2: Op, o3: Op, x: X87)
    ensures EagerAll([o1, o2, o3], x) == Eager(o3, Eager(o2, Eager(o1, x)))
  {
    Ops2(o1, o2, x);
    assert [o1, o2, o3] == [o1, o2] + [o3];
    Then([o1, o2], o3, x);
  }

  lemma Ops4(o1: Op, o2: Op, o3: Op, o4: Op, x: X87)
    ensures EagerAll([o1, o2, o3, o4], x) == Eager(o4, Eager(o3, Eager(o2, Eager(o1, x))))
  {
    Ops3(o1, o2, o3, x);
    assert [o1, o2, o3, o4] == [o1, o2, o3] + [o4];
    Then([o1, o2, o3], o4, x);
  }

  lemma Ops5(o1: Op, o2: Op, o3: Op, o4: Op, o5: Op, x: X87)
    ensures EagerAll([o1, o2, o3, o4, o5], x) == Eager(o5, Eager(o4, Eager(o3, Eager(o2, Eager(o1, x)))))
  {
    Ops4(o1, o2, o3, o4, x);
    assert [o1, o2, o3, o4, o5] == [o1, o2, o3, o4] + [o5];
    Then([o1, o2, o3, o4], o5, x);
  }

  lemma {:induction false} UsesAt(ops: seq<Op>, x: X87, k: Known, n: nat)
    requires UsesAll(ops, x, k) && n < |ops|
    ensures Uses(ops[n], EagerAll(ops[..n], x), KnowsAll(ops[..n], x, k))
    decreases |ops|
  {
    var init := ops[..|ops| - 1];
    if n < |ops| - 1 {
      UsesAt(init, x, k, n);
      assert init[..n] == ops[..n];
    }
  }

  /** What the guest can see of a state. */
  ghost predicate Looks(y: X87, top: nat, tags: seq<Tag>, st: seq<Value>, out: seq<nat>) {
    y.top == top && y.tags == tags && y.st == st && y.out == out
  }

  lemma FldLooks(x: X87, a: Reg, v: Value)
    ensures var n := Slot(x.top, -1);
      Looks(EagerAll(Fld(a, v), x), n, x.tags[n := Tag.Valid], x.st[n := v], x.out)
  {
    Ops3(Const(a, v), Push, Store(0, a), x);
    FldState(x, a, v);
  }

  lemma FldState(x: X87, a: Reg, v: Value)
    ensures var n := Slot(x.top, -1);
      Looks(Eager(Store(0, a), Eager(Push, Eager(Const(a, v), x))), n, x.tags[n := Tag.Valid], x.st[n := v], x.out)
  {
    assert Slot(Slot(x.top, -1), 0) == Slot(x.top, -1);
  }

  lemma FldProper(x: X87, a: Reg, v: Value)
    requires Proper(Fld(a, v), x)
    ensures x.tags[Slot(x.top, -1)] == Tag.Empty
  {
    UsesAt(Fld(a, v), x, Known(Live(x), {}), 1);
    assert Fld(a, v)[..1] == [Const(a, v)];
    Ops1(Const(a, v), x);
  }

  lemma LoadsTop(x: X87, r: Reg)
    ensures Eager(Load(0, r), x) == x.(fpr := x.fpr[r := x.st[x.top]])
  {
    assert Slot(x.top, 0) == x.top;
  }

  lemma FstpMemLooks(x: X87, r: Reg)
    ensures Looks(EagerAll(FstpMem(r), x), Slot(x.top, 1), x.tags[x.top := Tag.Empty], x.st, x.out + [x.st[x.top]])
  {
    Ops3(Load(0, r), GuestStore(r), Pop, x);
    FstpMemState(x, r);
  }

  lemma FstpMemState(x: X87, r: Reg)
    ensures Looks(Eager(Pop, Eager(GuestStore(r), Eager(Load(0, r), x))), Slot(x.top, 1), x.tags[x.top := Tag.Empty],
                  x.st, x.out + [x.st[x.top]])
  {
    LoadsTop(x, r);
  }

  lemma FstpOneLooks(x: X87, r: Reg)
    ensures Looks(EagerAll(FstpOne(r), x), Slot(x.top, 1), x.tags[x.top := Tag.Empty],
                  x.st[Slot(x.top, 1) := x.st[x.top]], x.out)
  {
    Ops3(Load(0, r), Store(1, r), Pop, x);
    FstpOneState(x, r);
  }

  lemma FstpOneState(x: X87, r: Reg)
    ensures Looks(Eager(Pop, Eager(Store(1, r), Eager(Load(0, r), x))), Slot(x.top, 1), x.tags[x.top := Tag.Empty],
                  x.st[Slot(x.top, 1) := x.st[x.top]], x.out)
  {
    LoadsTop(x, r);
  }

  lemma ArithpLooks(x: X87, s: Reg, t: Reg, f: Binary)
    requires s != t
    ensures var u, w := x.st[x.top], x.st[Slot(x.top, 1)];
      Looks(EagerAll(Arithp(s, t, f), x), Slot(x.top, 1), x.tags[x.top := Tag.Empty],
            x.st[Slot(x.top, 1) := f(w, u, u)], x.out)
  {
    Ops5(Load(0, s), Load(1, t), Alu(t, t, s, s, f), Store(1, t), Pop, x);
    TwoLoads(x, s, t);
    AluStore(x.(fpr := x.fpr[s := x.st[x.top]][t := x.st[Slot(x.top, 1)]]), t, t, s, f, 1);
  }

  lemma TwoLoads(x: X87, s: Reg, t: Reg)
    ensures Eager(Load(1, t), Eager(Load(0, s), x)) == x.(fpr := x.fpr[s := x.st[x.top]][t := x.st[Slot(x.top, 1)]])
  {
    LoadsTop(x, s);
  }

  lemma AluStore(x: X87, r: Reg, p: Reg, q: Reg, f: Binary, d: Index)
    ensures var v := f(x.fpr[p], x.fpr[q], x.fpr[q]);
      Eager(Store(d, r), Eager(Alu(r, p, q, q, f), x)) == x.(fpr := x.fpr[r := v], st := x.st[Slot(x.top, d) := v])
  {}

  lemma ArithMemLooks(x: X87, s: Reg, t: Reg, w: Value, f: Binary)
    requires s != t
    ensures Looks(EagerAll(ArithMem(s, t, w, f), x), x.top, x.tags, x.st[x.top := f(x.st[x.top], w, w)], x.out)
  {
    Ops4(Load(0, s), Const(t, w), Alu(s, s, t, t, f), Store(0, s), x);
    LoadsTop(x, s);
    AluStore(x.(fpr := x.fpr[s := x.st[x.top]][t := w]), s, s, t, f, 0);
    assert Slot(x.top, 0) == x.top;
  }

  lemma FxchLooks(x: X87)
    ensures Looks(EagerAll(FxchOne(), x), x.top, x.tags, Swap(x.st, x.top, Slot(x.top, 1)), x.out)
  {
    Ops1(Fxch(1), x);
  }

  /** A block of two instructions. */
  lemma Pair(block: seq<Insn>, i: nat, j: nat, x: X87, a: seq<Op>, b: seq<Op>)
    requires j == i + 2 <= |block| && block[i].Ops() == a && block[i + 1].Ops() == b
    ensures EagerAll(BlockOps(block, i, j), x) == EagerAll(b, EagerAll(a, x))
    ensures ProperBlock(block, i, j, x, {}) <==> Proper(a, x) && Proper(b, EagerAll(a, x))
  {
    assert BlockOps(block, i + 1, j) == b + [] == b;
    assert BlockOps(block, i, j) == a + b;
    EagerAllConcat(a, b, x);
    var y := EagerAll(a, x);
    assert ProperBlock(block, j, j, EagerAll(b, y), {});
    assert ProperBlock(block, i + 1, j, y, {}) <==> Proper(b, y);
  }

  lemma DownUp(t: nat)
    requires t < 8
    ensures Slot(Slot(t, -1), 1) == t && Slot(t, -1) != t
  {
    assert Slot(t, -1) == if t == 0 then 7 else t - 1;
  }

  lemma UpDown(t: nat)
    requires t < 8
    ensures Slot(Slot(t, 1), -1) == t
  {
    assert Slot(t, 1) == if t == 7 then 0 else t + 1;
  }

  lemma PushPopTags(x: X87)
    requires x.tags[Slot(x.top, -1)] == Tag.Empty
    ensures x.tags[Slot(x.top, -1) := Tag.Valid][Slot(x.top, -1) := Tag.Empty] == x.tags
  {}

  lemma {:induction false} NoPush(ops: seq<Op>, x: X87)
    requires forall k :: 0 <= k < |ops| ==> !ops[k].Push?
    ensures NoOverflow(ops, x)
    decreases |ops|
  {
    if ops != [] {
      NoPush(ops[..|ops| - 1], x);
    }
  }

  /** A push behind operations that leave TOP and the tags alone. */
  lemma OnePush(ops: seq<Op>, x: X87)
    requires forall k :: 0 <= k < |ops| ==> ops[k].Const? || ops[k].Alu?
    requires x.tags[Slot(x.top, -1)] == Tag.Empty
    ensures NoOverflow(ops + [Push], x)
  {
    NoPush(ops, x);
    SameTop(ops, x);
    OneMoreOp(ops, Push, x);
  }

  lemma {:induction false} SameTop(ops: seq<Op>, x: X87)
    requires forall k :: 0 <= k < |ops| ==> ops[k].Const? || ops[k].Alu?
    ensures SameTags(EagerAll(ops, x), x)
    decreases |ops|
  {
    if ops != [] {
      SameTop(ops[..|ops| - 1], x);
    }
  }

  // ---- the fusions ----

  /** Two states that look the same but for a register tagged empty. */
  lemma LooksSimilar(y: X87, z: X87, top: nat, tags: seq<Tag>, st: seq<Value>, st': seq<Value>, out: seq<nat>, n: nat)
    requires Looks(y, top, tags, st, out) && Looks(z, top, tags, st', out)
    requires n < 8 && tags[n] == Tag.Empty && forall s: nat :: s < 8 && s != n ==> st[s] == st'[s]
    ensures Similar(y, z)
  {}

  lemma ConstArith(x: X87, b: Reg, v: Value, c: Reg, f: Binary)
    requires b != c
    ensures Looks(EagerAll([Const(b, v), Load(0, c), Alu(c, c, b, b, f), Store(0, c)], x), x.top, x.tags,
                  x.st[x.top := f(x.st[x.top], v, v)], x.out)
  {
    Ops4(Const(b, v), Load(0, c), Alu(c, c, b, b, f), Store(0, c), x);
    ConstArithState(x, b, v, c, f);
  }

  lemma ConstArithState(x: X87, b: Reg, v: Value, c: Reg, f: Binary)
    requires b != c
    ensures Looks(Eager(Store(0, c), Eager(Alu(c, c, b, b, f), Eager(Load(0, c), Eager(Const(b, v), x)))),
                  x.top, x.tags, x.st[x.top := f(x.st[x.top], v, v)], x.out)
  {
    LoadsTop(x.(fpr := x.fpr[b := v]), c);
    AluStore(x.(fpr := x.fpr[b := v][c := x.st[x.top]]), c, c, b, f, 0);
    assert Slot(x.top, 0) == x.top;
  }

  /** try_fuse_fld_arithp. */
  lemma FldArithp(block: seq<Insn>, i: nat, j: nat, a: Reg, v: Value, s: Reg, t: Reg, f: Binary, b: Reg, c: Reg)
    requires j == i + 2 <= |block| && s != t && b != c
    requires block[i].Ops() == Fld(a, v) && block[i + 1].Ops() == Arithp(s, t, f)
    ensures Stands([Const(b, v), Load(0, c), Alu(c, c, b, b, f), Store(0, c)], block, i, j, {})
  {
    var fused := [Const(b, v), Load(0, c), Alu(c, c, b, b, f), Store(0, c)];
    forall x: X87 ensures StandsAt(fused, block, i, j, {}, x) {
      if ProperBlock(block, i, j, x, {}) {
        NoPush(fused, x);
        var n, y := Slot(x.top, -1), EagerAll(Fld(a, v), x);
        Pair(block, i, j, x, Fld(a, v), Arithp(s, t, f));
        FldProper(x, a, v);
        FldLooks(x, a, v);
        ArithpLooks(y, s, t, f);
        ConstArith(x, b, v, c, f);
        DownUp(x.top);
        PushPopTags(x);
        var w := f(x.st[x.top], v, v);
        LooksSimilar(EagerAll(Arithp(s, t, f), y), EagerAll(fused, x), x.top, x.tags,
                     x.st[n := v][x.top := w], x.st[x.top := w], x.out, n);
      }
    }
  }

  /** try_fuse_fld_fstp to memory. */
  lemma FldFstpMem(block: seq<Insn>, i: nat, j: nat, a: Reg, v: Value, r: Reg, b: Reg)
    requires j == i + 2 <= |block| && block[i].Ops() == Fld(a, v) && block[i + 1].Ops() == FstpMem(r)
    ensures Stands([Const(b, v), GuestStore(b)], block, i, j, {})
  {
    var fused := [Const(b, v), GuestStore(b)];
    forall x: X87 ensures StandsAt(fused, block, i, j, {}, x) {
      if ProperBlock(block, i, j, x, {}) {
        NoPush(fused, x);
        var n, y := Slot(x.top, -1), EagerAll(Fld(a, v), x);
        Pair(block, i, j, x, Fld(a, v), FstpMem(r));
        FldProper(x, a, v);
        FldLooks(x, a, v);
        FstpMemLooks(y, r);
        CopyLooks(x, b, v);
        DownUp(x.top);
        PushPopTags(x);
        LooksSimilar(EagerAll(FstpMem(r), y), EagerAll(fused, x), x.top, x.tags, x.st[n := v], x.st, x.out + [v], n);
      }
    }
  }

  lemma CopyLooks(x: X87, b: Reg, v: Value)
    ensures Looks(EagerAll([Const(b, v), GuestStore(b)], x), x.top, x.tags, x.st, x.out + [v])
  {
    Ops2(Const(b, v), GuestStore(b), x);
    CopyState(x, b, v);
  }

  lemma CopyState(x: X87, b: Reg, v: Value)
    ensures Looks(Eager(GuestStore(b), Eager(Const(b, v), x)), x.top, x.tags, x.st, x.out + [v])
  {}

  /** try_fuse_fld_fstp to st(1). */
  lemma FldFstpOne(block: seq<Insn>, i: nat, j: nat, a: Reg, v: Value, r: Reg, b: Reg)
    requires j == i + 2 <= |block| && block[i].Ops() == Fld(a, v) && block[i + 1].Ops() == FstpOne(r)
    ensures Stands([Const(b, v), Store(0, b)], block, i, j, {})
  {
    var fused := [Const(b, v), Store(0, b)];
    forall x: X87 ensures StandsAt(fused, block, i, j, {}, x) {
      if ProperBlock(block, i, j, x, {}) {
        NoPush(fused, x);
        var n, y := Slot(x.top, -1), EagerAll(Fld(a, v), x);
        Pair(block, i, j, x, Fld(a, v), FstpOne(r));
        FldProper(x, a, v);
        FldLooks(x, a, v);
        FstpOneLooks(y, r);
        ConstStore(x, b, v);
        DownUp(x.top);
        PushPopTags(x);
        LooksSimilar(EagerAll(FstpOne(r), y), EagerAll(fused, x), x.top, x.tags,
                     x.st[n := v][x.top := v], x.st[x.top := v], x.out, n);
      }
    }
  }

  lemma ConstStore(x: X87, b: Reg, v: Value)
    ensures Looks(EagerAll([Const(b, v), Store(0, b)], x), x.top, x.tags, x.st[x.top := v], x.out)
  {
    Ops2(Const(b, v), Store(0, b), x);
    ConstStoreState(x, b, v);
  }

  lemma ConstStoreState(x: X87, b: Reg, v: Value)
    ensures Looks(Eager(Store(0, b), Eager(Const(b, v), x)), x.top, x.tags, x.st[x.top := v], x.out)
  {
    assert Slot(x.top, 0) == x.top;
  }

  lemma ConstsPush(x: X87, b: Reg, v: Value, c: Reg, w: Value, f: Binary)
    requires b != c
    ensures var n := Slot(x.top, -1);
      Looks(EagerAll([Const(b, v), Const(c, w), Alu(b, b, c, c, f), Push, Store(0, b)], x), n,
            x.tags[n := Tag.Valid], x.st[n := f(v, w, w)], x.out)
  {
    Ops5(Const(b, v), Const(c, w), Alu(b, b, c, c, f), Push, Store(0, b), x);
    ConstsPushState(x, b, v, c, w, f);
  }

  lemma ConstsPushState(x: X87, b: Reg, v: Value, c: Reg, w: Value, f: Binary)
    requires b != c
    ensures var n := Slot(x.top, -1);
      Looks(Eager(Store(0, b), Eager(Push, Eager(Alu(b, b, c, c, f), Eager(Const(c, w), Eager(Const(b, v), x))))), n,
            x.tags[n := Tag.Valid], x.st[n := f(v, w, w)], x.out)
  {
    var g := x.fpr[b := v][c := w];
    assert Eager(Alu(b, b, c, c, f), x.(fpr := g)) == x.(fpr := g[b := f(v, w, w)]) by {
      assert g[b] == v && g[c] == w;
    }
    assert Slot(Slot(x.top, -1), 0) == Slot(x.top, -1);
  }

  /** try_fuse_fld_arith. */
  lemma FldArith(block: seq<Insn>, i: nat, j: nat, a: Reg, v: Value, s: Reg, t: Reg, w: Value, f: Binary, b: Reg,
                 c: Reg)
    requires j == i + 2 <= |block| && s != t && b != c
    requires block[i].Ops() == Fld(a, v) && block[i + 1].Ops() == ArithMem(s, t, w, f)
    ensures Stands([Const(b, v), Const(c, w), Alu(b, b, c, c, f), Push, Store(0, b)], block, i, j, {})
  {
    var fused := [Const(b, v), Const(c, w), Alu(b, b, c, c, f), Push, Store(0, b)];
    forall x: X87 ensures StandsAt(fused, block, i, j, {}, x) {
      if ProperBlock(block, i, j, x, {}) {
        var n, y := Slot(x.top, -1), EagerAll(Fld(a, v), x);
        Pair(block, i, j, x, Fld(a, v), ArithMem(s, t, w, f));
        FldProper(x, a, v);
        OnePush([Const(b, v), Const(c, w), Alu(b, b, c, c, f)], x);
        OneMoreOp([Const(b, v), Const(c, w), Alu(b, b, c, c, f)] + [Push], Store(0, b), x);
        assert fused == [Const(b, v), Const(c, w), Alu(b, b, c, c, f)] + [Push] + [Store(0, b)];
        FldLooks(x, a, v);
        ArithMemLooks(y, s, t, w, f);
        ConstsPush(x, b, v, c, w, f);
        assert x.st[n := v][n := f(v, w, w)] == x.st[n := f(v, w, w)];
        LooksSame(EagerAll(ArithMem(s, t, w, f), y), EagerAll(fused, x), n, x.tags[n := Tag.Valid],
                  x.st[n := f(v, w, w)], x.out);
      }
    }
  }

  lemma LooksSame(y: X87, z: X87, top: nat, tags: seq<Tag>, st: seq<Value>, out: seq<nat>)
    requires Looks(y, top, tags, st, out) && Looks(z, top, tags, st, out)
    ensures Similar(y, z)
  {}

  /** try_fuse_fxch_arithp: the exchange is left out and the operands change
      places, fsubp for fsubrp and so on. */
  lemma FxchArithp(block: seq<Insn>, i: nat, j: nat, s: Reg, t: Reg, f: Binary)
    requires j == i + 2 <= |block| && s != t
    requires block[i].Ops() == FxchOne() && block[i + 1].Ops() == Arithp(s, t, f)
    ensures Stands([Load(0, s), Load(1, t), Alu(t, s, t, t, f), Store(1, t), Pop], block, i, j, {})
  {
    var fused := [Load(0, s), Load(1, t), Alu(t, s, t, t, f), Store(1, t), Pop];
    forall x: X87 ensures StandsAt(fused, block, i, j, {}, x) {
      if ProperBlock(block, i, j, x, {}) {
        NoPush(fused, x);
        var y, u, w := EagerAll(FxchOne(), x), x.st[x.top], x.st[Slot(x.top, 1)];
        Pair(block, i, j, x, FxchOne(), Arithp(s, t, f));
        FxchLooks(x);
        ArithpLooks(y, s, t, f);
        ReversedLooks(x, s, t, f);
        Swapped(x, f(u, w, w));
        LooksSimilar(EagerAll(Arithp(s, t, f), y), EagerAll(fused, x), Slot(x.top, 1), x.tags[x.top := Tag.Empty],
                     Swap(x.st, x.top, Slot(x.top, 1))[Slot(x.top, 1) := f(u, w, w)],
                     x.st[Slot(x.top, 1) := f(u, w, w)], x.out, x.top);
      }
    }
  }

  lemma Swapped(x: X87, v: Value)
    ensures var s, t := Swap(x.st, x.top, Slot(x.top, 1)), Slot(x.top, 1);
      var a, b := s[t := v], x.st[t := v];
      && t != x.top && s[x.top] == x.st[t] && s[t] == x.st[x.top]
      && forall n: nat :: n < 8 && n != x.top ==> a[n] == b[n]
  {
    assert Slot(x.top, 1) == if x.top == 7 then 0 else x.top + 1;
  }

  lemma ReversedLooks(x: X87, s: Reg, t: Reg, f: Binary)
    requires s != t
    ensures var u, w := x.st[x.top], x.st[Slot(x.top, 1)];
      Looks(EagerAll([Load(0, s), Load(1, t), Alu(t, s, t, t, f), Store(1, t), Pop], x), Slot(x.top, 1),
            x.tags[x.top := Tag.Empty], x.st[Slot(x.top, 1) := f(u, w, w)], x.out)
  {
    Ops5(Load(0, s), Load(1, t), Alu(t, s, t, t, f), Store(1, t), Pop, x);
    TwoLoads(x, s, t);
    AluStore(x.(fpr := x.fpr[s := x.st[x.top]][t := x.st[Slot(x.top, 1)]]), t, s, t, f, 1);
  }

  /** try_fuse_fxch_fstp: a pop. */
  lemma FxchFstp(block: seq<Insn>, i: nat, j: nat, r: Reg)
    requires j == i + 2 <= |block| && block[i].Ops() == FxchOne() && block[i + 1].Ops() == FstpOne(r)
    ensures Stands([Pop], block, i, j, {})
  {
    forall x: X87 ensures StandsAt([Pop], block, i, j, {}, x) {
      if ProperBlock(block, i, j, x, {}) {
        NoPush([Pop], x);
        Pair(block, i, j, x, FxchOne(), FstpOne(r));
        FxchLooks(x);
        FstpOneLooks(EagerAll(FxchOne(), x), r);
        Ops1(Pop, x);
      }
    }
  }

  // ---- results that go to memory, and fusions of three ----

  /** f... st(0), st(1). */
  function ArithOne(s: Reg, t: Reg, f: Binary): (ops: seq<Op>) {
    [Load(0, s), Load(1, t), Alu(s, s, t, t, f), Store(0, s)]
  }

  lemma ArithOneLooks(x: X87, s: Reg, t: Reg, f: Binary)
    requires s != t
    ensures var w := x.st[Slot(x.top, 1)];
      Looks(EagerAll(ArithOne(s, t, f), x), x.top, x.tags, x.st[x.top := f(x.st[x.top], w, w)], x.out)
  {
    Ops4(Load(0, s), Load(1, t), Alu(s, s, t, t, f), Store(0, s), x);
    TwoLoads(x, s, t);
    AluStore(x.(fpr := x.fpr[s := x.st[x.top]][t := x.st[Slot(x.top, 1)]]), s, s, t, f, 0);
    assert Slot(x.top, 0) == x.top;
  }

  lemma AluGive(x: X87, r: Reg, p: Reg, q: Reg, f: Binary)
    ensures var v := f(x.fpr[p], x.fpr[q], x.fpr[q]);
      Eager(GuestStore(r), Eager(Alu(r, p, q, q, f), x)) == x.(fpr := x.fpr[r := v], out := x.out + [v])
  {}

  /** A block of three instructions. */
  lemma Triple(block: seq<Insn>, i: nat, j: nat, x: X87, a: seq<Op>, b: seq<Op>, c: seq<Op>)
    requires j == i + 3 <= |block|
    requires block[i].Ops() == a && block[i + 1].Ops() == b && block[i + 2].Ops() == c
    ensures var y := EagerAll(a, x);
      && EagerAll(BlockOps(block, i, j), x) == EagerAll(c, EagerAll(b, y))
      && (ProperBlock(block, i, j, x, {}) <==> Proper(a, x) && Proper(b, y) && Proper(c, EagerAll(b, y)))
  {
    Pair(block, i + 1, j, EagerAll(a, x), b, c);
    assert BlockOps(block, i, j) == a + BlockOps(block, i + 1, j);
    EagerAllConcat(a, BlockOps(block, i + 1, j), x);
  }

  /** try_fuse_arith_fstp: the result goes to memory from its register. */
  lemma ArithFstp(block: seq<Insn>, i: nat, j: nat, s: Reg, t: Reg, w: Value, f: Binary, r: Reg, a: Reg, b: Reg)
    requires j == i + 2 <= |block| && s != t && a != b
    requires block[i].Ops() == ArithMem(s, t, w, f) && block[i + 1].Ops() == FstpMem(r)
    ensures Stands([Load(0, a), Const(b, w), Alu(a, a, b, b, f), GuestStore(a), Pop], block, i, j, {})
  {
    var fused := [Load(0, a), Const(b, w), Alu(a, a, b, b, f), GuestStore(a), Pop];
    forall x: X87 ensures StandsAt(fused, block, i, j, {}, x) {
      if ProperBlock(block, i, j, x, {}) {
        NoPush(fused, x);
        var y, v := EagerAll(ArithMem(s, t, w, f), x), f(x.st[x.top], w, w);
        Pair(block, i, j, x, ArithMem(s, t, w, f), FstpMem(r));
        ArithMemLooks(x, s, t, w, f);
        FstpMemLooks(y, r);
        GivenLooks(x, a, b, w, f);
        LooksSimilar(EagerAll(FstpMem(r), y), EagerAll(fused, x), Slot(x.top, 1), x.tags[x.top := Tag.Empty],
                     x.st[x.top := v], x.st, x.out + [v], x.top);
      }
    }
  }

  lemma GivenLooks(x: X87, a: Reg, b: Reg, w: Value, f: Binary)
    requires a != b
    ensures Looks(EagerAll([Load(0, a), Const(b, w), Alu(a, a, b, b, f), GuestStore(a), Pop], x), Slot(x.top, 1),
                  x.tags[x.top := Tag.Empty], x.st, x.out + [f(x.st[x.top], w, w)])
  {
    Ops5(Load(0, a), Const(b, w), Alu(a, a, b, b, f), GuestStore(a), Pop, x);
    GivenState(x, a, b, w, f);
  }

  lemma GivenState(x: X87, a: Reg, b: Reg, w: Value, f: Binary)
    requires a != b
    ensures Looks(Eager(Pop, Eager(GuestStore(a), Eager(Alu(a, a, b, b, f), Eager(Const(b, w), Eager(Load(0, a), x))))),
                  Slot(x.top, 1), x.tags[x.top := Tag.Empty], x.st, x.out + [f(x.st[x.top], w, w)])
  {
    LoadsTop(x, a);
    AluGive(x.(fpr := x.fpr[a := x.st[x.top]][b := w]), a, a, b, f);
  }

  /** try_fuse_arithp_fstp: both registers are popped and neither is written. */
  lemma ArithpFstp(block: seq<Insn>, i: nat, j: nat, s: Reg, t: Reg, f: Binary, r: Reg, a: Reg, b: Reg)
    requires j == i + 2 <= |block| && s != t && a != b
    requires block[i].Ops() == Arithp(s, t, f) && block[i + 1].Ops() == FstpMem(r)
    ensures Stands([Load(0, a), Load(1, b), Alu(b, b, a, a, f), GuestStore(b), PopN(2)], block, i, j, {})
  {
    var fused := [Load(0, a), Load(1, b), Alu(b, b, a, a, f), GuestStore(b), PopN(2)];
    forall x: X87 ensures StandsAt(fused, block, i, j, {}, x) {
      if ProperBlock(block, i, j, x, {}) {
        NoPush(fused, x);
        var y, n := EagerAll(Arithp(s, t, f), x), Slot(x.top, 1);
        var v := f(x.st[n], x.st[x.top], x.st[x.top]);
        Pair(block, i, j, x, Arithp(s, t, f), FstpMem(r));
        ArithpLooks(x, s, t, f);
        FstpMemLooks(y, r);
        BothGivenLooks(x, a, b, f);
        LooksSimilar(EagerAll(FstpMem(r), y), EagerAll(fused, x), Slot(n, 1),
                     x.tags[x.top := Tag.Empty][n := Tag.Empty],
                     x.st[n := v], x.st, x.out + [v], n);
      }
    }
  }

  lemma BothGivenLooks(x: X87, a: Reg, b: Reg, f: Binary)
    requires a != b
    ensures var n := Slot(x.top, 1);
      Looks(EagerAll([Load(0, a), Load(1, b), Alu(b, b, a, a, f), GuestStore(b), PopN(2)], x), Slot(n, 1),
            x.tags[x.top := Tag.Empty][n := Tag.Empty], x.st, x.out + [f(x.st[n], x.st[x.top], x.st[x.top])])
  {
    Ops5(Load(0, a), Load(1, b), Alu(b, b, a, a, f), GuestStore(b), PopN(2), x);
    TwoLoads(x, a, b);
    AluGive(x.(fpr := x.fpr[a := x.st[x.top]][b := x.st[Slot(x.top, 1)]]), b, b, a, f);
    TwoEmpty(x.tags, x.top);
  }

  lemma TwoEmpty(tags: seq<Tag>, top: nat)
    requires |tags| == 8 && top < 8
    ensures EmptyAbove(tags, top, 2) == tags[top := Tag.Empty][Slot(top, 1) := Tag.Empty]
    ensures Slot(Slot(top, 1), 1) == Slot(top, 2)
  {
    assert Slot(top, 1) == if top == 7 then 0 else top + 1;
  }

  /** try_fuse_fld_arith_fstp: nothing of the three touches a register. */
  lemma FldArithFstp(block: seq<Insn>, i: nat, j: nat, a: Reg, v: Value, s: Reg, t: Reg, f: Binary, r: Reg, b: Reg,
                     c: Reg)
    requires j == i + 3 <= |block| && s != t && b != c
    requires block[i].Ops() == Fld(a, v) && block[i + 1].Ops() == ArithOne(s, t, f) && block[i + 2].Ops() == FstpMem(r)
    ensures Stands([Const(b, v), Load(0, c), Alu(b, b, c, c, f), GuestStore(b)], block, i, j, {})
  {
    var fused := [Const(b, v), Load(0, c), Alu(b, b, c, c, f), GuestStore(b)];
    forall x: X87 ensures StandsAt(fused, block, i, j, {}, x) {
      if ProperBlock(block, i, j, x, {}) {
        NoPush(fused, x);
        var n, u := Slot(x.top, -1), x.st[x.top];
        Triple(block, i, j, x, Fld(a, v), ArithOne(s, t, f), FstpMem(r));
        FldProper(x, a, v);
        PushedArith(x, a, v, s, t, f);
        FstpMemLooks(EagerAll(ArithOne(s, t, f), EagerAll(Fld(a, v), x)), r);
        DownUp(x.top);
        PushPopTags(x);
        ConstGiven(x, b, v, c, f);
        LooksSimilar(EagerAll(FstpMem(r), EagerAll(ArithOne(s, t, f), EagerAll(Fld(a, v), x))), EagerAll(fused, x),
                     x.top, x.tags, x.st[n := f(v, u, u)], x.st, x.out + [f(v, u, u)], n);
      }
    }
  }

  lemma PushedArith(x: X87, a: Reg, v: Value, s: Reg, t: Reg, f: Binary)
    requires s != t
    ensures var n, u := Slot(x.top, -1), x.st[x.top];
      Looks(EagerAll(ArithOne(s, t, f), EagerAll(Fld(a, v), x)), n, x.tags[n := Tag.Valid], x.st[n := f(v, u, u)],
            x.out)
  {
    var n, u, y := Slot(x.top, -1), x.st[x.top], EagerAll(Fld(a, v), x);
    FldLooks(x, a, v);
    ArithOneLooks(y, s, t, f);
    DownUp(x.top);
    assert x.st[n := v][n := f(v, u, u)] == x.st[n := f(v, u, u)];
  }

  lemma ConstGiven(x: X87, b: Reg, v: Value, c: Reg, f: Binary)
    requires b != c
    ensures Looks(EagerAll([Const(b, v), Load(0, c), Alu(b, b, c, c, f), GuestStore(b)], x), x.top, x.tags, x.st,
                  x.out + [f(v, x.st[x.top], x.st[x.top])])
  {
    Ops4(Const(b, v), Load(0, c), Alu(b, b, c, c, f), GuestStore(b), x);
    ConstGivenState(x, b, v, c, f);
  }

  lemma ConstGivenState(x: X87, b: Reg, v: Value, c: Reg, f: Binary)
    requires b != c
    ensures Looks(Eager(GuestStore(b), Eager(Alu(b, b, c, c, f), Eager(Load(0, c), Eager(Const(b, v), x)))),
                  x.top, x.tags, x.st, x.out + [f(v, x.st[x.top], x.st[x.top])])
  {
    LoadsTop(x.(fpr := x.fpr[b := v]), c);
    AluGive(x.(fpr := x.fpr[b := v][c := x.st[x.top]]), b, b, c, f);
  }

  /** try_fuse_fld_arith_arithp, where it does not contract to one rounding. */
  lemma FldArithArithp(block: seq<Insn>, i: nat, j: nat, a: Reg, v: Value, s: Reg, t: Reg, f: Binary, p: Reg, q: Reg,
                       g: Binary, b: Reg, c: Reg)
    requires j == i + 3 <= |block| && s != t && p != q && b != c
    requires block[i].Ops() == Fld(a, v) && block[i + 1].Ops() == ArithOne(s, t, f)
    requires block[i + 2].Ops() == Arithp(p, q, g)
    ensures Stands([Load(0, c), Const(b, v), Alu(b, b, c, c, f), Alu(c, c, b, b, g), Store(0, c)], block, i, j, {})
  {
    var fused := [Load(0, c), Const(b, v), Alu(b, b, c, c, f), Alu(c, c, b, b, g), Store(0, c)];
    forall x: X87 ensures StandsAt(fused, block, i, j, {}, x) {
      if ProperBlock(block, i, j, x, {}) {
        NoPush(fused, x);
        var n, u := Slot(x.top, -1), x.st[x.top];
        var w, y := f(v, u, u), EagerAll(ArithOne(s, t, f), EagerAll(Fld(a, v), x));
        Triple(block, i, j, x, Fld(a, v), ArithOne(s, t, f), Arithp(p, q, g));
        FldProper(x, a, v);
        PushedArith(x, a, v, s, t, f);
        ArithpLooks(y, p, q, g);
        DownUp(x.top);
        PushPopTags(x);
        TwiceLooks(x, b, v, c, f, g);
        LooksSimilar(EagerAll(Arithp(p, q, g), y), EagerAll(fused, x), x.top, x.tags,
                     x.st[n := w][x.top := g(u, w, w)], x.st[x.top := g(u, w, w)], x.out, n);
      }
    }
  }

  lemma TwiceLooks(x: X87, b: Reg, v: Value, c: Reg, f: Binary, g: Binary)
    requires b != c
    ensures var u := x.st[x.top];
      var w := f(v, u, u);
      Looks(EagerAll([Load(0, c), Const(b, v), Alu(b, b, c, c, f), Alu(c, c, b, b, g), Store(0, c)], x), x.top, x.tags,
            x.st[x.top := g(u, w, w)], x.out)
  {
    Ops5(Load(0, c), Const(b, v), Alu(b, b, c, c, f), Alu(c, c, b, b, g), Store(0, c), x);
    TwiceState(x, b, v, c, f, g);
  }

  lemma TwiceState(x: X87, b: Reg, v: Value, c: Reg, f: Binary, g: Binary)
    requires b != c
    ensures var u := x.st[x.top];
      var w := f(v, u, u);
      var y := Eager(Alu(b, b, c, c, f), Eager(Const(b, v), Eager(Load(0, c), x)));
      Looks(Eager(Store(0, c), Eager(Alu(c, c, b, b, g), y)), x.top, x.tags, x.st[x.top := g(u, w, w)], x.out)
  {
    var u := x.st[x.top];
    var w := f(v, u, u);
    LoadsTop(x, c);
    var k := x.fpr[c := u][b := v];
    assert Eager(Alu(b, b, c, c, f), x.(fpr := k)) == x.(fpr := k[b := w]) by {
      assert k[b] == v && k[c] == u;
    }
    AluStore(x.(fpr := k[b := w]), c, c, b, g, 0);
    assert Slot(x.top, 0) == x.top;
  }

  /** try_fuse_fstp_fld keeps the tag of ST(0) where a pop and a push make it
      valid, so it does the same exactly when it was tagged valid before. */
  lemma FstpFld(block: seq<Insn>, i: nat, j: nat, r: Reg, a: Reg, v: Value, b: Reg, x: X87)
    requires j == i + 2 <= |block| && block[i].Ops() == FstpMem(r) && block[i + 1].Ops() == Fld(a, v)
    ensures Similar(EagerAll(BlockOps(block, i, j), x),
                    EagerAll([Load(0, r), GuestStore(r), Const(b, v), Store(0, b)], x)) <==>
      x.tags[x.top] == Tag.Valid
  {
    var y := EagerAll(FstpMem(r), x);
    Pair(block, i, j, x, FstpMem(r), Fld(a, v));
    FstpMemLooks(x, r);
    FldLooks(y, a, v);
    UpDown(x.top);
    StoreFetchLooks(x, r, b, v);
    ByTag(EagerAll(Fld(a, v), y), EagerAll([Load(0, r), GuestStore(r), Const(b, v), Store(0, b)], x), x, v);
  }

  /** As an emission it asks for that tag. */
  lemma FstpFldStands(block: seq<Insn>, i: nat, j: nat, r: Reg, a: Reg, v: Value, b: Reg)
    requires j == i + 2 <= |block| && block[i].Ops() == FstpMem(r) && block[i + 1].Ops() == Fld(a, v)
    ensures Stands([Load(0, r), GuestStore(r), Const(b, v), Store(0, b)], block, i, j, {i})
  {
    var fused := [Load(0, r), GuestStore(r), Const(b, v), Store(0, b)];
    forall x: X87 ensures StandsAt(fused, block, i, j, {i}, x) {
      if ProperBlock(block, i, j, x, {i}) {
        FstpFld(block, i, j, r, a, v, b, x);
        NoPush(fused, x);
      }
    }
  }

  lemma StoreFetchLooks(x: X87, r: Reg, b: Reg, v: Value)
    ensures Looks(EagerAll([Load(0, r), GuestStore(r), Const(b, v), Store(0, b)], x), x.top, x.tags, x.st[x.top := v],
                  x.out + [x.st[x.top]])
  {
    Ops4(Load(0, r), GuestStore(r), Const(b, v), Store(0, b), x);
    StoreFetchState(x, r, b, v);
  }

  lemma StoreFetchState(x: X87, r: Reg, b: Reg, v: Value)
    ensures Looks(Eager(Store(0, b), Eager(Const(b, v), Eager(GuestStore(r), Eager(Load(0, r), x)))), x.top, x.tags,
                  x.st[x.top := v], x.out + [x.st[x.top]])
  {
    LoadsTop(x, r);
    assert Slot(x.top, 0) == x.top;
  }

  lemma ByTag(y: X87, z: X87, x: X87, v: Value)
    requires Looks(y, x.top, x.tags[x.top := Tag.Empty][x.top := Tag.Valid], x.st[x.top := v], x.out + [x.st[x.top]])
    requires Looks(z, x.top, x.tags, x.st[x.top := v], x.out + [x.st[x.top]])
    ensures Similar(y, z) <==> x.tags[x.top] == Tag.Valid
  {
    assert y.tags[x.top] == Tag.Valid && z.tags[x.top] == x.tags[x.top];
    if x.tags[x.top] == Tag.Valid {
      assert y.tags == z.tags;
    }
  }
}
