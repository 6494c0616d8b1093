/** The A64 instructions the x87 stack emitters use, on 32-bit registers, the
    status and tag halfwords of X87State and its register file, and the
    abstraction from that state to the machine of DeferredState. */
module ArmCode {
  import opened X87Stack
  import opened DeferredState

  type Half = h: bv32 | h < 0x10000

  /** `file` is the register file by byte offset from the start of X87State;
      `d` are the FP registers. */
  datatype RawArm = Arm(w: seq<bv32>, status: Half, tag: Half, file: bv32 -> Value, d: seq<Value>)

  type Arm = a: RawArm | |a.w| == 32 && |a.d| == 32
    witness Arm(seq(32, _ => 0), 0, 0, _ => 0, seq(32, _ => 0))

  /** What a data-processing instruction computes. */
  datatype Alu =
    | AddImm(rn: Reg, imm: bv32)
    | SubImm(rn: Reg, imm: bv32)
    | AddLsl(rn: Reg, rm: Reg, amount: bv32)
    | AndImm(rn: Reg, imms: bv32)                      // N = 0, immr = 0
    | Ubfm(rn: Reg, immr: bv32, imms: bv32)
    | Bfm(rd: Reg, rn: Reg, immr: bv32, imms: bv32)
    | Movz(imm16: bv32, hw: bv32)
    | Mov(rn: Reg)
    | Lslv(rn: Reg, rm: Reg)
    | Lsrv(rn: Reg, rm: Reg)
    | Bic(rn: Reg, rm: Reg)
    | Orr(rn: Reg, rm: Reg)
    | OrrLsr(rn: Reg, rm: Reg, amount: bv32)

  datatype Ins =
    | Set(rd: Reg, e: Alu)
    | LdrhStatus(rt: Reg)
    | StrhStatus(rt: Reg)
    | LdrhTag(rt: Reg)
    | StrhTag(rt: Reg)
    | LdurBoth(rt: Reg)                                // status and tag as one word
    | SturBoth(rt: Reg)
    | LdrD(dt: Reg, rm: Reg, base: bv32, scaled: bool) // [Xbase + base, Wm {, LSL #3}]
    | StrD(dt: Reg, rm: Reg, base: bv32, scaled: bool)

  function Low(n: bv32): (m: bv32)
  {
    if n >= 32 then 0xFFFFFFFF else ((1 as bv32) << n) - 1
  }

  function UbfmOf(x: bv32, immr: bv32, imms: bv32): (r: bv32)
  {
    if immr > 31 || imms > 31 then 0
    else if immr <= imms then (x >> immr) & Low(imms - immr + 1)
    else (x & Low(imms + 1)) << (32 - immr)
  }

  /** BFI, the only form used: imms < immr. */
  function BfmOf(into: bv32, x: bv32, immr: bv32, imms: bv32): (r: bv32)
  {
    if immr > 31 || imms > 31 || immr <= imms then into
    else
      var lsb := 32 - immr;
      (into & !(Low(imms + 1) << lsb)) | ((x & Low(imms + 1)) << lsb)
  }

  function Shift(x: bv32, n: bv32): (r: bv32) {
    x << (n & 31)
  }

  function ShiftRight(x: bv32, n: bv32): (r: bv32) {
    x >> (n & 31)
  }

  function Lo16(x: bv32): (h: Half) {
    x & 0xFFFF
  }

  function Hi16(x: bv32): (h: Half) {
    x >> 16
  }

  // The operations have names so that equal operands give equal results
  // without looking at their bits.

  function Plus(x: bv32, y: bv32): (r: bv32) {
    x + y
  }

  function Minus(x: bv32, y: bv32): (r: bv32) {
    x - y
  }

  function MaskTo(x: bv32, imms: bv32): (r: bv32) {
    x & Low((imms & 31) + 1)
  }

  function Join(x: bv32, y: bv32): (r: bv32) {
    x | y
  }

  function Clear(x: bv32, y: bv32): (r: bv32) {
    x & !y
  }

  function Halfword(imm16: bv32, hw: bv32): (r: bv32) {
    (imm16 & 0xFFFF) << ((hw & 1) << 4)
  }

  function Eval(e: Alu, w: seq<bv32>): (r: bv32)
    requires |w| == 32
  {
    match e
    case AddImm(rn, imm) => Plus(w[rn], imm)
    case SubImm(rn, imm) => Minus(w[rn], imm)
    case AddLsl(rn, rm, n) => Plus(w[rn], Shift(w[rm], n))
    case AndImm(rn, imms) => MaskTo(w[rn], imms)
    case Ubfm(rn, immr, imms) => UbfmOf(w[rn], immr, imms)
    case Bfm(rd, rn, immr, imms) => BfmOf(w[rd], w[rn], immr, imms)
    case Movz(imm16, hw) => Halfword(imm16, hw)
    case Mov(rn) => w[rn]
    case Lslv(rn, rm) => Shift(w[rn], w[rm])
    case Lsrv(rn, rm) => ShiftRight(w[rn], w[rm])
    case Bic(rn, rm) => Clear(w[rn], w[rm])
    case Orr(rn, rm) => Join(w[rn], w[rm])
    case OrrLsr(rn, rm, n) => Join(w[rn], ShiftRight(w[rm], n))
  }

  function Exec(i: Ins, a: Arm): (a': Arm)
  {
    match i
    case Set(rd, e) => a.(w := a.w[rd := Eval(e, a.w)])
    case LdrhStatus(rt) => a.(w := a.w[rt := a.status])
    case StrhStatus(rt) => a.(status := Lo16(a.w[rt]))
    case LdrhTag(rt) => a.(w := a.w[rt := a.tag])
    case StrhTag(rt) => a.(tag := Lo16(a.w[rt]))
    case LdurBoth(rt) => a.(w := a.w[rt := Join(a.status, Shift(a.tag, 16))])
    case SturBoth(rt) => a.(status := Lo16(a.w[rt]), tag := Hi16(a.w[rt]))
    case LdrD(dt, rm, base, scaled) => a.(d := a.d[dt := a.file(Address(base, a.w[rm], scaled))])
    case StrD(dt, rm, base, scaled) => a.(file := Write(a.file, Address(base, a.w[rm], scaled), a.d[dt]))
  }

  function Address(base: bv32, index: bv32, scaled: bool): (offset: bv32) {
    if scaled then base + (index << 3) else base + index
  }

  function Write(file: bv32 -> Value, offset: bv32, v: Value): (f: bv32 -> Value)
    ensures f(offset) == v && forall o :: o != offset ==> f(o) == file(o)
  {
    o => if o == offset then v else file(o)
  }

  function Run(code: seq<Ins>, a: Arm): (a': Arm)
    decreases |code|
  {
    if code == [] then a else Exec(code[|code| - 1], Run(code[..|code| - 1], a))
  }

  lemma RunStep(code: seq<Ins>, i: Ins, a: Arm)
    ensures Run(code + [i], a) == Exec(i, Run(code, a))
  {
    assert (code + [i])[..|code + [i]| - 1] == code;
  }

  lemma Run2(i0: Ins, i1: Ins, a: Arm)
    ensures Run([i0, i1], a) == Exec(i1, Exec(i0, a))
  {
    Run1(i0, a);
    assert [i0, i1][..1] == [i0];
  }

  lemma Run1(i0: Ins, a: Arm)
    ensures Run([i0], a) == Exec(i0, a)
  {
    assert [i0][..0] == [];
  }

  lemma Run3(i0: Ins, i1: Ins, i2: Ins, a: Arm)
    ensures Run([i0, i1, i2], a) == Exec(i2, Exec(i1, Exec(i0, a)))
  {
    Run2(i0, i1, a);
    assert [i0, i1, i2][..2] == [i0, i1];
  }

  lemma {:induction false} RunConcat(xs: seq<Ins>, ys: seq<Ins>, a: Arm)
    ensures Run(xs + ys, a) == Run(ys, Run(xs, a))
    decreases |ys|
  {
    if ys == [] {
      assert xs + ys == xs;
    } else {
      var y, init := ys[|ys| - 1], ys[..|ys| - 1];
      assert xs + ys == (xs + init) + [y];
      RunConcat(xs, init, a);
      RunStep(xs + init, y, a);
    }
  }

  // ---- small numbers in registers ----

  /** A natural number in a register or an immediate field. */
  function Imm(n: nat): (b: bv32) {
    if n == 0 then 0 else Imm(n - 1) + 1
  }

  lemma {:induction false} ImmSmall(k: nat)
    requires k < 8
    ensures Imm(k) < 8 && (k < 7 <==> Imm(k) < 7)
  {
    assert Imm(1) == 1 && Imm(2) == 2 && Imm(3) == 3 && Imm(4) == 4;
    assert Imm(5) == 5 && Imm(6) == 6 && Imm(7) == 7;
    assert k == 0 || k == 1 || k == 2 || k == 3 || k == 4 || k == 5 || k == 6 || k == 7;
  }

  lemma {:induction false} ImmDiffer(j: nat, k: nat)
    requires j < k < 8
    ensures Imm(j) < Imm(k)
  {
    ImmSmall(k - 1);
    if j < k - 1 {
      ImmDiffer(j, k - 1);
    }
  }

  /** One step up, modulo 8. */
  lemma ImmNext(x: bv32, r: nat)
    requires r < 8 && x & 7 == Imm(r)
    ensures (x + 1) & 7 == Imm((r + 1) % 8)
  {
    ImmSmall(r);
    NextLow(x, Imm(r));
    if r == 7 {
      assert Imm(4) == 4 && Imm(7) == 7;
    }
  }

  lemma NextLow(x: bv32, y: bv32)
    requires x & 7 == y
    ensures (x + 1) & 7 == (y + 1) & 7 && (y < 7 ==> (y + 1) & 7 == y + 1)
  {}

  /** Adding an immediate moves a small number up, modulo 8. */
  lemma {:induction false} ImmUp(j: nat, n: nat)
    requires j < 8
    ensures (Imm(j) + Imm(n)) & 7 == Imm((j + n) % 8)
  {
    if n == 0 {
      ImmSmall(j);
      SmallLow(Imm(j));
    } else {
      var r := (j + n - 1) % 8;
      assert (r + 1) % 8 == (j + n) % 8;
      ImmUp(j, n - 1);
      ImmNext(Imm(j) + Imm(n - 1), r);
      Reassociate(Imm(j), Imm(n - 1));
    }
  }

  lemma SmallLow(x: bv32)
    requires x < 8
    ensures x & 7 == x
  {}

  lemma Reassociate(x: bv32, y: bv32)
    ensures x + (y + 1) == (x + y) + 1
  {}

  /** Subtracting one moves it down. */
  lemma {:induction false} ImmDown(j: nat, n: nat)
    requires j < 8
    ensures (Imm(j) - Imm(n)) & 7 == Imm((j - n) % 8)
  {
    var k := (j - n) % 8;
    ImmUp(k, n);
    assert (k + n) % 8 == j;
    ImmSmall(k);
    ImmSmall(j);
    TakeAway(Imm(k), Imm(n), Imm(j));
  }

  lemma TakeAway(x: bv32, y: bv32, z: bv32)
    requires x < 8 && (x + y) & 7 == z
    ensures (z - y) & 7 == x
  {}

  // ---- what a state stands for ----

  function TagCodeBits(t: Tag): (b: bv32)
  {
    match t case Valid => 0 case Zero => 1 case Special => 2 case Empty => 3
  }

  /** The two tag bits of the register numbered by k. */
  function TagBits(tag: bv32, k: bv32): (b: bv32) {
    ShiftRight(tag, k << 1) & 3
  }

  function TopBits(status: bv32): (b: bv32)
    ensures b < 8
  {
    (status >> 11) & 7
  }

  /** Everything in the status word but TOP. */
  function OtherBits(status: bv32): (b: bv32) {
    status & 0xFFFFC7FF
  }

  /** The byte offset of slot k: stride 8 from 8 in the compact layout, stride
      10 from 6 in Rosetta's native one. */
  function Offset(native: bool, k: nat): (o: bv32) {
    if k == 0 then (if native then 6 else 8)
    else Offset(native, k - 1) + if native then 10 else 8
  }

  /** The same field, two bits at a time. */
  function TagField(tag: bv32, k: nat): (b: bv32) {
    if k == 0 then tag & 3 else TagField(tag >> 2, k - 1)
  }

  lemma {:induction false} FieldIs(tag: bv32, k: nat)
    requires k < 8
    ensures TagField(tag, k) == TagBits(tag, Imm(k))
  {
    if k > 0 {
      FieldIs(tag >> 2, k - 1);
      ImmSmall(k - 1);
      NextField(tag, Imm(k - 1));
    }
  }

  lemma NextField(tag: bv32, k: bv32)
    requires k < 7
    ensures TagBits(tag >> 2, k) == TagBits(tag, k + 1)
  {}

  predicate TagsAre(tag: bv32, tags: seq<Tag>) {
    |tags| == 8 && forall k :: 0 <= k < 8 ==> TagField(tag, k) == TagCodeBits(tags[k])
  }

  ghost predicate SlotsAre(native: bool, file: bv32 -> Value, st: seq<Value>) {
    |st| == 8 && forall k :: 0 <= k < 8 ==> file(Offset(native, k)) == st[k]
  }

  /** Memory and FP registers hold the architectural state.  The general
      registers may hold anything. */
  ghost predicate InMemory(a: Arm, native: bool, x: X87) {
    TopBits(a.status) == Imm(x.top) && TagsAre(a.tag, x.tags) && SlotsAre(native, a.file, x.st) && a.d == x.fpr
  }

  lemma TopOf(x: bv32)
    ensures UbfmOf(x, 11, 13) == TopBits(x)
  {
    assert Low(3) == 7;
  }

  /** The state stands for the machine when `top` is the TOP register. */
  ghost predicate Shows(a: Arm, top: Reg, native: bool, m: Machine) {
    && a.w[top] == Imm(m.regTop) && TopBits(a.status) == Imm(m.memTop)
    && TagsAre(a.tag, m.tags) && SlotsAre(native, a.file, m.st) && a.d == m.fpr
  }

  /** Code that does `steps` to whatever machine the state stands for, and
      leaves the other bits of the status word alone. */
  ghost predicate Means(code: seq<Ins>, top: Reg, native: bool, steps: seq<Step>) {
    forall a: Arm, m: Machine {:trigger Run(code, a), DeferredState.Run(steps, m)} ::
      Refines(a, Run(code, a), top, native, m, DeferredState.Run(steps, m))
  }

  ghost predicate Refines(a: Arm, b: Arm, top: Reg, native: bool, m: Machine, m': Machine) {
    Shows(a, top, native, m) ==> Shows(b, top, native, m') && OtherBits(b.status) == OtherBits(a.status)
  }

  lemma MeansThen(xs: seq<Ins>, ys: seq<Ins>, top: Reg, native: bool, ps: seq<Step>, qs: seq<Step>)
    requires Means(xs, top, native, ps) && Means(ys, top, native, qs)
    ensures Means(xs + ys, top, native, ps + qs)
  {
    forall a: Arm, m: Machine
      ensures Refines(a, Run(xs + ys, a), top, native, m, DeferredState.Run(ps + qs, m))
    {
      RunConcat(xs, ys, a);
      StepsConcat(ps, qs, m);
      var b, n := Run(xs, a), DeferredState.Run(ps, m);
      assert Refines(a, b, top, native, m, n);
      assert Refines(b, Run(ys, b), top, native, n, DeferredState.Run(qs, n));
    }
  }

  lemma MeansNothing(top: Reg, native: bool)
    ensures Means([], top, native, [])
  {}

  lemma {:induction false} StepsConcat(xs: seq<Step>, ys: seq<Step>, m: Machine)
    ensures DeferredState.Run(xs + ys, m) == DeferredState.Run(ys, DeferredState.Run(xs, m))
    decreases |ys|
  {
    if ys == [] {
      assert xs + ys == xs;
    } else {
      var y, init := ys[|ys| - 1], ys[..|ys| - 1];
      assert xs + ys == (xs + init) + [y];
      StepsConcat(xs, init, m);
      DeferredState.RunStep(xs + init, y, m);
    }
  }

  lemma OneStep(step: Step, m: Machine)
    ensures DeferredState.Run([step], m) == DeferredState.Exec(step, m)
  {
    assert [step][..0] == [];
  }

  // ---- every state stands for a machine ----

  function Num(b: bv32): (n: nat)
    ensures n < 8 && (b < 8 ==> Imm(n) == b)
  {
    if b == 0 then 0 else if b == 1 then 1 else if b == 2 then 2 else if b == 3 then 3
    else if b == 4 then 4 else if b == 5 then 5 else if b == 6 then 6 else 7
  }

  function TagFrom(b: bv32): (t: Tag)
    ensures b < 4 ==> TagCodeBits(t) == b
  {
    if b == 0 then Valid else if b == 1 then Zero else if b == 2 then Special else Tag.Empty
  }

  /** Whatever the words and slots hold, with a TOP register below 8 the state
      stands for exactly one machine. */
  lemma ShowsOne(a: Arm, top: Reg, native: bool) returns (m: Machine)
    requires a.w[top] < 8
    ensures Shows(a, top, native, m)
  {
    var tags := seq(8, k requires 0 <= k < 8 => TagFrom(TagBits(a.tag, Imm(k))));
    var st := seq(8, k requires 0 <= k < 8 => a.file(Offset(native, k)));
    m := Machine(Num(TopBits(a.status)), tags, st, Num(a.w[top]), a.d, []);
    forall k | 0 <= k < 8 ensures TagField(a.tag, k) == TagCodeBits(tags[k]) {
      FieldIs(a.tag, k);
      assert TagBits(a.tag, Imm(k)) < 4;
    }
  }
}
