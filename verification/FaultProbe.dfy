/** The branch-free write probe for 10- and 108-byte stores (emit_fault_probe in
    Translator.cpp): one halfword of the store is read and written back, chosen
    so that it touches every page the store touches. */
module FaultProbe {
  import opened Bits

  const WRAP: nat := 0x1_0000_0000_0000_0000

  type U64 = x: nat | x < 0x1_0000_0000_0000_0000

  type Byte = b: nat | b < 256

  type Reg = r: nat | r < 32

  /** Register 31 reads as zero. */
  const XZR: Reg := 31

  datatype Ins =
    | AddImm(rd: Reg, rn: Reg, imm: U64)
    | SubImm(rd: Reg, rn: Reg, imm: U64)
    | AddReg(rd: Reg, rn: Reg, rm: Reg)
    | SubReg(rd: Reg, rn: Reg, rm: Reg)
    | AndReg(rd: Reg, rn: Reg, rm: Reg)
    | Ubfm(rd: Reg, rn: Reg, immr: nat, imms: nat)
    | Ldrh(rt: Reg, rn: Reg)
    | Strh(rt: Reg, rn: Reg)

  /** `read` and `written` list the halfwords accessed. */
  datatype RawState = State(x: seq<U64>, mem: nat -> Byte, read: seq<U64>, written: seq<U64>)

  type State = s: RawState | |s.x| == 32 witness State(seq(32, _ => 0), _ => 0, [], [])

  function Get(s: State, r: Reg): (v: U64) {
    if r == XZR then 0 else s.x[r]
  }

  function Set(s: State, r: Reg, v: U64): (s': State) {
    if r == XZR then s else s.(x := s.x[r := v])
  }

  function After(a: U64): (b: U64) {
    (a + 1) % 0x1_0000_0000_0000_0000
  }

  function Field(x: U64, immr: nat, imms: nat): (v: U64) {
    if immr > 63 || imms > 63 then 0
    else if immr <= imms then (x / Pow2(immr)) % Pow2(imms - immr + 1) % 0x1_0000_0000_0000_0000
    else (x % Pow2(imms + 1)) * Pow2(64 - immr) % 0x1_0000_0000_0000_0000
  }

  function Plus(a: U64, b: U64): (c: U64) {
    (a + b) % 0x1_0000_0000_0000_0000
  }

  function Minus(a: U64, b: U64): (c: U64) {
    (a - b) % 0x1_0000_0000_0000_0000
  }

  function Exec(i: Ins, s: State): (s': State) {
    match i
    case AddImm(rd, rn, imm) => Set(s, rd, Plus(Get(s, rn), imm))
    case SubImm(rd, rn, imm) => Set(s, rd, Minus(Get(s, rn), imm))
    case AddReg(rd, rn, rm) => Set(s, rd, Plus(Get(s, rn), Get(s, rm)))
    case SubReg(rd, rn, rm) => Set(s, rd, Minus(Get(s, rn), Get(s, rm)))
    case AndReg(rd, rn, rm) => Set(s, rd, And(Get(s, rn), Get(s, rm)))
    case Ubfm(rd, rn, immr, imms) => Set(s, rd, Field(Get(s, rn), immr, imms))
    case Ldrh(rt, rn) =>
      var a := Get(s, rn);
      Set(s, rt, s.mem(a) + 256 * s.mem(After(a))).(read := s.read + [a])
    case Strh(rt, rn) =>
      var a := Get(s, rn);
      s.(mem := Stored(s.mem, a, Get(s, rt)), written := s.written + [a])
  }

  function Stored(mem: nat -> Byte, a: U64, v: U64): (m: nat -> Byte) {
    o => if o == a then v % 256 else if o == After(a) then v / 256 % 256 else mem(o)
  }

  function Run(code: seq<Ins>, s: State): (s': State) {
    if code == [] then s else Run(code[1..], Exec(code[0], s))
  }

  // ---- the address ----

  function PageOf(a: U64): (v: U64) {
    Field(a, 12, 63)
  }

  function PageStart(page: U64): (v: U64) {
    Field(page, 52, 51)
  }

  /** The halfword the code selects, as it computes it. */
  function Selected(addr: U64, last: U64): (p: U64) {
    Plus(addr, Shifted(addr, PageOf(last), PageOf(addr)))
  }

  lemma Powers(a: nat, b: nat, c: nat)
    requires a == 12 && b == 52 && c == 64
    ensures Pow2(a) == 4096 && Pow2(b) == 0x10_0000_0000_0000 && Pow2(c) == WRAP
  {
    Twelve();
    Product(a, a, 24, 4096, 4096);
    Product(24, 24, 48, 0x100_0000, 0x100_0000);
    Product(48, 4, b, 0x1_0000_0000_0000, 16);
    Product(b, a, c, 0x10_0000_0000_0000, 4096);
  }

  lemma Product(a: nat, b: nat, c: nat, x: nat, y: nat)
    requires c == a + b && Pow2(a) == x && Pow2(b) == y
    ensures Pow2(c) == x * y
  {
    Pow2Sum(a, b);
  }

  lemma Twelve()
    ensures Pow2(4) == 16 && Pow2(12) == 4096
  {
    assert Pow2(8) == 256;
  }

  lemma PageIs(a: U64)
    ensures PageOf(a) == a / 4096
  {
    Powers(12, 52, 64);
  }

  lemma StartIs(page: U64)
    requires page < 0x10_0000_0000_0000
    ensures PageStart(page) == 4096 * page
  {
    Powers(12, 52, 64);
  }

  /** Where the store's last byte is. */
  function Last(addr: U64, bytes: nat): (e: U64)
    requires 1 <= bytes <= 4096
  {
    Plus(addr, bytes - 1)
  }

  /** The halfword begins where the store begins if the store is on one 4 KiB
      page, otherwise on the last byte of the first page. */
  function Begin(addr: U64, bytes: nat): (d: nat) {
    if addr % 4096 + bytes - 1 < 4096 then 0 else 4095 - addr % 4096
  }

  lemma SelectedIs(addr: U64, bytes: nat)
    requires 2 <= bytes <= 4096
    ensures Selected(addr, Last(addr, bytes)) == Plus(addr, Begin(addr, bytes))
  {
    var e, a, o := Last(addr, bytes), addr / 4096, addr % 4096;
    PageIs(addr);
    PageIs(e);
    LastPage(addr, a, o, bytes);
    if o + bytes - 1 >= 4096 {
      if a + 1 < 0x10_0000_0000_0000 {
        Crossing(addr, a, o);
      } else {
        Wrapping(addr, a, o);
      }
    }
  }

  lemma LastPage(addr: U64, a: nat, o: nat, bytes: nat)
    requires addr == 4096 * a + o && o < 4096 && 2 <= bytes <= 4096
    ensures Last(addr, bytes) / 4096 ==
      if o + bytes - 1 < 4096 then a else if a + 1 < 0x10_0000_0000_0000 then a + 1 else 0
  {
    var sum := addr + (bytes - 1);
    if o + bytes - 1 < 4096 {
      assert sum == 4096 * a + (o + bytes - 1);
    } else {
      assert sum == 4096 * (a + 1) + (o + bytes - 1 - 4096);
    }
  }

  function Shifted(addr: U64, page: U64, from: U64): (d: U64) {
    And(Minus(Minus(PageStart(page), addr), 1), Minus(0, Minus(page, from)))
  }

  lemma Crossing(addr: U64, a: nat, o: nat)
    requires addr == 4096 * a + o && o < 4096 && a + 1 < 0x10_0000_0000_0000
    ensures Shifted(addr, a + 1, a) == 4095 - o
  {
    StartIs(a + 1);
    assert Minus(a + 1, a) == 1;
    assert Minus(0, 1) == WRAP - 1;
    Distance(addr, 4096 * (a + 1), 4095 - o);
    Masked(4095 - o, WRAP - 1, 64);
  }

  lemma Distance(addr: U64, start: U64, d: nat)
    requires d < 4096 && (start == addr + d + 1 || start + WRAP == addr + d + 1)
    ensures Minus(Minus(start, addr), 1) == d
  {}

  /** The store runs past the end of the address space. */
  lemma Wrapping(addr: U64, a: nat, o: nat)
    requires addr == 4096 * a + o && o < 4096 && a + 1 == 0x10_0000_0000_0000
    ensures Shifted(addr, 0, a) == 4095 - o
  {
    StartIs(0);
    assert Minus(0, a) == WRAP - a;
    assert Minus(0, WRAP - a) == a;
    Distance(addr, 0, 4095 - o);
    Masked(4095 - o, a, 52);
  }

  lemma Masked(d: nat, mask: nat, n: nat)
    requires d < 4096 && ((n == 52 && mask == 0x10_0000_0000_0000 - 1) || (n == 64 && mask == WRAP - 1))
    ensures And(d, mask) == d
  {
    Powers(12, 52, 64);
    AndMask(d, n);
  }

  // ---- the code ----

  /** Address in xaddr; xend, xc and xval are scratch. */
  datatype Pool = Pool(xaddr: Reg, xend: Reg, xc: Reg, xval: Reg)
  {
    predicate Distinct() {
      && xaddr != XZR && xend != XZR && xc != XZR && xval != XZR
      && xaddr != xend && xaddr != xc && xaddr != xval && xend != xc && xend != xval && xc != xval
    }
  }

  /** The two page numbers. */
  function Pages(p: Pool, bytes: nat): (c: seq<Ins>)
    requires 2 <= bytes <= 4096
  {
    [AddImm(p.xend, p.xaddr, bytes - 1), Ubfm(p.xend, p.xend, 12, 63), Ubfm(p.xc, p.xaddr, 12, 63)]
  }

  /** Their difference, and the last byte before the second page. */
  function Boundary(p: Pool): (c: seq<Ins>) {
    [SubReg(p.xc, p.xend, p.xc), Ubfm(p.xend, p.xend, 52, 51), SubReg(p.xend, p.xend, p.xaddr)]
  }

  function Select(p: Pool): (c: seq<Ins>) {
    [SubImm(p.xend, p.xend, 1), SubReg(p.xc, XZR, p.xc), AndReg(p.xend, p.xend, p.xc)]
  }

  function WriteBack(p: Pool): (c: seq<Ins>) {
    [AddReg(p.xend, p.xaddr, p.xend), Ldrh(p.xval, p.xend), Strh(p.xval, p.xend)]
  }

  function ProbeCode(p: Pool, bytes: nat): (c: seq<Ins>)
    requires 2 <= bytes <= 4096
  {
    (Pages(p, bytes) + Boundary(p)) + (Select(p) + WriteBack(p))
  }

  lemma {:induction false} RunConcat(xs: seq<Ins>, ys: seq<Ins>, s: State)
    ensures Run(xs + ys, s) == Run(ys, Run(xs, s))
  {
    if xs == [] {
      assert xs + ys == ys;
    } else {
      assert (xs + ys)[1..] == xs[1..] + ys;
      RunConcat(xs[1..], ys, Exec(xs[0], s));
    }
  }

  lemma Run3(i: Ins, j: Ins, k: Ins, s: State)
    ensures Run([i, j, k], s) == Exec(k, Exec(j, Exec(i, s)))
  {
    assert [i, j, k][1..] == [j, k] && [j, k][1..] == [k] && [k][1..] == [];
    var t := Exec(j, Exec(i, s));
    assert Run([k], t) == Run([], Exec(k, t)) == Exec(k, t);
    assert Run([j, k], Exec(i, s)) == Run([k], t);
  }

  /** Memory and the address register are as they were. */
  ghost predicate Quiet(s: State, t: State, p: Pool) {
    t.mem == s.mem && t.read == s.read && t.written == s.written && t.x[p.xaddr] == s.x[p.xaddr]
  }

  lemma PagesEffect(s: State, p: Pool, bytes: nat)
    requires p.Distinct() && 2 <= bytes <= 4096
    ensures var t := Run(Pages(p, bytes), s);
      Quiet(s, t, p) && t.x[p.xend] == PageOf(Last(s.x[p.xaddr], bytes)) && t.x[p.xc] == PageOf(s.x[p.xaddr])
  {
    Run3(AddImm(p.xend, p.xaddr, bytes - 1), Ubfm(p.xend, p.xend, 12, 63), Ubfm(p.xc, p.xaddr, 12, 63), s);
  }

  lemma BoundaryEffect(s: State, p: Pool)
    requires p.Distinct()
    ensures var t := Run(Boundary(p), s);
      && Quiet(s, t, p) && t.x[p.xc] == Minus(s.x[p.xend], s.x[p.xc])
      && t.x[p.xend] == Minus(PageStart(s.x[p.xend]), s.x[p.xaddr])
  {
    Run3(SubReg(p.xc, p.xend, p.xc), Ubfm(p.xend, p.xend, 52, 51), SubReg(p.xend, p.xend, p.xaddr), s);
  }

  lemma SelectEffect(s: State, p: Pool)
    requires p.Distinct()
    ensures var t := Run(Select(p), s);
      Quiet(s, t, p) && t.x[p.xend] == And(Minus(s.x[p.xend], 1), Minus(0, s.x[p.xc]))
  {
    Run3(SubImm(p.xend, p.xend, 1), SubReg(p.xc, XZR, p.xc), AndReg(p.xend, p.xend, p.xc), s);
  }

  /** Writing back what was read leaves memory as it was. */
  lemma WriteBackEffect(s: State, p: Pool)
    requires p.Distinct()
    ensures var t, a := Run(WriteBack(p), s), Plus(s.x[p.xaddr], s.x[p.xend]);
      && t.read == s.read + [a] && t.written == s.written + [a] && t.x[p.xaddr] == s.x[p.xaddr]
      && forall o :: t.mem(o) == s.mem(o)
  {
    var a := Plus(s.x[p.xaddr], s.x[p.xend]);
    Run3(AddReg(p.xend, p.xaddr, p.xend), Ldrh(p.xval, p.xend), Strh(p.xval, p.xend), s);
    StoredSame(s.mem, a);
  }

  lemma StoredSame(mem: nat -> Byte, a: U64)
    ensures forall o :: Stored(mem, a, mem(a) + 256 * mem(After(a)))(o) == mem(o)
  {
    assert (mem(a) + 256 * mem(After(a))) / 256 % 256 == mem(After(a));
  }

  /** The code up to the address. */
  lemma SelectedEffect(s: State, p: Pool, bytes: nat)
    requires p.Distinct() && 2 <= bytes <= 4096
    ensures var t, addr := Run(Select(p), Run(Pages(p, bytes) + Boundary(p), s)), s.x[p.xaddr];
      Quiet(s, t, p) && t.x[p.xend] == Shifted(addr, PageOf(Last(addr, bytes)), PageOf(addr))
  {
    var s1 := Run(Pages(p, bytes), s);
    RunConcat(Pages(p, bytes), Boundary(p), s);
    PagesEffect(s, p, bytes);
    BoundaryEffect(s1, p);
    SelectEffect(Run(Boundary(p), s1), p);
  }

  // ---- what it means ----

  /** Bytes b and c are on the same page of size 2^k. */
  predicate SamePage(b: nat, c: nat, k: nat) {
    b / Pow2(k) == c / Pow2(k)
  }

  lemma {:induction false} PagesNest(b: nat, c: nat, k: nat)
    requires k >= 12 && b / 4096 == c / 4096
    ensures SamePage(b, c, k)
  {
    if k == 12 {
      Twelve();
    } else {
      PagesNest(b, c, k - 1);
      Coarser(b, Pow2(k - 1));
      Coarser(c, Pow2(k - 1));
    }
  }

  lemma Coarser(x: nat, p: nat)
    requires p >= 1
    ensures x / (2 * p) == x / p / 2
  {
    var q, r := x / p, x % p;
    assert x == p * q + r;
    assert 2 * p * (q / 2) + p * (q % 2) == p * q;
    assert p * (q % 2) <= p;
    DivModUnique(x, 2 * p, q / 2, p * (q % 2) + r);
  }

  /** The i-th byte of the store. */
  function ByteOf(addr: U64, i: nat): (b: U64) {
    (addr + i) % 0x1_0000_0000_0000_0000
  }

  /** The halfword d bytes into the store lies inside it and is on every page,
      of whatever size from 4 KiB up, that the store is on. */
  ghost predicate Covers(addr: U64, bytes: nat, d: nat) {
    && d + 1 < bytes
    && forall k: nat, i: nat :: k >= 12 && i < bytes ==>
      SamePage(ByteOf(addr, i), ByteOf(addr, d), k) || SamePage(ByteOf(addr, i), ByteOf(addr, d + 1), k)
  }

  lemma BeginCovers(addr: U64, bytes: nat)
    requires 2 <= bytes <= 4096
    ensures Covers(addr, bytes, Begin(addr, bytes))
  {
    var d, o := Begin(addr, bytes), addr % 4096;
    forall k: nat, i: nat | k >= 12 && i < bytes
      ensures SamePage(ByteOf(addr, i), ByteOf(addr, d), k) || SamePage(ByteOf(addr, i), ByteOf(addr, d + 1), k)
    {
      PageOfByte(addr, i);
      PageOfByte(addr, d);
      PageOfByte(addr, d + 1);
      if o + i < 4096 {
        PagesNest(ByteOf(addr, i), ByteOf(addr, d), k);
      } else {
        PagesNest(ByteOf(addr, i), ByteOf(addr, d + 1), k);
      }
    }
  }

  /** A byte's page depends only on whether it is past the first boundary. */
  lemma PageOfByte(addr: U64, i: nat)
    requires i <= 4096
    ensures ByteOf(addr, i) / 4096 ==
      if addr % 4096 + i < 4096 then addr / 4096
      else if addr / 4096 + 1 < 0x10_0000_0000_0000 then addr / 4096 + 1
      else 0
  {
    var a, o := addr / 4096, addr % 4096;
    if o + i < 4096 {
      assert addr + i == 4096 * a + (o + i);
    } else {
      assert addr + i == 4096 * (a + 1) + (o + i - 4096);
    }
  }

  /** The probe, for every address, also one whose store wraps: one halfword is
      read and written, it covers the store, it is the store's first halfword
      unless the store crosses a 4 KiB boundary, and memory is unchanged. */
  lemma ProbeCovers(s: State, p: Pool, bytes: nat)
    requires p.Distinct() && 2 <= bytes <= 4096
    ensures var t, addr, d := Run(ProbeCode(p, bytes), s), s.x[p.xaddr], Begin(s.x[p.xaddr], bytes);
      && t.read == s.read + [ByteOf(addr, d)] && t.written == s.written + [ByteOf(addr, d)]
      && (forall o :: t.mem(o) == s.mem(o))
      && Covers(addr, bytes, d)
      && (SamePage(ByteOf(addr, 0), ByteOf(addr, bytes - 1), 12) ==> d == 0)
  {
    var addr, s1 := s.x[p.xaddr], Run(Pages(p, bytes) + Boundary(p), s);
    RunConcat(Pages(p, bytes) + Boundary(p), Select(p) + WriteBack(p), s);
    RunConcat(Select(p), WriteBack(p), s1);
    SelectedEffect(s, p, bytes);
    SelectedIs(addr, bytes);
    WriteBackEffect(Run(Select(p), s1), p);
    BeginCovers(addr, bytes);
    if SamePage(ByteOf(addr, 0), ByteOf(addr, bytes - 1), 12) {
      FirstUnlessCrossing(addr, bytes);
    }
  }

  lemma FirstUnlessCrossing(addr: U64, bytes: nat)
    requires 2 <= bytes <= 4096 && SamePage(ByteOf(addr, 0), ByteOf(addr, bytes - 1), 12)
    ensures Begin(addr, bytes) == 0
  {
    Twelve();
    PageOfByte(addr, 0);
    PageOfByte(addr, bytes - 1);
  }
}
