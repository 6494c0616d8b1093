/** The fused emitters for a lone fld or fstp (TranslatorX87Single.cpp): status
    and tag word are read, changed and written as one 32-bit word. */
module SingleOp {
  import opened X87Stack
  import opened ArmCode
  import opened StackCode
  import opened SlotCode

  /** The scratch registers: the combined word, TOP, the tag mask, the slot
      index and the tag position. */
  datatype Pool = Pool(sw: Reg, top: Reg, mask: Reg, index: Reg, pos: Reg)
  {
    predicate Distinct() {
      && sw != top && sw != mask && sw != index && sw != pos && top != mask && top != index && top != pos
      && mask != index && mask != pos && index != pos
    }
  }

  function Both(status: bv32, tag: bv32): (w: bv32) {
    Join(status, Shift(tag, 16))
  }

  // ---- the combined word ----

  lemma TopInsert(w: bv32, t: bv32)
    ensures BfmOf(w, t, 21, 2) == Insert(w, t)
  {
    assert Low(3) == 7;
  }

  lemma Position(t: bv32)
    requires t < 8
    ensures UbfmOf(t, 31, 30) == t << 1
  {
    assert Low(31) == 0x7FFFFFFF;
  }

  /** SUB #0x800 may borrow past the TOP field; the 3-bit UBFX drops it. */
  lemma Borrow(status: Half, tag: Half)
    ensures UbfmOf(Minus(Both(status, tag), 0x800), 11, 13) == (TopBits(status) - 1) & 7
  {
    TopOf(Minus(Both(status, tag), 0x800));
    RawBorrow(status, tag);
  }

  lemma RawBorrow(status: Half, tag: Half)
    ensures (((status | (tag << 16)) - 0x800) >> 11) & 7 == (((status >> 11) & 7) - 1) & 7
  {}

  lemma TopOfBoth(status: Half, tag: Half)
    ensures UbfmOf(Both(status, tag), 11, 13) == TopBits(status)
  {
    TopOf(Both(status, tag));
  }

  /** TOP in its place in the status word. */
  function Part(t: bv32): (r: bv32) {
    (t & 7) << 11
  }

  function Insert(w: bv32, t: bv32): (r: bv32) {
    Join(OtherBits(w), Part(t))
  }

  // The combined word, half by half: TOP goes to the lower half and the tag
  // mask, which is zero there, to the upper one.

  lemma PushLow(status: Half, tag: Half, t: bv32, mask: bv32)
    requires Lo16(mask) == 0
    ensures Lo16(Clear(Insert(Both(status, tag), t), mask)) == Insert(status, t)
  {
    LowClear(Insert(Both(status, tag), t), mask);
    InsertLow(status, tag, t);
  }

  lemma LowClear(w: bv32, mask: bv32)
    requires Lo16(mask) == 0
    ensures Lo16(Clear(w, mask)) == Lo16(w)
  {
    RawClear(w, mask);
  }

  lemma RawClear(w: bv32, mask: bv32)
    requires mask & 0xFFFF == 0
    ensures (w & !mask) & 0xFFFF == w & 0xFFFF
  {}

  lemma InsertLow(status: Half, tag: Half, t: bv32)
    ensures Lo16(Insert(Both(status, tag), t)) == Insert(status, t)
  {
    LowJoin(OtherBits(Both(status, tag)), Part(t));
    LowOther(Both(status, tag));
    LowPart(t);
    LowBoth(status, tag);
  }

  lemma LowJoin(x: bv32, y: bv32)
    ensures Lo16(Join(x, y)) == Join(Lo16(x), Lo16(y))
  {}

  lemma LowOther(x: bv32)
    ensures Lo16(OtherBits(x)) == OtherBits(Lo16(x))
  {}

  lemma LowPart(t: bv32)
    ensures Lo16(Part(t)) == Part(t)
  {}

  lemma LowBoth(status: Half, tag: Half)
    ensures Lo16(Both(status, tag)) == status
  {}

  lemma PushHigh(status: Half, tag: Half, t: bv32, mask: bv32)
    requires Lo16(mask) == 0
    ensures Hi16(Clear(Insert(Both(status, tag), t), mask)) == Clear(tag, Hi16(mask))
  {
    HighClear(Insert(Both(status, tag), t), mask);
    InsertHigh(Both(status, tag), t);
    HighBoth(status, tag);
  }

  lemma InsertHigh(w: bv32, t: bv32)
    ensures Hi16(Insert(w, t)) == Hi16(w)
  {
    HighJoin(OtherBits(w), Part(t));
    HighOther(w);
    HighPart(t);
    JoinZero(Hi16(w));
  }

  lemma HighClear(x: bv32, y: bv32)
    ensures Hi16(Clear(x, y)) == Clear(Hi16(x), Hi16(y))
  {}

  lemma HighJoin(x: bv32, y: bv32)
    ensures Hi16(Join(x, y)) == Join(Hi16(x), Hi16(y))
  {}

  lemma HighOther(x: bv32)
    ensures Hi16(OtherBits(x)) == Hi16(x)
  {}

  lemma HighPart(t: bv32)
    ensures Hi16(Part(t)) == 0
  {}

  lemma JoinZero(x: bv32)
    ensures Join(x, 0) == x
  {}

  lemma HighBoth(status: Half, tag: Half)
    ensures Hi16(Both(status, tag)) == tag
  {}

  lemma PopLow(status: Half, tag: Half, t: bv32, mask: bv32)
    requires Lo16(mask) == 0
    ensures Lo16(Insert(Join(Both(status, tag), mask), t)) == Insert(status, t)
  {
    var w := Join(Both(status, tag), mask);
    LowJoin(OtherBits(w), Part(t));
    LowOther(w);
    LowPart(t);
    LowJoin(Both(status, tag), mask);
    LowBoth(status, tag);
    JoinZero(status);
  }

  lemma PopHigh(status: Half, tag: Half, t: bv32, mask: bv32)
    requires Lo16(mask) == 0
    ensures Hi16(Insert(Join(Both(status, tag), mask), t)) == Join(tag, Hi16(mask))
  {
    InsertHigh(Join(Both(status, tag), mask), t);
    HighJoin(Both(status, tag), mask);
    HighBoth(status, tag);
  }

  lemma InsertedTop(status: bv32, t: bv32)
    requires t < 8
    ensures TopBits(Insert(status, t)) == t
  {}

  lemma InsertedOther(status: bv32, t: bv32)
    ensures OtherBits(Insert(status, t)) == OtherBits(status)
  {
    OtherOfPart(status, Part(t));
  }

  lemma OtherOfPart(status: bv32, field: bv32)
    requires OtherBits(field) == 0
    ensures OtherBits(Join(OtherBits(status), field)) == OtherBits(status)
  {}

  /** The bits of tag n in the combined word. */
  function UpperMask(n: nat): (mask: bv32) {
    if n == 0 then 0x30000 else UpperMask(n - 1) << 2
  }

  lemma UpperMasks()
    ensures UpperMask(0) == 0x30000 && UpperMask(1) == 0xC0000 && UpperMask(2) == 0x300000 && UpperMask(3) == 0xC00000
    ensures UpperMask(4) == 0x3000000 && UpperMask(5) == 0xC000000 && UpperMask(6) == 0x30000000
    ensures UpperMask(7) == 0xC0000000
  {}

  lemma UpperMaskIs(n: nat)
    requires n < 8
    ensures UpperMask(n) == Shift(0x30000, Imm(n) << 1)
    ensures Lo16(UpperMask(n)) == 0 && Hi16(UpperMask(n)) == FieldMask(n)
  {
    UpperMasks();
    FieldMasks();
    Numbers();
    assert n == 0 || n == 1 || n == 2 || n == 3 || n == 4 || n == 5 || n == 6 || n == 7;
  }

  lemma ClearBits(x: bv32, k: bv32, j: bv32)
    requires k < 8 && j < 8
    ensures TagBits(Clear(x, Shift(3, k << 1)), j) == if j == k then 0 else TagBits(x, j)
  {}

  lemma ClearAt(x: bv32, mask: bv32, n: nat, k: nat)
    requires n < 8 && k < 8 && mask == Shift(3, Imm(n) << 1)
    ensures TagBits(Clear(x, mask), Imm(k)) == if k == n then 0 else TagBits(x, Imm(k))
  {
    ImmSame(n, k);
    ClearBits(x, Imm(n), Imm(k));
  }

  lemma ClearTags(x: bv32, mask: bv32, tags: seq<Tag>, n: nat)
    requires n < 8 && TagsAre(x, tags) && mask == Shift(3, Imm(n) << 1)
    ensures TagsAre(Clear(x, mask), tags[n := Tag.Valid])
  {
    var to := tags[n := Tag.Valid];
    forall k | 0 <= k < 8 ensures TagField(Clear(x, mask), k) == TagCodeBits(to[k]) {
      FieldIs(Clear(x, mask), k);
      FieldIs(x, k);
      ClearAt(x, mask, n, k);
    }
  }

  lemma ClearMaskTags(x: bv32, mask: bv32, tags: seq<Tag>, n: nat)
    requires n < 8 && TagsAre(x, tags) && mask == FieldMask(n)
    ensures TagsAre(Clear(x, mask), tags[n := Tag.Valid])
  {
    FieldMaskIs(n);
    ClearTags(x, mask, tags, n);
  }

  // ---- fld ----

  /** fld m32/m64 after the operand is in Dd: two words in, one out. */
  function FldHead(p: Pool): (c: seq<Ins>) {
    [LdurBoth(p.sw), Set(p.mask, Movz(3, 1)), Set(p.top, SubImm(p.sw, 0x800))]
  }

  function FldIndex(p: Pool): (c: seq<Ins>) {
    [Set(p.top, Ubfm(p.top, 11, 13)), Set(p.index, AddImm(p.top, 1)), Set(p.pos, Ubfm(p.top, 31, 30))]
  }

  function FldStore(p: Pool, dd: Reg): (c: seq<Ins>) {
    [Set(p.sw, Bfm(p.sw, p.top, 21, 2)), Set(p.mask, Lslv(p.mask, p.pos)), StrD(dd, p.index, 0, true)]
  }

  function FldTail(p: Pool): (c: seq<Ins>) {
    [Set(p.sw, Bic(p.sw, p.mask)), SturBoth(p.sw)]
  }

  function FldCode(p: Pool, dd: Reg): (c: seq<Ins>) {
    FldHead(p) + FldIndex(p) + FldStore(p, dd) + FldTail(p)
  }

  /** Memory and the FP registers are as they were. */
  ghost predicate Quiet(a: Arm, b: Arm) {
    b.status == a.status && b.tag == a.tag && b.file == a.file && b.d == a.d
  }

  lemma RunSet(a: Arm, rd: Reg, e: Alu, v: bv32)
    requires Eval(e, a.w) == v
    ensures ArmCode.Exec(Set(rd, e), a) == a.(w := a.w[rd := v])
  {}

  lemma FldHeadEffect(a: Arm, p: Pool)
    requires p.Distinct()
    ensures var b := ArmCode.Run(FldHead(p), a);
      && Quiet(a, b) && b.w[p.sw] == Both(a.status, a.tag) && b.w[p.mask] == 0x30000
      && b.w[p.top] == Minus(Both(a.status, a.tag), 0x800)
  {
    var v := Both(a.status, a.tag);
    var a1 := a.(w := a.w[p.sw := v]);
    var a2 := a1.(w := a1.w[p.mask := 0x30000]);
    assert ArmCode.Exec(LdurBoth(p.sw), a) == a1;
    MovzSeed();
    RunSet(a1, p.mask, Movz(3, 1), 0x30000);
    RunSet(a2, p.top, SubImm(p.sw, 0x800), Minus(v, 0x800));
    Run3(LdurBoth(p.sw), Set(p.mask, Movz(3, 1)), Set(p.top, SubImm(p.sw, 0x800)), a);
  }

  lemma MovzSeed()
    ensures Halfword(3, 1) == 0x30000
  {}

  lemma FldIndexEffect(a: Arm, p: Pool)
    requires p.Distinct() && UbfmOf(a.w[p.top], 11, 13) < 8
    ensures var b, t := ArmCode.Run(FldIndex(p), a), UbfmOf(a.w[p.top], 11, 13);
      && Quiet(a, b) && b.w[p.sw] == a.w[p.sw] && b.w[p.mask] == a.w[p.mask]
      && b.w[p.top] == t && b.w[p.index] == Plus(t, 1) && b.w[p.pos] == t << 1
  {
    Run3(Set(p.top, Ubfm(p.top, 11, 13)), Set(p.index, AddImm(p.top, 1)), Set(p.pos, Ubfm(p.top, 31, 30)), a);
    Position(UbfmOf(a.w[p.top], 11, 13));
  }

  lemma FldStoreEffect(a: Arm, p: Pool, dd: Reg)
    requires p.Distinct()
    ensures var b := ArmCode.Run(FldStore(p, dd), a);
      && b.status == a.status && b.tag == a.tag && b.d == a.d
      && b.file == Write(a.file, Address(0, a.w[p.index], true), a.d[dd])
      && b.w[p.sw] == Insert(a.w[p.sw], a.w[p.top]) && b.w[p.mask] == Shift(a.w[p.mask], a.w[p.pos])
  {
    var i0, i1, i2 := Set(p.sw, Bfm(p.sw, p.top, 21, 2)), Set(p.mask, Lslv(p.mask, p.pos)), StrD(dd, p.index, 0, true);
    var v, m := Insert(a.w[p.sw], a.w[p.top]), Shift(a.w[p.mask], a.w[p.pos]);
    TopInsert(a.w[p.sw], a.w[p.top]);
    RunSet(a, p.sw, Bfm(p.sw, p.top, 21, 2), v);
    RunSet(a.(w := a.w[p.sw := v]), p.mask, Lslv(p.mask, p.pos), m);
    Run3(i0, i1, i2, a);
  }

  lemma FldTailEffect(a: Arm, p: Pool)
    requires p.Distinct()
    ensures var b, w := ArmCode.Run(FldTail(p), a), Clear(a.w[p.sw], a.w[p.mask]);
      b.status == Lo16(w) && b.tag == Hi16(w) && b.file == a.file && b.d == a.d
  {
    var v := Clear(a.w[p.sw], a.w[p.mask]);
    assert Eval(Bic(p.sw, p.mask), a.w) == v;
    var a1 := ArmCode.Exec(Set(p.sw, Bic(p.sw, p.mask)), a);
    assert a1.w[p.sw] == v;
    Run2(Set(p.sw, Bic(p.sw, p.mask)), SturBoth(p.sw), a);
  }

  /** Both loads, and the numbers computed from them. */
  lemma FldStarts(a: Arm, p: Pool, t: bv32)
    requires p.Distinct() && t == (TopBits(a.status) - 1) & 7
    ensures var b := ArmCode.Run(FldHead(p) + FldIndex(p), a);
      && Quiet(a, b) && b.w[p.sw] == Both(a.status, a.tag) && b.w[p.mask] == 0x30000
      && b.w[p.top] == t && b.w[p.index] == Plus(t, 1) && b.w[p.pos] == t << 1
  {
    var a1 := ArmCode.Run(FldHead(p), a);
    RunConcat(FldHead(p), FldIndex(p), a);
    FldHeadEffect(a, p);
    assert UbfmOf(a1.w[p.top], 11, 13) == t && t < 8 by {
      Borrow(a.status, a.tag);
    }
    FldIndexEffect(a1, p);
  }

  /** The slot store and the single write-back. */
  lemma FldEnds(a: Arm, p: Pool, dd: Reg)
    requires p.Distinct()
    ensures var b := ArmCode.Run(FldStore(p, dd) + FldTail(p), a);
      var w := Clear(Insert(a.w[p.sw], a.w[p.top]), Shift(a.w[p.mask], a.w[p.pos]));
      && b.status == Lo16(w) && b.tag == Hi16(w) && b.d == a.d
      && b.file == Write(a.file, Address(0, a.w[p.index], true), a.d[dd])
  {
    RunConcat(FldStore(p, dd), FldTail(p), a);
    FldStoreEffect(a, p, dd);
    FldTailEffect(ArmCode.Run(FldStore(p, dd), a), p);
  }

  /** The whole of fld, with n the number of the register pushed into. */
  lemma FldEffect(a: Arm, p: Pool, dd: Reg, n: nat)
    requires p.Distinct() && n < 8 && Imm(n) == (TopBits(a.status) - 1) & 7
    ensures var b, w := ArmCode.Run(FldCode(p, dd), a), Clear(Insert(Both(a.status, a.tag), Imm(n)), UpperMask(n));
      && b.status == Lo16(w) && b.tag == Hi16(w) && b.d == a.d
      && b.file == Write(a.file, Address(0, Plus(Imm(n), 1), true), a.d[dd])
  {
    var head, tail := FldHead(p) + FldIndex(p), FldStore(p, dd) + FldTail(p);
    assert FldCode(p, dd) == head + tail;
    RunConcat(head, tail, a);
    var b := ArmCode.Run(head, a);
    FldStarts(a, p, Imm(n));
    assert Shift(b.w[p.mask], b.w[p.pos]) == UpperMask(n) by {
      UpperMaskIs(n);
    }
    FldEnds(b, p, dd);
  }

  lemma TwoOps(p: Op, q: Op, x: X87)
    ensures EagerAll([p, q], x) == Eager(q, Eager(p, x))
  {
    OneMoreOp([], p, x);
    OneMoreOp([p], q, x);
    assert [p] + [q] == [p, q] && [] + [p] == [p];
  }

  lemma PushStore(x: X87, dd: Reg)
    ensures var n := Slot(x.top, -1);
      EagerAll([Push, Store(0, dd)], x) == x.(top := n, tags := x.tags[n := Tag.Valid], st := x.st[n := x.fpr[dd]])
  {
    var n := Slot(x.top, -1);
    TwoOps(Push, Store(0, dd), x);
    StoreAtTop(x.(top := n, tags := x.tags[n := Tag.Valid]), dd);
  }

  lemma StoreAtTop(x: X87, dd: Reg)
    ensures Eager(Store(0, dd), x) == x.(st := x.st[x.top := x.fpr[dd]])
  {
    assert Slot(x.top, 0) == x.top;
  }

  /** [Xbase, index, LSL #3] with index one past the register's number. */
  lemma IndexPlusOne(n: nat)
    requires n < 8
    ensures Address(0, Plus(Imm(n), 1), true) == Offset(false, n)
  {
    OffsetOf(false, n);
    ImmSmall(n);
    RawIndex(Imm(n));
  }

  lemma RawIndex(k: bv32)
    requires k < 8
    ensures Address(0, Plus(k, 1), true) == 8 + 8 * k
  {}

  lemma FldStatus(status: Half, tag: Half, n: nat)
    requires n < 8
    ensures var w := Clear(Insert(Both(status, tag), Imm(n)), UpperMask(n));
      TopBits(Lo16(w)) == Imm(n) && OtherBits(Lo16(w)) == OtherBits(status)
  {
    UpperMaskIs(n);
    ImmSmall(n);
    PushLow(status, tag, Imm(n), UpperMask(n));
    InsertedTop(status, Imm(n));
    InsertedOther(status, Imm(n));
  }

  lemma FldTag(status: Half, tag: Half, tags: seq<Tag>, n: nat)
    requires n < 8 && TagsAre(tag, tags)
    ensures TagsAre(Hi16(Clear(Insert(Both(status, tag), Imm(n)), UpperMask(n))), tags[n := Tag.Valid])
  {
    UpperMaskIs(n);
    PushHigh(status, tag, Imm(n), UpperMask(n));
    ClearMaskTags(tag, Hi16(UpperMask(n)), tags, n);
    SameTags(Clear(tag, Hi16(UpperMask(n))), Hi16(Clear(Insert(Both(status, tag), Imm(n)), UpperMask(n))),
             tags[n := Tag.Valid]);
  }

  /** fld does to memory what a push and a store to ST(0) do. */
  lemma FldSingle(a: Arm, p: Pool, dd: Reg, x: X87)
    requires p.Distinct() && InMemory(a, false, x)
    ensures var b := ArmCode.Run(FldCode(p, dd), a);
      InMemory(b, false, EagerAll([Push, Store(0, dd)], x)) && OtherBits(b.status) == OtherBits(a.status)
  {
    var n := Slot(x.top, -1);
    assert Imm(n) == (TopBits(a.status) - 1) & 7 by {
      ImmSlot(x.top, 1);
      assert Imm(1) == 1;
    }
    FldEffect(a, p, dd, n);
    FldStatus(a.status, a.tag, n);
    FldTag(a.status, a.tag, x.tags, n);
    IndexPlusOne(n);
    SlotsStored(false, a.file, x.st, n, x.fpr[dd]);
    PushStore(x, dd);
  }

  // ---- fstp ----

  function FstpHead(p: Pool): (c: seq<Ins>) {
    [LdurBoth(p.sw), Set(p.top, Ubfm(p.sw, 11, 13)), Set(p.mask, Movz(3, 1))]
  }

  /** The index is also the new TOP, not masked yet. */
  function FstpIndex(p: Pool, dd: Reg): (c: seq<Ins>) {
    [Set(p.index, AddImm(p.top, 1)), Set(p.pos, Ubfm(p.top, 31, 30)), LdrD(dd, p.index, 0, true)]
  }

  function FstpMark(p: Pool): (c: seq<Ins>) {
    [Set(p.mask, Lslv(p.mask, p.pos)), Set(p.sw, Orr(p.sw, p.mask))]
  }

  function FstpTail(p: Pool): (c: seq<Ins>) {
    [Set(p.sw, Bfm(p.sw, p.index, 21, 2)), SturBoth(p.sw)]
  }

  function FstpCode(p: Pool, dd: Reg): (c: seq<Ins>) {
    (FstpHead(p) + FstpIndex(p, dd)) + (FstpMark(p) + FstpTail(p))
  }

  lemma FstpHeadEffect(a: Arm, p: Pool, t: bv32)
    requires p.Distinct() && t == TopBits(a.status)
    ensures var b := ArmCode.Run(FstpHead(p), a);
      Quiet(a, b) && b.w[p.sw] == Both(a.status, a.tag) && b.w[p.top] == t && b.w[p.mask] == 0x30000
  {
    var i0, i1, i2 := LdurBoth(p.sw), Set(p.top, Ubfm(p.sw, 11, 13)), Set(p.mask, Movz(3, 1));
    var a1 := a.(w := a.w[p.sw := Both(a.status, a.tag)]);
    var a2 := a1.(w := a1.w[p.top := t]);
    var a3 := a2.(w := a2.w[p.mask := 0x30000]);
    assert ArmCode.Exec(i0, a) == a1;
    assert ArmCode.Exec(i1, a1) == a2 by {
      TopOfBoth(a.status, a.tag);
    }
    assert ArmCode.Exec(i2, a2) == a3 by {
      MovzSeed();
    }
    Run3(i0, i1, i2, a);
  }

  lemma FstpIndexEffect(a: Arm, p: Pool, dd: Reg)
    requires p.Distinct() && a.w[p.top] < 8
    ensures var b := ArmCode.Run(FstpIndex(p, dd), a);
      && b.status == a.status && b.tag == a.tag && b.file == a.file
      && b.d == a.d[dd := a.file(Address(0, Plus(a.w[p.top], 1), true))]
      && b.w[p.sw] == a.w[p.sw] && b.w[p.mask] == a.w[p.mask]
      && b.w[p.index] == Plus(a.w[p.top], 1) && b.w[p.pos] == a.w[p.top] << 1
  {
    var i0, i1, i2 := Set(p.index, AddImm(p.top, 1)), Set(p.pos, Ubfm(p.top, 31, 30)), LdrD(dd, p.index, 0, true);
    var n, q := Plus(a.w[p.top], 1), a.w[p.top] << 1;
    RunSet(a, p.index, AddImm(p.top, 1), n);
    Position(a.w[p.top]);
    RunSet(a.(w := a.w[p.index := n]), p.pos, Ubfm(p.top, 31, 30), q);
    Run3(i0, i1, i2, a);
  }

  lemma FstpMarkEffect(a: Arm, p: Pool)
    requires p.Distinct()
    ensures var b := ArmCode.Run(FstpMark(p), a);
      Quiet(a, b) && b.w[p.sw] == Join(a.w[p.sw], Shift(a.w[p.mask], a.w[p.pos])) && b.w[p.index] == a.w[p.index]
  {
    Run2(Set(p.mask, Lslv(p.mask, p.pos)), Set(p.sw, Orr(p.sw, p.mask)), a);
  }

  lemma FstpTailEffect(a: Arm, p: Pool)
    requires p.Distinct()
    ensures var b, w := ArmCode.Run(FstpTail(p), a), Insert(a.w[p.sw], a.w[p.index]);
      b.status == Lo16(w) && b.tag == Hi16(w) && b.file == a.file && b.d == a.d
  {
    TopInsert(a.w[p.sw], a.w[p.index]);
    RunSet(a, p.sw, Bfm(p.sw, p.index, 21, 2), Insert(a.w[p.sw], a.w[p.index]));
    Run2(Set(p.sw, Bfm(p.sw, p.index, 21, 2)), SturBoth(p.sw), a);
  }

  lemma FstpStarts(a: Arm, p: Pool, dd: Reg, t: bv32)
    requires p.Distinct() && t == TopBits(a.status)
    ensures var b := ArmCode.Run(FstpHead(p) + FstpIndex(p, dd), a);
      && b.status == a.status && b.tag == a.tag && b.file == a.file
      && b.d == a.d[dd := a.file(Address(0, Plus(t, 1), true))]
      && b.w[p.sw] == Both(a.status, a.tag) && b.w[p.mask] == 0x30000
      && b.w[p.index] == Plus(t, 1) && b.w[p.pos] == t << 1
  {
    RunConcat(FstpHead(p), FstpIndex(p, dd), a);
    FstpHeadEffect(a, p, t);
    FstpIndexEffect(ArmCode.Run(FstpHead(p), a), p, dd);
  }

  lemma FstpEnds(a: Arm, p: Pool)
    requires p.Distinct()
    ensures var b := ArmCode.Run(FstpMark(p) + FstpTail(p), a);
      var w := Insert(Join(a.w[p.sw], Shift(a.w[p.mask], a.w[p.pos])), a.w[p.index]);
      b.status == Lo16(w) && b.tag == Hi16(w) && b.file == a.file && b.d == a.d
  {
    RunConcat(FstpMark(p), FstpTail(p), a);
    FstpMarkEffect(a, p);
    FstpTailEffect(ArmCode.Run(FstpMark(p), a), p);
  }

  /** The whole of fstp, with n the number of ST(0). */
  lemma FstpEffect(a: Arm, p: Pool, dd: Reg, n: nat)
    requires p.Distinct() && n < 8 && Imm(n) == TopBits(a.status)
    ensures var b := ArmCode.Run(FstpCode(p, dd), a);
      var w := Insert(Join(Both(a.status, a.tag), UpperMask(n)), Plus(Imm(n), 1));
      && b.status == Lo16(w) && b.tag == Hi16(w) && b.file == a.file
      && b.d == a.d[dd := a.file(Address(0, Plus(Imm(n), 1), true))]
  {
    RunConcat(FstpHead(p) + FstpIndex(p, dd), FstpMark(p) + FstpTail(p), a);
    var b := ArmCode.Run(FstpHead(p) + FstpIndex(p, dd), a);
    FstpStarts(a, p, dd, Imm(n));
    assert Shift(b.w[p.mask], b.w[p.pos]) == UpperMask(n) by {
      UpperMaskIs(n);
    }
    FstpEnds(b, p);
  }

  lemma LoadPop(x: X87, dd: Reg)
    ensures EagerAll([Load(0, dd), Pop], x) ==
      x.(fpr := x.fpr[dd := x.st[x.top]], top := Slot(x.top, 1), tags := x.tags[x.top := Tag.Empty])
  {
    TwoOps(Load(0, dd), Pop, x);
    LoadTop(x, dd);
  }

  lemma LoadTop(x: X87, dd: Reg)
    ensures Eager(Load(0, dd), x) == x.(fpr := x.fpr[dd := x.st[x.top]])
  {
    assert Slot(x.top, 0) == x.top;
  }

  /** BFI of TOP + 1 is TOP + 1 modulo 8. */
  lemma NextTop(status: Half, n: nat)
    requires n < 8
    ensures Insert(status, Plus(Imm(n), 1)) == Insert(status, Imm(Slot(n, 1))) && Imm(Slot(n, 1)) < 8
  {
    ImmSlot(n, 1);
    assert Imm(1) == 1;
    ImmSmall(Slot(n, 1));
    SameInsert(status, Plus(Imm(n), 1), Imm(Slot(n, 1)));
  }

  lemma SameInsert(status: bv32, x: bv32, y: bv32)
    requires x & 7 == y && y < 8
    ensures Insert(status, x) == Insert(status, y)
  {}

  lemma FstpStatus(status: Half, tag: Half, n: nat)
    requires n < 8
    ensures var w := Insert(Join(Both(status, tag), UpperMask(n)), Plus(Imm(n), 1));
      TopBits(Lo16(w)) == Imm(Slot(n, 1)) && OtherBits(Lo16(w)) == OtherBits(status)
  {
    UpperMaskIs(n);
    PopLow(status, tag, Plus(Imm(n), 1), UpperMask(n));
    NextTop(status, n);
    InsertedTop(status, Imm(Slot(n, 1)));
    InsertedOther(status, Imm(Slot(n, 1)));
  }

  lemma FstpTag(status: Half, tag: Half, tags: seq<Tag>, n: nat)
    requires n < 8 && TagsAre(tag, tags)
    ensures TagsAre(Hi16(Insert(Join(Both(status, tag), UpperMask(n)), Plus(Imm(n), 1))), tags[n := Tag.Empty])
  {
    UpperMaskIs(n);
    PopHigh(status, tag, Plus(Imm(n), 1), UpperMask(n));
    OrMaskTags(tag, Hi16(UpperMask(n)), tags, n);
    SameTags(Join(tag, Hi16(UpperMask(n))), Hi16(Insert(Join(Both(status, tag), UpperMask(n)), Plus(Imm(n), 1))),
             tags[n := Tag.Empty]);
  }

  /** fstp does to memory what a load of ST(0) and a pop do. */
  lemma FstpSingle(a: Arm, p: Pool, dd: Reg, x: X87)
    requires p.Distinct() && InMemory(a, false, x)
    ensures var b := ArmCode.Run(FstpCode(p, dd), a);
      InMemory(b, false, EagerAll([Load(0, dd), Pop], x)) && OtherBits(b.status) == OtherBits(a.status)
  {
    var n := x.top;
    FstpEffect(a, p, dd, n);
    FstpStatus(a.status, a.tag, n);
    FstpTag(a.status, a.tag, x.tags, n);
    IndexPlusOne(n);
    LoadPop(x, dd);
  }

  // ---- one after the other ----

  lemma WordBits(s: Half, s': Half)
    requires TopBits(s) == TopBits(s') && OtherBits(s) == OtherBits(s')
    ensures s == s'
  {}

  /** Eight tags are the whole word. */
  lemma TagsDetermine(x: Half, y: Half, tags: seq<Tag>)
    requires TagsAre(x, tags) && TagsAre(y, tags)
    ensures x == y
  {
    RestOfHalf(x);
    RestOfHalf(y);
    forall k: nat {:trigger Rest(x, k)} | k < 8 ensures Low2(Rest(x, k)) == Low2(Rest(y, k)) {
      FieldOfRest(x, k);
      FieldOfRest(y, k);
      assert TagField(x, k) == TagCodeBits(tags[k]) == TagField(y, k);
    }
    FieldsDetermine(x, y, 8);
  }

  function Low2(x: bv32): (r: bv32) {
    x & 3
  }

  function Next(x: bv32): (r: bv32) {
    x >> 2
  }

  function Rest(x: bv32, n: nat): (r: bv32) {
    if n == 0 then x else Next(Rest(x, n - 1))
  }

  lemma RestOfHalf(x: Half)
    ensures Rest(x, 8) == 0
  {
    assert Rest(x, 1) == Next(x);
    assert Rest(x, 2) == Next(Next(x));
    assert Rest(x, 3) == Next(Next(Next(x)));
    assert Rest(x, 4) == Next(Next(Next(Next(x))));
    assert Rest(x, 5) == Next(Next(Next(Next(Next(x)))));
    assert Rest(x, 6) == Next(Next(Next(Next(Next(Next(x))))));
    assert Rest(x, 7) == Next(Next(Next(Next(Next(Next(Next(x)))))));
  }

  lemma {:induction false} FieldOfRest(x: bv32, n: nat)
    ensures TagField(x, n) == Low2(Rest(x, n))
  {
    if n > 0 {
      FieldOfRest(x >> 2, n - 1);
      RestFirst(x, n - 1);
    }
  }

  lemma {:induction false} RestFirst(x: bv32, n: nat)
    ensures Rest(x, n + 1) == Rest(Next(x), n)
  {
    if n > 0 {
      RestFirst(x, n - 1);
    }
  }

  lemma {:induction false} FieldsDetermine(x: bv32, y: bv32, n: nat)
    requires forall k: nat {:trigger Rest(x, k)} :: k < n ==> Low2(Rest(x, k)) == Low2(Rest(y, k))
    requires Rest(x, n) == Rest(y, n)
    ensures x == y
  {
    if n > 0 {
      LastField(Rest(x, n - 1), Rest(y, n - 1));
      FieldsDetermine(x, y, n - 1);
    }
  }

  lemma LastField(x: bv32, y: bv32)
    requires Low2(x) == Low2(y) && Next(x) == Next(y)
    ensures x == y
  {}

  /** The fused pair is exact: fld and then fstp put the status word back bit
      for bit and the FP registers too, and the tag word exactly when the
      register pushed into was tagged empty. */
  lemma FldThenFstp(a: Arm, p: Pool, dd: Reg, x: X87)
    requires p.Distinct() && InMemory(a, false, x)
    ensures var b := ArmCode.Run(FstpCode(p, dd), ArmCode.Run(FldCode(p, dd), a));
      b.status == a.status && b.d == a.d && (b.tag == a.tag <==> x.tags[Slot(x.top, -1)] == Tag.Empty)
  {
    var b := ArmCode.Run(FldCode(p, dd), a);
    var c := ArmCode.Run(FstpCode(p, dd), b);
    var n := Slot(x.top, -1);
    var tags := x.tags[n := Tag.Empty];
    FldSingle(a, p, dd, x);
    FstpSingle(b, p, dd, EagerAll([Push, Store(0, dd)], x));
    ThereAndBack(x, dd);
    WordBits(a.status, c.status);
    assert c.tag == a.tag <==> tags == x.tags by {
      if tags == x.tags {
        TagsDetermine(a.tag, c.tag, tags);
      } else if c.tag == a.tag {
        OneReading(a.tag, x.tags, tags, n);
      }
    }
  }

  lemma OneReading(tag: bv32, xs: seq<Tag>, ys: seq<Tag>, n: nat)
    requires TagsAre(tag, xs) && TagsAre(tag, ys) && n < 8
    ensures xs[n] == ys[n]
  {
    assert TagField(tag, n) == TagCodeBits(xs[n]) == TagCodeBits(ys[n]);
  }

  lemma ThereAndBack(x: X87, dd: Reg)
    ensures var y, n := EagerAll([Load(0, dd), Pop], EagerAll([Push, Store(0, dd)], x)), Slot(x.top, -1);
      y.top == x.top && y.fpr == x.fpr && y.tags == x.tags[n := Tag.Empty]
  {
    var y := EagerAll([Push, Store(0, dd)], x);
    var z := EagerAll([Load(0, dd), Pop], y);
    PushStoreThere(x, dd);
    LoadPopThere(y, dd);
    ThereAfter(x, y, z, dd);
  }

  lemma ThereAfter(x: X87, y: X87, z: X87, dd: Reg)
    requires y.top == Slot(x.top, -1) && y.fpr == x.fpr && y.tags == x.tags[y.top := Tag.Valid]
    requires y.st[y.top] == x.fpr[dd]
    requires z.top == Slot(y.top, 1) && z.fpr == y.fpr[dd := y.st[y.top]] && z.tags == y.tags[y.top := Tag.Empty]
    ensures z.top == x.top && z.fpr == x.fpr && z.tags == x.tags[y.top := Tag.Empty]
  {
    assert x.fpr[dd := x.fpr[dd]] == x.fpr;
    assert x.tags[y.top := Tag.Valid][y.top := Tag.Empty] == x.tags[y.top := Tag.Empty];
  }

  lemma PushStoreThere(x: X87, dd: Reg)
    ensures var y, n := EagerAll([Push, Store(0, dd)], x), Slot(x.top, -1);
      y.top == n && y.fpr == x.fpr && y.tags == x.tags[n := Tag.Valid] && y.st[n] == x.fpr[dd]
  {
    PushStore(x, dd);
  }

  lemma LoadPopThere(y: X87, dd: Reg)
    ensures var z := EagerAll([Load(0, dd), Pop], y);
      z.top == Slot(y.top, 1) && z.fpr == y.fpr[dd := y.st[y.top]] && z.tags == y.tags[y.top := Tag.Empty]
  {
    LoadPop(y, dd);
  }
}
