/** The instruction sequences behind the steps of the deferred stack
    (TranslatorX87Helpers.cpp): each one does to the status word, the tag word
    and the slots what its steps do to the machine. */
module StackCode {
  import opened X87Stack
  import opened DeferredState
  import opened ArmCode

  // ---- the TOP register ----

  function TurnCode(top: Reg, e: Alu): (c: seq<Ins>) {
    [Set(top, e), Set(top, AndImm(top, 2))]
  }

  lemma TurnEffect(a: Arm, top: Reg, e: Alu)
    ensures ArmCode.Run(TurnCode(top, e), a) == a.(w := a.w[top := Eval(e, a.w) & 7])
  {
    Run2(Set(top, e), Set(top, AndImm(top, 2)), a);
    assert Low(3) == 7;
    var w1 := a.w[top := Eval(e, a.w)];
    assert w1[top := w1[top] & 7] == a.w[top := Eval(e, a.w) & 7];
  }

  lemma TurnedShows(a: Arm, top: Reg, native: bool, e: Alu, m: Machine, delta: int)
    requires Shows(a, top, native, m) && Eval(e, a.w) & 7 == Imm(Slot(m.regTop, delta))
    ensures var b := ArmCode.Run(TurnCode(top, e), a);
      Shows(b, top, native, DeferredState.Run([AddTop(delta)], m)) && b.status == a.status
  {
    TurnEffect(a, top, e);
    OneStep(AddTop(delta), m);
  }

  lemma ImmSlot(j: nat, n: nat)
    requires j < 8
    ensures (Imm(j) + Imm(n)) & 7 == Imm(Slot(j, n)) && (Imm(j) - Imm(n)) & 7 == Imm(Slot(j, -(n as int)))
  {
    ImmUp(j, n);
    ImmDown(j, n);
  }

  lemma DownShows(a: Arm, top: Reg, native: bool, m: Machine, n: nat)
    requires Shows(a, top, native, m)
    ensures var b := ArmCode.Run(TurnCode(top, SubImm(top, Imm(n))), a);
      Shows(b, top, native, DeferredState.Run([AddTop(-(n as int))], m)) && b.status == a.status
  {
    assert Eval(SubImm(top, Imm(n)), a.w) & 7 == Imm(Slot(m.regTop, -(n as int))) by {
      ImmSlot(m.regTop, n);
    }
    TurnedShows(a, top, native, SubImm(top, Imm(n)), m, -(n as int));
  }

  lemma UpShows(a: Arm, top: Reg, native: bool, m: Machine, n: nat)
    requires Shows(a, top, native, m)
    ensures var b := ArmCode.Run(TurnCode(top, AddImm(top, Imm(n))), a);
      Shows(b, top, native, DeferredState.Run([AddTop(n)], m)) && b.status == a.status
  {
    assert Eval(AddImm(top, Imm(n)), a.w) & 7 == Imm(Slot(m.regTop, n)) by {
      ImmSlot(m.regTop, n);
    }
    TurnedShows(a, top, native, AddImm(top, Imm(n)), m, n);
  }

  /** emit_x87_push_fully_deferred: SUB, AND. */
  lemma TopDown(top: Reg, native: bool, n: nat)
    ensures Means(TurnCode(top, SubImm(top, Imm(n))), top, native, [AddTop(-(n as int))])
  {
    var code, steps := TurnCode(top, SubImm(top, Imm(n))), [AddTop(-(n as int))];
    forall a: Arm, m: Machine
      ensures Refines(a, ArmCode.Run(code, a), top, native, m, DeferredState.Run(steps, m))
    {
      if Shows(a, top, native, m) {
        DownShows(a, top, native, m, n);
      }
    }
  }

  /** emit_x87_pop_top_only and the end of every pop: ADD, AND. */
  lemma TopUp(top: Reg, native: bool, n: nat)
    ensures Means(TurnCode(top, AddImm(top, Imm(n))), top, native, [AddTop(n)])
  {
    var code, steps := TurnCode(top, AddImm(top, Imm(n))), [AddTop(n)];
    forall a: Arm, m: Machine
      ensures Refines(a, ArmCode.Run(code, a), top, native, m, DeferredState.Run(steps, m))
    {
      if Shows(a, top, native, m) {
        UpShows(a, top, native, m, n);
      }
    }
  }

  // ---- TOP in the status word ----

  function StoreTopCode(top: Reg, tmp: Reg): (c: seq<Ins>) {
    [LdrhStatus(tmp), Set(tmp, Bfm(tmp, top, 21, 2)), StrhStatus(tmp)]
  }

  lemma StoreTopBits(status: Half, t: bv32)
    requires t < 8
    ensures var s := Lo16(BfmOf(status, t, 21, 2));
      TopBits(s) == t && OtherBits(s) == OtherBits(status)
  {
    assert Low(3) == 7;
  }

  lemma StoreTopEffect(a: Arm, top: Reg, tmp: Reg)
    requires top != tmp
    ensures var s := BfmOf(a.status, a.w[top], 21, 2);
      ArmCode.Run(StoreTopCode(top, tmp), a) == a.(status := Lo16(s), w := a.w[tmp := s])
  {
    Run3(LdrhStatus(tmp), Set(tmp, Bfm(tmp, top, 21, 2)), StrhStatus(tmp), a);
    var w1 := a.w[tmp := a.status as bv32];
    assert w1[tmp := BfmOf(a.status, a.w[top], 21, 2)] == a.w[tmp := BfmOf(a.status, a.w[top], 21, 2)];
  }

  lemma TopStoredShows(a: Arm, top: Reg, tmp: Reg, native: bool, m: Machine)
    requires top != tmp && Shows(a, top, native, m)
    ensures var b := ArmCode.Run(StoreTopCode(top, tmp), a);
      Shows(b, top, native, DeferredState.Run([StoreTop], m)) && OtherBits(b.status) == OtherBits(a.status)
  {
    StoreTopEffect(a, top, tmp);
    ImmSmall(m.regTop);
    StoreTopBits(a.status, a.w[top]);
    OneStep(StoreTop, m);
  }

  /** emit_store_top: LDRH, BFI, STRH. */
  lemma TopStored(top: Reg, tmp: Reg, native: bool)
    requires top != tmp
    ensures Means(StoreTopCode(top, tmp), top, native, [StoreTop])
  {
    var code, steps := StoreTopCode(top, tmp), [StoreTop];
    forall a: Arm, m: Machine
      ensures Refines(a, ArmCode.Run(code, a), top, native, m, DeferredState.Run(steps, m))
    {
      if Shows(a, top, native, m) {
        TopStoredShows(a, top, tmp, native, m);
      }
    }
  }

  // ---- one tag ----

  /** The tag bits of register x: its mask, and the read-modify-write that sets
      (empty) or clears (valid) them. */
  function MaskCode(x: Reg, t1: Reg, t2: Reg): (c: seq<Ins>) {
    [Set(t2, Ubfm(x, 31, 30)), Set(t1, Movz(3, 0)), Set(t1, Lslv(t1, t2))]
  }

  function MarkCode(t1: Reg, t2: Reg, empty: bool): (c: seq<Ins>) {
    [LdrhTag(t2), Set(t2, if empty then Orr(t2, t1) else Bic(t2, t1)), StrhTag(t2)]
  }

  function TagMask(k: bv32): (mask: bv32) {
    Shift(Halfword(3, 0), UbfmOf(k, 31, 30))
  }

  function Marked(tag: bv32, mask: bv32, empty: bool): (r: bv32) {
    if empty then Join(tag, mask) else Clear(tag, mask)
  }

  lemma TagMaskIs(k: bv32)
    requires k < 8
    ensures TagMask(k) == Shift(3, k << 1)
  {
    assert Low(31) == 0x7FFFFFFF;
    assert Halfword(3, 0) == 3;
    assert UbfmOf(k, 31, 30) == (k & Low(31)) << 1 == k << 1;
  }

  /** The two bits of register n. */
  function FieldMask(n: nat): (mask: bv32) {
    if n == 0 then 3 else FieldMask(n - 1) << 2
  }

  lemma FieldMaskIs(n: nat)
    requires n < 8
    ensures FieldMask(n) == Shift(3, Imm(n) << 1)
  {
    FieldMasks();
    assert Imm(2) == 2 && Imm(3) == 3 && Imm(4) == 4 && Imm(5) == 5 && Imm(6) == 6 && Imm(7) == 7;
    assert n == 0 || n == 1 || n == 2 || n == 3 || n == 4 || n == 5 || n == 6 || n == 7;
  }

  lemma FieldMasks()
    ensures FieldMask(0) == 0x3 && FieldMask(1) == 0xC && FieldMask(2) == 0x30 && FieldMask(3) == 0xC0
    ensures FieldMask(4) == 0x300 && FieldMask(5) == 0xC00 && FieldMask(6) == 0x3000 && FieldMask(7) == 0xC000
  {}

  lemma TagMaskOf(n: nat)
    requires n < 8
    ensures TagMask(Imm(n)) == FieldMask(n)
  {
    ImmSmall(n);
    TagMaskIs(Imm(n));
    FieldMaskIs(n);
  }

  lemma ClearedBits(tag: Half, k: bv32, j: bv32)
    requires k < 8 && j < 8
    ensures TagBits(Lo16(Clear(tag, Shift(3, k << 1))), j) == if j == k then 0 else TagBits(tag, j)
  {}

  lemma JoinedBits(tag: Half, k: bv32, j: bv32)
    requires k < 8 && j < 8
    ensures TagBits(Lo16(Join(tag, Shift(3, k << 1))), j) == if j == k then 3 else TagBits(tag, j)
  {}

  lemma ImmSame(j: nat, k: nat)
    requires j < 8 && k < 8
    ensures Imm(j) == Imm(k) <==> j == k
    ensures Imm(j) < 8 && Imm(k) < 8
  {
    ImmSmall(j);
    ImmSmall(k);
    if j < k {
      ImmDiffer(j, k);
    } else if k < j {
      ImmDiffer(k, j);
    }
  }

  lemma MarkedAt(tag: Half, mask: bv32, n: nat, k: nat, empty: bool)
    requires n < 8 && k < 8 && mask == Shift(3, Imm(n) << 1)
    ensures TagBits(Lo16(Marked(tag, mask, empty)), Imm(k)) ==
      if k == n then (if empty then 3 else 0) else TagBits(tag, Imm(k))
  {
    ImmSame(n, k);
    if empty {
      JoinedBits(tag, Imm(n), Imm(k));
    } else {
      ClearedBits(tag, Imm(n), Imm(k));
    }
  }

  /** Everything but the listed registers and the tag word is untouched. */
  ghost predicate OnlyTag(a: Arm, b: Arm, t1: Reg, t2: Reg, tag: bv32) {
    && b.status == a.status && b.file == a.file && b.d == a.d && b.tag == Lo16(tag)
    && forall r :: 0 <= r < 32 && r != t1 && r != t2 ==> b.w[r] == a.w[r]
  }

  lemma MaskEffect(a: Arm, x: Reg, t1: Reg, t2: Reg)
    requires x != t1 && t1 != t2
    ensures var b := ArmCode.Run(MaskCode(x, t1, t2), a);
      OnlyTag(a, b, t1, t2, a.tag) && b.w[t1] == TagMask(a.w[x])
  {
    var i0, i1, i2 := Set(t2, Ubfm(x, 31, 30)), Set(t1, Movz(3, 0)), Set(t1, Lslv(t1, t2));
    var a1 := a.(w := a.w[t2 := UbfmOf(a.w[x], 31, 30)]);
    var a2 := a1.(w := a1.w[t1 := Halfword(3, 0)]);
    assert ArmCode.Exec(i0, a) == a1;
    assert ArmCode.Exec(i1, a1) == a2;
    Run3(i0, i1, i2, a);
    HalfSame(a.tag);
  }

  lemma HalfSame(h: Half)
    ensures Lo16(h) == h
  {}

  lemma RmwEffect(a: Arm, t: Reg, e: Alu, v: bv32)
    requires Eval(e, a.w[t := a.tag as bv32]) == v
    ensures ArmCode.Run([LdrhTag(t), Set(t, e), StrhTag(t)], a) == a.(w := a.w[t := v], tag := Lo16(v))
  {
    var a1, a2 := a.(w := a.w[t := a.tag as bv32]), a.(w := a.w[t := v]);
    assert ArmCode.Exec(LdrhTag(t), a) == a1;
    assert ArmCode.Exec(Set(t, e), a1) == a2 by {
      assert a1.w[t := v] == a2.w;
    }
    assert ArmCode.Exec(StrhTag(t), a2) == a2.(tag := Lo16(v));
    Run3(LdrhTag(t), Set(t, e), StrhTag(t), a);
  }

  lemma MarkEffect(a: Arm, t1: Reg, t2: Reg, empty: bool)
    requires t1 != t2
    ensures OnlyTag(a, ArmCode.Run(MarkCode(t1, t2, empty), a), t1, t2, Marked(a.tag, a.w[t1], empty))
  {
    var e, v := if empty then Orr(t2, t1) else Bic(t2, t1), Marked(a.tag, a.w[t1], empty);
    assert Eval(e, a.w[t2 := a.tag as bv32]) == v;
    assert ArmCode.Run(MarkCode(t1, t2, empty), a) == a.(w := a.w[t2 := v], tag := Lo16(v)) by {
      RmwEffect(a, t2, e, v);
    }
  }

  function TagCode(x: Reg, t1: Reg, t2: Reg, empty: bool): (c: seq<Ins>) {
    MaskCode(x, t1, t2) + MarkCode(t1, t2, empty)
  }

  lemma TagEffect(a: Arm, x: Reg, t1: Reg, t2: Reg, empty: bool)
    requires x != t1 && t1 != t2
    ensures OnlyTag(a, ArmCode.Run(TagCode(x, t1, t2, empty), a), t1, t2, Marked(a.tag, TagMask(a.w[x]), empty))
  {
    RunConcat(MaskCode(x, t1, t2), MarkCode(t1, t2, empty), a);
    MaskEffect(a, x, t1, t2);
    HalfSame(a.tag);
    MarkEffect(ArmCode.Run(MaskCode(x, t1, t2), a), t1, t2, empty);
  }

  /** The tag word with register n marked shows the tags with n marked. */
  lemma MarkedTags(tag: Half, mask: bv32, tags: seq<Tag>, n: nat, empty: bool)
    requires TagsAre(tag, tags) && n < 8 && mask == Shift(3, Imm(n) << 1)
    ensures TagsAre(Lo16(Marked(tag, mask, empty)), tags[n := if empty then Tag.Empty else Tag.Valid])
  {
    var t, to := Lo16(Marked(tag, mask, empty)), if empty then Tag.Empty else Tag.Valid;
    forall k | 0 <= k < 8 ensures TagField(t, k) == TagCodeBits(tags[n := to][k]) {
      FieldIs(t, k);
      FieldIs(tag, k);
      MarkedAt(tag, mask, n, k, empty);
    }
  }

  /** Marking the register whose number is in x. */
  lemma TagShows(a: Arm, top: Reg, x: Reg, t1: Reg, t2: Reg, native: bool, m: Machine, n: nat, empty: bool)
    requires x != t1 && t1 != t2 && top != t1 && top != t2 && n < 8
    requires Shows(a, top, native, m) && a.w[x] == Imm(n)
    ensures var b := ArmCode.Run(TagCode(x, t1, t2, empty), a);
      && Shows(b, top, native, m.(tags := m.tags[n := if empty then Tag.Empty else Tag.Valid]))
      && b.status == a.status
  {
    TagEffect(a, x, t1, t2, empty);
    ImmSmall(n);
    TagMaskIs(Imm(n));
    MarkedTags(a.tag, TagMask(Imm(n)), m.tags, n, empty);
  }

  /** emit_x87_tag_clear. */
  lemma TagCleared(top: Reg, t1: Reg, t2: Reg, native: bool)
    requires top != t1 && top != t2 && t1 != t2
    ensures Means(TagCode(top, t1, t2, false), top, native, [TagValidTop])
  {
    var code, steps := TagCode(top, t1, t2, false), [TagValidTop];
    forall a: Arm, m: Machine
      ensures Refines(a, ArmCode.Run(code, a), top, native, m, DeferredState.Run(steps, m))
    {
      if Shows(a, top, native, m) {
        TagShows(a, top, top, t1, t2, native, m, m.regTop, false);
        OneStep(TagValidTop, m);
      }
    }
  }

  // ---- pushes and pops ----

  /** emit_x87_push: TOP down, TOP stored, the new register valid. */
  function PushCode(top: Reg, t1: Reg, t2: Reg): (c: seq<Ins>) {
    TurnCode(top, SubImm(top, Imm(1))) + StoreTopCode(top, t1) + TagCode(top, t1, t2, false)
  }

  lemma Pushed(top: Reg, t1: Reg, t2: Reg, native: bool)
    requires top != t1 && top != t2 && t1 != t2
    ensures Means(PushCode(top, t1, t2), top, native, [AddTop(-1)] + [StoreTop] + [TagValidTop])
  {
    var a, b, c := TurnCode(top, SubImm(top, Imm(1))), StoreTopCode(top, t1), TagCode(top, t1, t2, false);
    TopDown(top, native, 1);
    TopStored(top, t1, native);
    TagCleared(top, t1, t2, native);
    MeansThen(a, b, top, native, [AddTop(-1)], [StoreTop]);
    MeansThen(a + b, c, top, native, [AddTop(-1)] + [StoreTop], [TagValidTop]);
  }

  /** One pass of emit_x87_pop_n's loop: the number of the register i above
      TOP goes through t2. */
  function PopTagCode(top: Reg, t1: Reg, t2: Reg, i: nat): (c: seq<Ins>) {
    if i == 0 then TagCode(top, t1, t2, true) else TurnCode(t2, AddImm(top, Imm(i))) + TagCode(t2, t1, t2, true)
  }

  lemma NumberShows(a: Arm, top: Reg, rd: Reg, native: bool, e: Alu, m: Machine, n: nat)
    requires top != rd && Shows(a, top, native, m) && Eval(e, a.w) & 7 == Imm(n)
    ensures var b := ArmCode.Run(TurnCode(rd, e), a);
      Shows(b, top, native, m) && b.w[rd] == Imm(n) && b.status == a.status
  {
    TurnEffect(a, rd, e);
  }

  lemma IndexShows(a: Arm, top: Reg, t2: Reg, native: bool, m: Machine, i: nat)
    requires top != t2 && Shows(a, top, native, m)
    ensures var b := ArmCode.Run(TurnCode(t2, AddImm(top, Imm(i))), a);
      Shows(b, top, native, m) && b.w[t2] == Imm(Slot(m.regTop, i)) && b.status == a.status
  {
    assert Eval(AddImm(top, Imm(i)), a.w) & 7 == Imm(Slot(m.regTop, i)) by {
      ImmSlot(m.regTop, i);
    }
    NumberShows(a, top, t2, native, AddImm(top, Imm(i)), m, Slot(m.regTop, i));
  }

  lemma PopTagShows(a: Arm, top: Reg, t1: Reg, t2: Reg, native: bool, m: Machine, i: nat)
    requires top != t1 && top != t2 && t1 != t2 && Shows(a, top, native, m)
    ensures var b := ArmCode.Run(PopTagCode(top, t1, t2, i), a);
      Shows(b, top, native, m.(tags := m.tags[Slot(m.regTop, i) := Tag.Empty])) && b.status == a.status
  {
    if i == 0 {
      TagShows(a, top, top, t1, t2, native, m, m.regTop, true);
    } else {
      RunConcat(TurnCode(t2, AddImm(top, Imm(i))), TagCode(t2, t1, t2, true), a);
      IndexShows(a, top, t2, native, m, i);
      TagShows(ArmCode.Run(TurnCode(t2, AddImm(top, Imm(i))), a), top, t2, t1, t2, native, m, Slot(m.regTop, i), true);
    }
  }

  lemma TagEmptiedShows(a: Arm, top: Reg, t1: Reg, t2: Reg, native: bool, m: Machine, i: nat)
    requires top != t1 && top != t2 && t1 != t2 && i < 8 && Shows(a, top, native, m)
    ensures var b := ArmCode.Run(PopTagCode(top, t1, t2, i), a);
      Shows(b, top, native, DeferredState.Run([TagEmptyAt(i)], m)) && b.status == a.status
  {
    assert DeferredState.Run([TagEmptyAt(i)], m) == m.(tags := m.tags[Slot(m.regTop, i) := Tag.Empty]) by {
      OneStep(TagEmptyAt(i), m);
    }
    PopTagShows(a, top, t1, t2, native, m, i);
  }

  lemma TagEmptied(top: Reg, t1: Reg, t2: Reg, native: bool, i: nat)
    requires top != t1 && top != t2 && t1 != t2 && i < 8
    ensures Means(PopTagCode(top, t1, t2, i), top, native, [TagEmptyAt(i)])
  {
    var code, steps := PopTagCode(top, t1, t2, i), [TagEmptyAt(i)];
    forall a: Arm, m: Machine
      ensures Refines(a, ArmCode.Run(code, a), top, native, m, DeferredState.Run(steps, m))
    {
      if Shows(a, top, native, m) {
        TagEmptiedShows(a, top, t1, t2, native, m, i);
      }
    }
  }

  lemma MeansAlso(code: seq<Ins>, top: Reg, native: bool, steps: seq<Step>, steps': seq<Step>)
    requires Means(code, top, native, steps)
    requires forall m: Machine :: DeferredState.Run(steps, m) == DeferredState.Run(steps', m)
    ensures Means(code, top, native, steps')
  {
    forall a: Arm, m: Machine
      ensures Refines(a, ArmCode.Run(code, a), top, native, m, DeferredState.Run(steps', m))
    {
      assert Refines(a, ArmCode.Run(code, a), top, native, m, DeferredState.Run(steps, m));
    }
  }

  lemma EmptyAboveGrows(tags: seq<Tag>, top: nat, i: nat)
    requires |tags| == 8 && top < 8
    ensures EmptyAbove(tags, top, i + 1) == EmptyAbove(tags, top, i)[Slot(top, i) := Tag.Empty]
  {
    var t := EmptyAbove(tags, top, i)[Slot(top, i) := Tag.Empty];
    forall s | 0 <= s < 8 ensures EmptyAbove(tags, top, i + 1)[s] == t[s] {
      SlotDepth(top, s);
    }
  }

  lemma EmptyFromStep(m: Machine, i: nat)
    ensures var n := DeferredState.Run([TagEmptyFrom(i)], m);
      DeferredState.Run([TagEmptyFrom(i + 1)], m) == n.(tags := n.tags[Slot(n.regTop, i) := Tag.Empty])
  {
    OneStep(TagEmptyFrom(i), m);
    OneStep(TagEmptyFrom(i + 1), m);
    EmptyAboveGrows(m.tags, m.regTop, i);
  }

  /** The loop of emit_x87_pop_n: one read-modify-write of the tag word for
      each popped register. */
  method EmitPopTags(top: Reg, t1: Reg, t2: Reg, n: nat, ghost native: bool) returns (code: seq<Ins>)
    requires top != t1 && top != t2 && t1 != t2
    ensures Means(code, top, native, [TagEmptyFrom(n)])
  {
    code := [];
    MeansNone(top, native);
    for i := 0 to n
      invariant Means(code, top, native, [TagEmptyFrom(i)])
    {
      PopTagExtends(code, top, t1, t2, native, i);
      code := code + PopTagCode(top, t1, t2, i);
    }
  }

  lemma MeansNone(top: Reg, native: bool)
    ensures Means([], top, native, [TagEmptyFrom(0)])
  {
    forall m: Machine ensures DeferredState.Run([], m) == DeferredState.Run([TagEmptyFrom(0)], m) {
      OneStep(TagEmptyFrom(0), m);
      assert EmptyAbove(m.tags, m.regTop, 0) == m.tags;
    }
    MeansNothing(top, native);
    MeansAlso([], top, native, [], [TagEmptyFrom(0)]);
  }

  lemma PopTagExtends(code: seq<Ins>, top: Reg, t1: Reg, t2: Reg, native: bool, i: nat)
    requires top != t1 && top != t2 && t1 != t2
    requires Means(code, top, native, [TagEmptyFrom(i)])
    ensures Means(code + PopTagCode(top, t1, t2, i), top, native, [TagEmptyFrom(i + 1)])
  {
    var next, steps := PopTagCode(top, t1, t2, i), [TagEmptyFrom(i + 1)];
    var whole := code + next;
    forall a: Arm, m: Machine
      ensures Refines(a, ArmCode.Run(whole, a), top, native, m, DeferredState.Run(steps, m))
    {
      RunConcat(code, next, a);
      var b, n := ArmCode.Run(code, a), DeferredState.Run([TagEmptyFrom(i)], m);
      assert Refines(a, b, top, native, m, n);
      if Shows(a, top, native, m) {
        PopTagShows(b, top, t1, t2, native, n, i);
        EmptyFromStep(m, i);
      }
    }
  }

  /** emit_x87_pop_n. */
  method EmitPopN(top: Reg, t1: Reg, t2: Reg, n: nat, ghost native: bool) returns (code: seq<Ins>)
    requires top != t1 && top != t2 && t1 != t2
    ensures Means(code, top, native, [TagEmptyFrom(n)] + [AddTop(n)] + [StoreTop])
  {
    code := EmitPopTags(top, t1, t2, n, native);
    var turn, store := TurnCode(top, AddImm(top, Imm(n))), StoreTopCode(top, t1);
    TopUp(top, native, n);
    TopStored(top, t1, native);
    MeansThen(code, turn, top, native, [TagEmptyFrom(n)], [AddTop(n)]);
    MeansThen(code + turn, store, top, native, [TagEmptyFrom(n)] + [AddTop(n)], [StoreTop]);
    code := code + turn + store;
  }

  // ---- the batched tag updates ----

  /** The registers from `hi` down to, not including, `lo` below TOP, emptied. */
  function Batch(tags: seq<Tag>, top: nat, hi: nat, lo: nat): (r: seq<Tag>)
    requires |tags| == 8 && lo <= hi
    ensures |r| == 8
    decreases hi - lo
  {
    if lo == hi then tags else Batch(tags, top, hi, lo + 1)[Slot(top, -(lo as int) - 1) := Tag.Empty]
  }

  lemma EmptyOneBelow(tags: seq<Tag>, top: nat, lo: nat)
    requires |tags| == 8 && top < 8
    ensures EmptyBelow(tags[Slot(top, -(lo as int) - 1) := Tag.Empty], top, lo) == EmptyBelow(tags, top, lo + 1)
  {
    var n := Slot(top, -(lo as int) - 1);
    var l, r := EmptyBelow(tags[n := Tag.Empty], top, lo), EmptyBelow(tags, top, lo + 1);
    forall s | 0 <= s < 8 ensures l[s] == r[s] {
      var back := (top as int - 1 - s as int) % 8;
      if s == n {
        assert back == lo % 8;
      }
    }
  }

  lemma {:induction false} BatchIsEmptyBelow(tags: seq<Tag>, top: nat, hi: nat, lo: nat)
    requires |tags| == 8 && top < 8 && lo <= hi
    ensures EmptyBelow(Batch(tags, top, hi, lo), top, lo) == EmptyBelow(tags, top, hi)
    decreases hi - lo
  {
    if lo < hi {
      BatchIsEmptyBelow(tags, top, hi, lo + 1);
      EmptyOneBelow(Batch(tags, top, hi, lo + 1), top, lo);
    }
  }

  /** One pass of emit_x87_tag_set_empty_batch's loop. */
  function BatchPass(top: Reg, t1: Reg, t2: Reg, tw: Reg, below: nat): (c: seq<Ins>) {
    TurnCode(t1, SubImm(top, Imm(below))) + MaskCode(t1, t2, t1) + [Set(tw, Orr(tw, t2))]
  }

  /** The tag word being edited is in tw; memory still shows the machine. */
  ghost predicate Holds(a: Arm, top: Reg, tw: Reg, native: bool, m: Machine, tags: seq<Tag>) {
    Shows(a, top, native, m) && TagsAre(a.w[tw], tags)
  }

  lemma BatchIndex(a: Arm, top: Reg, t1: Reg, native: bool, m: Machine, below: nat)
    requires top != t1 && Shows(a, top, native, m)
    ensures var b := ArmCode.Run(TurnCode(t1, SubImm(top, Imm(below))), a);
      && b == a.(w := a.w[t1 := Imm(Slot(m.regTop, -(below as int)))])
      && Shows(b, top, native, m)
  {
    assert Eval(SubImm(top, Imm(below)), a.w) & 7 == Imm(Slot(m.regTop, -(below as int))) by {
      ImmSlot(m.regTop, below);
    }
    TurnEffect(a, t1, SubImm(top, Imm(below)));
  }

  /** The mask of the register `below` TOP goes to t2. */
  lemma BatchMask(a: Arm, top: Reg, t1: Reg, t2: Reg, tw: Reg, native: bool, m: Machine, below: nat)
    requires top != t1 && top != t2 && top != tw && t1 != t2 && t1 != tw && t2 != tw && Shows(a, top, native, m)
    ensures var b := ArmCode.Run(TurnCode(t1, SubImm(top, Imm(below))) + MaskCode(t1, t2, t1), a);
      && Shows(b, top, native, m) && b.status == a.status && b.w[tw] == a.w[tw]
      && b.w[t2] == FieldMask(Slot(m.regTop, -(below as int)))
  {
    TagMaskOf(Slot(m.regTop, -(below as int)));
    var c1, c2 := TurnCode(t1, SubImm(top, Imm(below))), MaskCode(t1, t2, t1);
    var a1 := ArmCode.Run(c1, a);
    RunConcat(c1, c2, a);
    BatchIndex(a, top, t1, native, m, below);
    MaskEffect(a1, t1, t2, t1);
    HalfSame(a1.tag);
  }

  lemma BatchPassHolds(a: Arm, top: Reg, t1: Reg, t2: Reg, tw: Reg, native: bool, m: Machine, tags: seq<Tag>,
                       below: nat)
    requires top != t1 && top != t2 && top != tw && t1 != t2 && t1 != tw && t2 != tw
    requires Holds(a, top, tw, native, m, tags)
    ensures var b := ArmCode.Run(BatchPass(top, t1, t2, tw, below), a);
      Holds(b, top, tw, native, m, tags[Slot(m.regTop, -(below as int)) := Tag.Empty]) && b.status == a.status
  {
    var n := Slot(m.regTop, -(below as int));
    BatchMask(a, top, t1, t2, tw, native, m, below);
    OrMaskTags(a.w[tw], FieldMask(n), tags, n);
    BatchPassEnds(a, top, t1, t2, tw, native, m, below, FieldMask(n), tags[n := Tag.Empty]);
  }

  lemma BatchPassEnds(a: Arm, top: Reg, t1: Reg, t2: Reg, tw: Reg, native: bool, m: Machine, below: nat, mask: bv32,
                      tags: seq<Tag>)
    requires top != tw
    requires var b := ArmCode.Run(TurnCode(t1, SubImm(top, Imm(below))) + MaskCode(t1, t2, t1), a);
      Shows(b, top, native, m) && b.status == a.status && b.w[tw] == a.w[tw] && b.w[t2] == mask
    requires TagsAre(Join(a.w[tw], mask), tags)
    ensures var b := ArmCode.Run(BatchPass(top, t1, t2, tw, below), a);
      Holds(b, top, tw, native, m, tags) && b.status == a.status
  {
    var code := TurnCode(t1, SubImm(top, Imm(below))) + MaskCode(t1, t2, t1);
    var b := ArmCode.Run(code, a);
    ArmCode.RunStep(code, Set(tw, Orr(tw, t2)), a);
    SameTags(Join(a.w[tw], mask), Join(b.w[tw], b.w[t2]), tags);
    OrHolds(b, top, tw, t2, native, m, tags);
  }

  lemma OrMaskTags(x: bv32, mask: bv32, tags: seq<Tag>, n: nat)
    requires n < 8 && TagsAre(x, tags) && mask == FieldMask(n)
    ensures TagsAre(Join(x, mask), tags[n := Tag.Empty])
  {
    FieldMaskIs(n);
    OrTags(x, mask, tags, n);
  }

  lemma SameTags(t: bv32, t': bv32, tags: seq<Tag>)
    requires t == t' && TagsAre(t, tags)
    ensures TagsAre(t', tags)
  {}

  lemma OrBits(x: bv32, k: bv32, j: bv32)
    requires k < 8 && j < 8
    ensures ShiftRight(Join(x, Shift(3, k << 1)), j << 1) & 3 == if j == k then 3 else ShiftRight(x, j << 1) & 3
  {}

  lemma OrAt(x: bv32, mask: bv32, n: nat, k: nat)
    requires n < 8 && k < 8 && mask == Shift(3, Imm(n) << 1)
    ensures TagBits(Join(x, mask), Imm(k)) == if k == n then 3 else TagBits(x, Imm(k))
  {
    ImmSmall(k);
    ImmSmall(n);
    OrBits(x, Imm(n), Imm(k));
    if k < n {
      ImmDiffer(k, n);
    } else if n < k {
      ImmDiffer(n, k);
    }
  }

  lemma OrTags(x: bv32, mask: bv32, tags: seq<Tag>, n: nat)
    requires n < 8 && TagsAre(x, tags) && mask == Shift(3, Imm(n) << 1)
    ensures TagsAre(Join(x, mask), tags[n := Tag.Empty])
  {
    var to := tags[n := Tag.Empty];
    forall k | 0 <= k < 8 ensures TagField(Join(x, mask), k) == TagCodeBits(to[k]) {
      FieldIs(Join(x, mask), k);
      FieldIs(x, k);
      OrAt(x, mask, n, k);
    }
  }

  lemma OrHolds(a: Arm, top: Reg, tw: Reg, t2: Reg, native: bool, m: Machine, tags: seq<Tag>)
    requires top != tw && Shows(a, top, native, m) && TagsAre(Join(a.w[tw], a.w[t2]), tags)
    ensures Holds(ArmCode.Exec(Set(tw, Orr(tw, t2)), a), top, tw, native, m, tags)
  {
    SameTags(Join(a.w[tw], a.w[t2]), ArmCode.Exec(Set(tw, Orr(tw, t2)), a).w[tw], tags);
  }

  lemma LowTags(x: bv32, tags: seq<Tag>)
    requires TagsAre(x, tags)
    ensures TagsAre(Lo16(x), tags)
  {
    forall k | 0 <= k < 8 ensures TagField(Lo16(x), k) == TagCodeBits(tags[k]) {
      FieldIs(Lo16(x), k);
      FieldIs(x, k);
      ImmSmall(k);
      LowBits(x, Imm(k));
    }
  }

  lemma LowBits(x: bv32, k: bv32)
    requires k < 8
    ensures TagBits(Lo16(x), k) == TagBits(x, k)
  {}

  /** emit_x87_tag_set_empty_batch: the tag word is loaded once, or-ed once for
      each deferred pop, and stored once. */
  method EmitTagSetEmptyBatch(top: Reg, t1: Reg, t2: Reg, tw: Reg, count: nat, ghost native: bool)
    returns (code: seq<Ins>)
    requires top != t1 && top != t2 && top != tw && t1 != t2 && t1 != tw && t2 != tw
    ensures Means(code, top, native, [TagEmptyBelow(count)])
  {
    code := [LdrhTag(tw)];
    BatchStarts(top, tw, native, count);
    for i := 0 to count
      invariant Batching(code, top, tw, native, count, count - i)
    {
      BatchExtends(code, top, t1, t2, tw, native, count, count - i - 1);
      code := code + BatchPass(top, t1, t2, tw, count - i);
    }
    BatchEnds(code, top, tw, native, count);
    code := code + [StrhTag(tw)];
  }

  ghost predicate Batching(code: seq<Ins>, top: Reg, tw: Reg, native: bool, hi: nat, lo: nat)
    requires lo <= hi
  {
    forall a: Arm, m: Machine {:trigger ArmCode.Run(code, a), Batch(m.tags, m.regTop, hi, lo)} ::
      BatchingAt(a, ArmCode.Run(code, a), top, tw, native, m, Batch(m.tags, m.regTop, hi, lo))
  }

  ghost predicate BatchingAt(a: Arm, b: Arm, top: Reg, tw: Reg, native: bool, m: Machine, tags: seq<Tag>) {
    Shows(a, top, native, m) ==> Holds(b, top, tw, native, m, tags) && b.status == a.status
  }

  lemma BatchStarts(top: Reg, tw: Reg, native: bool, hi: nat)
    requires top != tw
    ensures Batching([LdrhTag(tw)], top, tw, native, hi, hi)
  {
    var code := [LdrhTag(tw)];
    forall a: Arm, m: Machine
      ensures BatchingAt(a, ArmCode.Run(code, a), top, tw, native, m, Batch(m.tags, m.regTop, hi, hi))
    {
      Run1(LdrhTag(tw), a);
    }
  }

  lemma BatchExtends(code: seq<Ins>, top: Reg, t1: Reg, t2: Reg, tw: Reg, native: bool, hi: nat, lo: nat)
    requires top != t1 && top != t2 && top != tw && t1 != t2 && t1 != tw && t2 != tw && lo < hi
    requires Batching(code, top, tw, native, hi, lo + 1)
    ensures Batching(code + BatchPass(top, t1, t2, tw, lo + 1), top, tw, native, hi, lo)
  {
    var next := BatchPass(top, t1, t2, tw, lo + 1);
    var whole := code + next;
    forall a: Arm, m: Machine
      ensures BatchingAt(a, ArmCode.Run(whole, a), top, tw, native, m, Batch(m.tags, m.regTop, hi, lo))
    {
      var b, tags := ArmCode.Run(code, a), Batch(m.tags, m.regTop, hi, lo + 1);
      assert BatchingAt(a, b, top, tw, native, m, tags);
      BatchNext(a, b, top, t1, t2, tw, native, m, tags, lo + 1);
      assert ArmCode.Run(whole, a) == ArmCode.Run(next, b) by {
        RunConcat(code, next, a);
      }
      BatchingSame(a, ArmCode.Run(next, b), ArmCode.Run(whole, a), top, tw, native, m,
                   tags[Slot(m.regTop, -(lo as int) - 1) := Tag.Empty], Batch(m.tags, m.regTop, hi, lo));
    }
  }

  lemma BatchingSame(a: Arm, b: Arm, b': Arm, top: Reg, tw: Reg, native: bool, m: Machine, tags: seq<Tag>,
                     tags': seq<Tag>)
    requires BatchingAt(a, b, top, tw, native, m, tags) && b == b' && tags == tags'
    ensures BatchingAt(a, b', top, tw, native, m, tags')
  {}

  lemma BatchNext(a: Arm, b: Arm, top: Reg, t1: Reg, t2: Reg, tw: Reg, native: bool, m: Machine, tags: seq<Tag>,
                  below: nat)
    requires top != t1 && top != t2 && top != tw && t1 != t2 && t1 != tw && t2 != tw
    requires |tags| == 8 && BatchingAt(a, b, top, tw, native, m, tags)
    ensures BatchingAt(a, ArmCode.Run(BatchPass(top, t1, t2, tw, below), b), top, tw, native, m,
                       tags[Slot(m.regTop, -(below as int)) := Tag.Empty])
  {
    if Shows(a, top, native, m) {
      BatchPassHolds(b, top, t1, t2, tw, native, m, tags, below);
    }
  }

  lemma BatchEnds(code: seq<Ins>, top: Reg, tw: Reg, native: bool, hi: nat)
    requires Batching(code, top, tw, native, hi, 0)
    ensures Means(code + [StrhTag(tw)], top, native, [TagEmptyBelow(hi)])
  {
    var whole, steps := code + [StrhTag(tw)], [TagEmptyBelow(hi)];
    forall a: Arm, m: Machine
      ensures Refines(a, ArmCode.Run(whole, a), top, native, m, DeferredState.Run(steps, m))
    {
      ArmCode.RunStep(code, StrhTag(tw), a);
      var b, tags := ArmCode.Run(code, a), Batch(m.tags, m.regTop, hi, 0);
      assert BatchingAt(a, b, top, tw, native, m, tags);
      if Shows(a, top, native, m) {
        assert DeferredState.Run(steps, m) == m.(tags := tags) by {
          OneStep(TagEmptyBelow(hi), m);
          BatchIsEmptyBelow(m.tags, m.regTop, hi, 0);
        }
        LowTags(b.w[tw], tags);
      }
    }
  }
}
