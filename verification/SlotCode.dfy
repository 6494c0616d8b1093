/** Addressing the slots: the key computations of emit_load_st and emit_store_st
    (TranslatorX87Helpers.cpp) in the compact and the native layout, with and
    without a pinned register-file base. */
module SlotCode {
  import opened X87Stack
  import opened DeferredState
  import opened ArmCode
  import opened StackCode

  /** Slot offsets written out. */
  lemma Offsets(native: bool)
    ensures !native ==>
      Offset(false, 0) == 8 && Offset(false, 1) == 16 && Offset(false, 2) == 24 && Offset(false, 3) == 32
    ensures !native ==>
      Offset(false, 4) == 40 && Offset(false, 5) == 48 && Offset(false, 6) == 56 && Offset(false, 7) == 64
    ensures native ==> Offset(true, 0) == 6 && Offset(true, 1) == 16 && Offset(true, 2) == 26 && Offset(true, 3) == 36
    ensures native ==> Offset(true, 4) == 46 && Offset(true, 5) == 56 && Offset(true, 6) == 66 && Offset(true, 7) == 76
  {}

  lemma Numbers()
    ensures Imm(0) == 0 && Imm(1) == 1 && Imm(2) == 2 && Imm(3) == 3
    ensures Imm(4) == 4 && Imm(5) == 5 && Imm(6) == 6 && Imm(7) == 7
  {}

  /** The offset as the emitters compute it from the register's number. */
  lemma OffsetOf(native: bool, k: nat)
    requires k < 8
    ensures Offset(native, k) == if native then 6 + 10 * Imm(k) else 8 + 8 * Imm(k)
  {
    Offsets(native);
    Numbers();
    assert k == 0 || k == 1 || k == 2 || k == 3 || k == 4 || k == 5 || k == 6 || k == 7;
  }

  lemma OffsetsDiffer(native: bool, j: nat, k: nat)
    requires j < k < 8
    ensures Offset(native, j) != Offset(native, k)
  {
    OffsetOf(native, j);
    OffsetOf(native, k);
    ImmDiffer(j, k);
    ImmSmall(k);
    Injective(Imm(j), Imm(k));
  }

  lemma Injective(x: bv32, y: bv32)
    requires x < y < 8
    ensures 6 + 10 * x != 6 + 10 * y && 8 + 8 * x != 8 + 8 * y
  {}

  // ---- keys ----

  lemma CompactCached(k: bv32)
    requires k < 8
    ensures Address(8, k, true) == 8 + 8 * k
  {}

  lemma CompactUncached(k: bv32)
    requires k < 8
    ensures Address(0, UbfmOf(k, 29, 28) + 8, false) == 8 + 8 * k
  {
    assert Low(29) == 0x1FFFFFFF;
  }

  lemma NativeKey(x: bv32)
    ensures UbfmOf(x, 31, 2) + Shift(UbfmOf(x, 31, 2), 2) == 10 * (x & 7)
  {
    assert Low(3) == 7;
    TimesTen(x & 7);
  }

  lemma TimesTen(k: bv32)
    requires k < 8
    ensures (k << 1) + ((k << 1) << 2) == 10 * k
  {}

  lemma NativeBase(y: bv32)
    ensures Address(6, y, false) == y + 6 && Address(0, y + 6, false) == y + 6
  {}

  lemma NativeOffset(x: bv32, n: nat)
    requires n < 8 && x & 7 == Imm(n)
    ensures UbfmOf(x, 31, 2) + Shift(UbfmOf(x, 31, 2), 2) + 6 == Offset(true, n)
  {
    NativeKey(x);
    OffsetOf(true, n);
  }

  /** Where the emitted access finds the slot at depth d: [Xbase + base, Wkey
      {, LSL #3}] after `code`. */
  datatype Key = Key(code: seq<Ins>, reg: Reg, base: bv32, scaled: bool)

  function PhysIndex(top: Reg, d: nat, tmp: Reg): (c: seq<Ins>) {
    if d == 0 then [Set(tmp, Mov(top))] else TurnCode(tmp, AddImm(top, Imm(d)))
  }

  function NumberCode(top: Reg, d: nat, tmp: Reg): (c: seq<Ins>) {
    if d == 0 then [Set(tmp, Mov(top))] else [Set(tmp, AddImm(top, Imm(d)))]
  }

  function NativeCode(top: Reg, d: nat, tmp: Reg): (c: seq<Ins>) {
    NumberCode(top, d, tmp) + [Set(tmp, Ubfm(tmp, 31, 2)), Set(tmp, AddLsl(tmp, tmp, 2))]
  }

  function KeyOf(native: bool, cached: bool, top: Reg, d: nat, tmp: Reg): (k: Key) {
    if native then
      Key(NativeCode(top, d, tmp) + (if cached then [] else [Set(tmp, AddImm(tmp, 6))]), tmp, if cached then 6 else 0,
          false)
    else if cached then
      if d == 0 then Key([], top, 8, true) else Key(PhysIndex(top, d, tmp), tmp, 8, true)
    else
      Key(PhysIndex(top, d, tmp) + [Set(tmp, Ubfm(tmp, 29, 28)), Set(tmp, AddImm(tmp, 8))], tmp, 0, false)
  }

  lemma OneSet(a: Arm, t: Reg, e: Alu)
    ensures ArmCode.Run([Set(t, e)], a) == a.(w := a.w[t := Eval(e, a.w)])
  {
    Run1(Set(t, e), a);
  }

  lemma TwoSets(a: Arm, t: Reg, e1: Alu, e2: Alu)
    ensures ArmCode.Run([Set(t, e1), Set(t, e2)], a) ==
      a.(w := a.w[t := Eval(e2, a.w[t := Eval(e1, a.w)])])
  {
    var w1 := a.w[t := Eval(e1, a.w)];
    var v := Eval(e2, w1);
    assert ArmCode.Exec(Set(t, e2), a.(w := w1)) == a.(w := a.w[t := v]) by {
      assert w1[t := v] == a.w[t := v];
    }
    Run2(Set(t, e1), Set(t, e2), a);
  }

  /** Only the scratch register changes. */
  ghost predicate OnlyTmp(a: Arm, b: Arm, t: Reg) {
    b == a.(w := a.w[t := b.w[t]])
  }

  lemma PhysIndexEffect(a: Arm, top: Reg, d: nat, tmp: Reg, native: bool, m: Machine)
    requires top != tmp && Shows(a, top, native, m)
    ensures var b := ArmCode.Run(PhysIndex(top, d, tmp), a);
      OnlyTmp(a, b, tmp) && b.w[tmp] == Imm(Slot(m.regTop, d))
  {
    if d == 0 {
      OneSet(a, tmp, Mov(top));
    } else {
      assert Eval(AddImm(top, Imm(d)), a.w) & 7 == Imm(Slot(m.regTop, d)) by {
        ImmSlot(m.regTop, d);
      }
      TurnEffect(a, tmp, AddImm(top, Imm(d)));
    }
  }

  lemma TimesTenEffect(a: Arm, tmp: Reg, n: nat)
    requires n < 8 && a.w[tmp] & 7 == Imm(n)
    ensures var b := ArmCode.Run([Set(tmp, Ubfm(tmp, 31, 2)), Set(tmp, AddLsl(tmp, tmp, 2))], a);
      OnlyTmp(a, b, tmp) && b.w[tmp] + 6 == Offset(true, n)
  {
    TwoSets(a, tmp, Ubfm(tmp, 31, 2), AddLsl(tmp, tmp, 2));
    NativeOffset(a.w[tmp], n);
  }

  /** ST(d)'s number, not masked yet. */
  lemma NumberEffect(a: Arm, top: Reg, d: nat, tmp: Reg, native: bool, m: Machine)
    requires top != tmp && Shows(a, top, native, m)
    ensures var b := ArmCode.Run(NumberCode(top, d, tmp), a);
      OnlyTmp(a, b, tmp) && b.w[tmp] & 7 == Imm(Slot(m.regTop, d))
  {
    NumberValue(a.w[top], m.regTop, d);
    if d == 0 {
      OneSet(a, tmp, Mov(top));
    } else {
      OneSet(a, tmp, AddImm(top, Imm(d)));
    }
  }

  lemma NumberValue(t: bv32, n: nat, d: nat)
    requires n < 8 && t == Imm(n)
    ensures Plus(t, Imm(d)) & 7 == Imm(Slot(n, d)) && (d == 0 ==> t & 7 == Imm(Slot(n, d)))
  {
    ImmSlot(n, d);
    ImmSmall(n);
    SmallLow(t);
  }

  /** ST(d)'s number times ten. */
  lemma NativeEffect(a: Arm, top: Reg, d: nat, tmp: Reg, native: bool, m: Machine)
    requires top != tmp && Shows(a, top, native, m)
    ensures var b := ArmCode.Run(NativeCode(top, d, tmp), a);
      OnlyTmp(a, b, tmp) && b.w[tmp] + 6 == Offset(true, Slot(m.regTop, d))
  {
    RunConcat(NumberCode(top, d, tmp), [Set(tmp, Ubfm(tmp, 31, 2)), Set(tmp, AddLsl(tmp, tmp, 2))], a);
    NumberEffect(a, top, d, tmp, native, m);
    TimesTenEffect(ArmCode.Run(NumberCode(top, d, tmp), a), tmp, Slot(m.regTop, d));
  }

  /** The key leads to the slot at depth d. */
  lemma KeyLeads(a: Arm, top: Reg, d: nat, tmp: Reg, native: bool, cached: bool, m: Machine)
    requires top != tmp && Shows(a, top, native, m)
    ensures var k := KeyOf(native, cached, top, d, tmp);
      var b := ArmCode.Run(k.code, a);
      OnlyTmp(a, b, tmp) && Address(k.base, b.w[k.reg], k.scaled) == Offset(native, Slot(m.regTop, d))
  {
    if native {
      NativeLeads(a, top, d, tmp, native, cached, m);
    } else if cached {
      CachedLeads(a, top, d, tmp, native, cached, m);
    } else {
      UncachedLeads(a, top, d, tmp, native, cached, m);
    }
  }

  lemma NativeLeads(a: Arm, top: Reg, d: nat, tmp: Reg, native: bool, cached: bool, m: Machine)
    requires native && top != tmp && Shows(a, top, native, m)
    ensures var k := KeyOf(native, cached, top, d, tmp);
      var b := ArmCode.Run(k.code, a);
      OnlyTmp(a, b, tmp) && Address(k.base, b.w[k.reg], k.scaled) == Offset(native, Slot(m.regTop, d))
  {
    var code, post := NativeCode(top, d, tmp), if cached then [] else [Set(tmp, AddImm(tmp, 6))];
    var a1 := ArmCode.Run(code, a);
    RunConcat(code, post, a);
    NativeEffect(a, top, d, tmp, native, m);
    NativeBase(a1.w[tmp]);
    if !cached {
      OneSet(a1, tmp, AddImm(tmp, 6));
    }
  }

  lemma CachedLeads(a: Arm, top: Reg, d: nat, tmp: Reg, native: bool, cached: bool, m: Machine)
    requires !native && cached && top != tmp && Shows(a, top, native, m)
    ensures var k := KeyOf(native, cached, top, d, tmp);
      var b := ArmCode.Run(k.code, a);
      OnlyTmp(a, b, tmp) && Address(k.base, b.w[k.reg], k.scaled) == Offset(native, Slot(m.regTop, d))
  {
    var n := Slot(m.regTop, d);
    ImmSmall(n);
    CompactCached(Imm(n));
    OffsetOf(native, n);
    if d > 0 {
      PhysIndexEffect(a, top, d, tmp, native, m);
    }
  }

  lemma UncachedLeads(a: Arm, top: Reg, d: nat, tmp: Reg, native: bool, cached: bool, m: Machine)
    requires !native && !cached && top != tmp && Shows(a, top, native, m)
    ensures var k := KeyOf(native, cached, top, d, tmp);
      var b := ArmCode.Run(k.code, a);
      OnlyTmp(a, b, tmp) && Address(k.base, b.w[k.reg], k.scaled) == Offset(native, Slot(m.regTop, d))
  {
    var n := Slot(m.regTop, d);
    var a1 := ArmCode.Run(PhysIndex(top, d, tmp), a);
    PhysIndexEffect(a, top, d, tmp, native, m);
    RunConcat(PhysIndex(top, d, tmp), [Set(tmp, Ubfm(tmp, 29, 28)), Set(tmp, AddImm(tmp, 8))], a);
    TwoSets(a1, tmp, Ubfm(tmp, 29, 28), AddImm(tmp, 8));
    ImmSmall(n);
    CompactUncached(Imm(n));
    OffsetOf(native, n);
  }

  // ---- loads and stores ----

  function LoadCode(native: bool, cached: bool, top: Reg, d: nat, tmp: Reg, dt: Reg): (c: seq<Ins>) {
    var k := KeyOf(native, cached, top, d, tmp);
    k.code + [LdrD(dt, k.reg, k.base, k.scaled)]
  }

  function StoreCode(native: bool, cached: bool, top: Reg, d: nat, tmp: Reg, dt: Reg): (c: seq<Ins>) {
    var k := KeyOf(native, cached, top, d, tmp);
    k.code + [StrD(dt, k.reg, k.base, k.scaled)]
  }

  lemma SlotsStored(native: bool, file: bv32 -> Value, st: seq<Value>, n: nat, v: Value)
    requires SlotsAre(native, file, st) && n < 8
    ensures SlotsAre(native, Write(file, Offset(native, n), v), st[n := v])
  {
    var file', st' := Write(file, Offset(native, n), v), st[n := v];
    forall k | 0 <= k < 8 ensures file'(Offset(native, k)) == st'[k] {
      if k < n {
        OffsetsDiffer(native, k, n);
      } else if n < k {
        OffsetsDiffer(native, n, k);
      }
    }
  }

  lemma LoadAt(a: Arm, b: Arm, top: Reg, tmp: Reg, dt: Reg, key: Reg, base: bv32, scaled: bool, native: bool,
               m: Machine, n: nat)
    requires top != tmp && n < 8 && Shows(a, top, native, m) && OnlyTmp(a, b, tmp)
    requires Address(base, b.w[key], scaled) == Offset(native, n)
    ensures var c := ArmCode.Exec(LdrD(dt, key, base, scaled), b);
      Shows(c, top, native, m.(fpr := m.fpr[dt := m.st[n]])) && c.status == a.status
  {
    assert a.file(Offset(native, n)) == m.st[n];
  }

  lemma StoreAt(a: Arm, b: Arm, top: Reg, tmp: Reg, dt: Reg, key: Reg, base: bv32, scaled: bool, native: bool,
                m: Machine, n: nat)
    requires top != tmp && n < 8 && Shows(a, top, native, m) && OnlyTmp(a, b, tmp)
    requires Address(base, b.w[key], scaled) == Offset(native, n)
    ensures var c := ArmCode.Exec(StrD(dt, key, base, scaled), b);
      Shows(c, top, native, m.(st := m.st[n := m.fpr[dt]])) && c.status == a.status
  {
    SlotsStored(native, a.file, m.st, n, m.fpr[dt]);
  }

  lemma LoadShows(a: Arm, top: Reg, d: nat, tmp: Reg, dt: Reg, native: bool, cached: bool, m: Machine)
    requires top != tmp && d < 8 && Shows(a, top, native, m)
    ensures var b := ArmCode.Run(LoadCode(native, cached, top, d, tmp, dt), a);
      Shows(b, top, native, m.(fpr := m.fpr[dt := m.st[Slot(m.regTop, d)]])) && b.status == a.status
  {
    var k := KeyOf(native, cached, top, d, tmp);
    KeyLeads(a, top, d, tmp, native, cached, m);
    LoadAt(a, ArmCode.Run(k.code, a), top, tmp, dt, k.reg, k.base, k.scaled, native, m, Slot(m.regTop, d));
    ArmCode.RunStep(k.code, LdrD(dt, k.reg, k.base, k.scaled), a);
  }

  lemma StoreShows(a: Arm, top: Reg, d: nat, tmp: Reg, dt: Reg, native: bool, cached: bool, m: Machine)
    requires top != tmp && d < 8 && Shows(a, top, native, m)
    ensures var b := ArmCode.Run(StoreCode(native, cached, top, d, tmp, dt), a);
      Shows(b, top, native, m.(st := m.st[Slot(m.regTop, d) := m.fpr[dt]])) && b.status == a.status
  {
    var k := KeyOf(native, cached, top, d, tmp);
    KeyLeads(a, top, d, tmp, native, cached, m);
    StoreAt(a, ArmCode.Run(k.code, a), top, tmp, dt, k.reg, k.base, k.scaled, native, m, Slot(m.regTop, d));
    ArmCode.RunStep(k.code, StrD(dt, k.reg, k.base, k.scaled), a);
  }

  /** emit_load_st. */
  lemma Loaded(top: Reg, d: nat, tmp: Reg, dt: Reg, native: bool, cached: bool)
    requires top != tmp && d < 8
    ensures Means(LoadCode(native, cached, top, d, tmp, dt), top, native, [LoadSt(d, dt)])
  {
    var code, steps := LoadCode(native, cached, top, d, tmp, dt), [LoadSt(d, dt)];
    forall a: Arm, m: Machine
      ensures Refines(a, ArmCode.Run(code, a), top, native, m, DeferredState.Run(steps, m))
    {
      if Shows(a, top, native, m) {
        LoadShows(a, top, d, tmp, dt, native, cached, m);
        OneStep(LoadSt(d, dt), m);
      }
    }
  }

  /** emit_store_st. */
  lemma Stored(top: Reg, d: nat, tmp: Reg, dt: Reg, native: bool, cached: bool)
    requires top != tmp && d < 8
    ensures Means(StoreCode(native, cached, top, d, tmp, dt), top, native, [StoreSt(d, dt)])
  {
    var code, steps := StoreCode(native, cached, top, d, tmp, dt), [StoreSt(d, dt)];
    forall a: Arm, m: Machine
      ensures Refines(a, ArmCode.Run(code, a), top, native, m, DeferredState.Run(steps, m))
    {
      if Shows(a, top, native, m) {
        StoreShows(a, top, d, tmp, dt, native, cached, m);
        OneStep(StoreSt(d, dt), m);
      }
    }
  }
}
