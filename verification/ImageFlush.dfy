/** The permutation flush when 80-bit slots are among those that move (the
    first half of emit_x87_perm_flush in TranslatorX87Helpers.cpp): every slot
    travels as its ten bytes, through an FP register for the first eight and
    another for the last two. */
module ImageFlush {
  import opened X87Stack
  import opened DeferredState
  import opened ArmCode
  import opened SlotCode
  import opened PermFlush

  /** The registers of one flush: each of the two that PermFlush names has a
      partner for the last two bytes. */
  datatype Pairs = Pairs(save: Reg, chain: Reg, hSave: Reg, hChain: Reg)
  {
    predicate Distinct() {
      save != chain && save != hSave && save != hChain && chain != hSave && chain != hChain && hSave != hChain
    }

    function High(r: Reg): (h: Reg) {
      if r == save then hSave else hChain
    }
  }

  /** The last two bytes of a slot, eight bytes after its first.  They are a cell
      of their own: no other access of these emitters overlaps them. */
  function Tail(k: nat): (o: bv32) {
    Plus(Offset(true, k), 8)
  }

  lemma CellsDiffer(j: nat, k: nat)
    requires j < 8 && k < 8
    ensures Offset(true, j) != Tail(k) && (j != k ==> Offset(true, j) != Offset(true, k) && Tail(j) != Tail(k))
  {
    OffsetOf(true, j);
    OffsetOf(true, k);
    ImmSmall(j);
    ImmSmall(k);
    Apart(Imm(j), Imm(k));
    if j < k {
      OffsetsDiffer(true, j, k);
    } else if k < j {
      OffsetsDiffer(true, k, j);
    }
  }

  lemma Apart(x: bv32, y: bv32)
    requires x < 8 && y < 8
    ensures 6 + 10 * x != 6 + 10 * y + 8
  {}

  // ---- emit_native_slot_image ----

  /** Both halves, one after the other. */
  function Halves(store: bool, tmp: Reg, base: bv32, dd: Reg, hd: Reg): (c: seq<Ins>) {
    if store then [StrD(dd, tmp, base, false), Set(tmp, AddImm(tmp, 8)), StrD(hd, tmp, base, false)]
    else [LdrD(dd, tmp, base, false), Set(tmp, AddImm(tmp, 8)), LdrD(hd, tmp, base, false)]
  }

  function ImageCode(store: bool, cached: bool, top: Reg, d: Index, tmp: Reg, dd: Reg, hd: Reg): (c: seq<Ins>) {
    var k := KeyOf(true, cached, top, d, tmp);
    k.code + Halves(store, tmp, k.base, dd, hd)
  }

  /** The ten bytes of slot n in the two registers. */
  function FetchedImage(a: Arm, n: nat, dd: Reg, hd: Reg): (d: seq<Value>)
    ensures |d| == 32
  {
    a.d[dd := a.file(Offset(true, n))][hd := a.file(Tail(n))]
  }

  function StoredImage(a: Arm, n: nat, dd: Reg, hd: Reg): (f: bv32 -> Value) {
    Write(Write(a.file, Offset(true, n), a.d[dd]), Tail(n), a.d[hd])
  }

  /** Beside the scratch register b differs from a in FP registers and slots. */
  ghost predicate Became(a: Arm, b: Arm, tmp: Reg, d: seq<Value>, file: bv32 -> Value) {
    |d| == 32 && b == a.(w := a.w[tmp := b.w[tmp]], d := d, file := file)
  }

  /** The image of slot n has gone to the two registers, or come from them. */
  ghost predicate Transferred(a: Arm, b: Arm, store: bool, n: nat, tmp: Reg, dd: Reg, hd: Reg) {
    if store then Became(a, b, tmp, a.d, StoredImage(a, n, dd, hd))
    else Became(a, b, tmp, FetchedImage(a, n, dd, hd), a.file)
  }

  lemma NextFromSix(x: bv32)
    ensures Address(6, Plus(x, 8), false) == Plus(Address(6, x, false), 8)
  {}

  lemma NextFromZero(x: bv32)
    ensures Address(0, Plus(x, 8), false) == Plus(Address(0, x, false), 8)
  {}

  /** The second access is eight bytes on. */
  ghost predicate NextCell(base: bv32, x: bv32) {
    Address(base, Plus(x, 8), false) == Plus(Address(base, x, false), 8)
  }

  lemma KeyGoesOn(cached: bool, top: Reg, d: Index, tmp: Reg, x: bv32)
    ensures NextCell(KeyOf(true, cached, top, d, tmp).base, x)
  {
    if cached {
      NextFromSix(x);
    } else {
      NextFromZero(x);
    }
  }

  /** After the key: both accesses. */
  lemma HalvesFetch(a: Arm, tmp: Reg, base: bv32, dd: Reg, hd: Reg, n: nat)
    requires NextCell(base, a.w[tmp]) && Address(base, a.w[tmp], false) == Offset(true, n)
    ensures Transferred(a, ArmCode.Run(Halves(false, tmp, base, dd, hd), a), false, n, tmp, dd, hd)
  {
    var a1 := a.(d := a.d[dd := a.file(Offset(true, n))]);
    var a2 := a1.(w := a1.w[tmp := Plus(a1.w[tmp], 8)]);
    assert ArmCode.Exec(LdrD(dd, tmp, base, false), a) == a1;
    assert ArmCode.Exec(Set(tmp, AddImm(tmp, 8)), a1) == a2;
    assert ArmCode.Exec(LdrD(hd, tmp, base, false), a2) == a2.(d := a2.d[hd := a.file(Tail(n))]);
    Run3(LdrD(dd, tmp, base, false), Set(tmp, AddImm(tmp, 8)), LdrD(hd, tmp, base, false), a);
  }

  lemma HalvesStore(a: Arm, tmp: Reg, base: bv32, dd: Reg, hd: Reg, n: nat)
    requires NextCell(base, a.w[tmp]) && Address(base, a.w[tmp], false) == Offset(true, n)
    ensures Transferred(a, ArmCode.Run(Halves(true, tmp, base, dd, hd), a), true, n, tmp, dd, hd)
  {
    var a1 := a.(file := Write(a.file, Offset(true, n), a.d[dd]));
    var a2 := a1.(w := a1.w[tmp := Plus(a1.w[tmp], 8)]);
    assert ArmCode.Exec(StrD(dd, tmp, base, false), a) == a1;
    assert ArmCode.Exec(Set(tmp, AddImm(tmp, 8)), a1) == a2;
    assert ArmCode.Exec(StrD(hd, tmp, base, false), a2) == a2.(file := Write(a1.file, Tail(n), a.d[hd]));
    Run3(StrD(dd, tmp, base, false), Set(tmp, AddImm(tmp, 8)), StrD(hd, tmp, base, false), a);
  }

  lemma TransferredThen(a: Arm, b: Arm, c: Arm, store: bool, n: nat, tmp: Reg, dd: Reg, hd: Reg)
    requires OnlyTmp(a, b, tmp) && Transferred(b, c, store, n, tmp, dd, hd)
    ensures Transferred(a, c, store, n, tmp, dd, hd)
  {
    assert a.w[tmp := b.w[tmp]][tmp := c.w[tmp]] == a.w[tmp := c.w[tmp]];
  }

  lemma ImageEffect(a: Arm, store: bool, cached: bool, top: Reg, t: nat, d: Index, tmp: Reg, dd: Reg, hd: Reg)
    requires top != tmp && t < 8 && a.w[top] == Imm(t)
    ensures Transferred(a, ArmCode.Run(ImageCode(store, cached, top, d, tmp, dd, hd), a), store, Slot(t, d),
                        tmp, dd, hd)
  {
    var k, n := KeyOf(true, cached, top, d, tmp), Slot(t, d);
    var b := ArmCode.Run(k.code, a);
    ImageKey(a, cached, top, t, d, tmp);
    KeyGoesOn(cached, top, d, tmp, b.w[tmp]);
    if store {
      HalvesStore(b, tmp, k.base, dd, hd, n);
    } else {
      HalvesFetch(b, tmp, k.base, dd, hd, n);
    }
    RunConcat(k.code, Halves(store, tmp, k.base, dd, hd), a);
    TransferredThen(a, b, ArmCode.Run(Halves(store, tmp, k.base, dd, hd), b), store, n, tmp, dd, hd);
  }

  lemma ImageKey(a: Arm, cached: bool, top: Reg, t: nat, d: Index, tmp: Reg)
    requires top != tmp && t < 8 && a.w[top] == Imm(t)
    ensures var k := KeyOf(true, cached, top, d, tmp);
      var b := ArmCode.Run(k.code, a);
      OnlyTmp(a, b, tmp) && Address(k.base, b.w[tmp], false) == Offset(true, Slot(t, d))
  {
    ImmSmall(t);
    var m := ShowsOne(a, top, true);
    SameNumber(m.regTop, t);
    KeyLeads(a, top, d, tmp, true, cached, m);
  }

  lemma SameNumber(j: nat, k: nat)
    requires j < 8 && k < 8 && Imm(j) == Imm(k)
    ensures j == k
  {
    if j < k {
      ImmDiffer(j, k);
    } else if k < j {
      ImmDiffer(k, j);
    }
  }

  // ---- two halves as one value ----

  type Join2 = (Value, Value) -> Value

  /** Slots and registers of the machine are made of the two halves, in whatever
      way f puts them together. */
  ghost predicate Pictures(a: Arm, m: Machine, p: Pairs, f: Join2) {
    && (forall k :: 0 <= k < 8 ==> m.st[k] == f(a.file(Offset(true, k)), a.file(Tail(k))))
    && m.fpr[p.save] == f(a.d[p.save], a.d[p.hSave]) && m.fpr[p.chain] == f(a.d[p.chain], a.d[p.hChain])
  }

  /** The status word, the tag word, TOP and the other FP registers. */
  ghost predicate Kept(a: Arm, b: Arm, p: Pairs, top: Reg) {
    && b.status == a.status && b.tag == a.tag && b.w[top] == a.w[top]
    && forall r: Reg :: r !in {p.save, p.chain, p.hSave, p.hChain} ==> b.d[r] == a.d[r]
  }

  /** One move of the flush. */
  function MoveCode(cached: bool, top: Reg, tmp: Reg, step: Step, p: Pairs): (c: seq<Ins>) {
    match step
    case LoadSt(d, r) => ImageCode(false, cached, top, d, tmp, r, p.High(r))
    case StoreSt(d, r) => ImageCode(true, cached, top, d, tmp, r, p.High(r))
    case _ => []
  }

  lemma MovePictures(a: Arm, m: Machine, cached: bool, top: Reg, tmp: Reg, step: Step, p: Pairs, f: Join2)
    requires top != tmp && p.Distinct() && (step.LoadSt? || step.StoreSt?) && step.r in {p.save, p.chain}
    requires a.w[top] == Imm(m.regTop) && Pictures(a, m, p, f)
    ensures var b := ArmCode.Run(MoveCode(cached, top, tmp, step, p), a);
      Kept(a, b, p, top) && Pictures(b, DeferredState.Exec(step, m), p, f)
  {
    var n, b := Slot(m.regTop, step.d), ArmCode.Run(MoveCode(cached, top, tmp, step, p), a);
    ImageEffect(a, step.StoreSt?, cached, top, m.regTop, step.d, tmp, step.r, p.High(step.r));
    if step.StoreSt? {
      StoredPictures(a.file, m.st, n, a.d[step.r], a.d[p.High(step.r)], f);
      StorePictures(a, b, m, n, top, tmp, step.r, p, f);
    } else {
      FetchPictures(a, b, m, n, top, tmp, step.r, p, f);
    }
  }

  lemma FetchPictures(a: Arm, b: Arm, m: Machine, n: nat, top: Reg, tmp: Reg, r: Reg, p: Pairs, f: Join2)
    requires top != tmp && p.Distinct() && r in {p.save, p.chain} && n < 8 && Pictures(a, m, p, f)
    requires Transferred(a, b, false, n, tmp, r, p.High(r))
    ensures Kept(a, b, p, top) && Pictures(b, m.(fpr := m.fpr[r := m.st[n]]), p, f)
  {
    assert m.st[n] == f(a.file(Offset(true, n)), a.file(Tail(n)));
    assert b.d == FetchedImage(a, n, r, p.High(r)) && b.file == a.file;
  }

  lemma StorePictures(a: Arm, b: Arm, m: Machine, n: nat, top: Reg, tmp: Reg, r: Reg, p: Pairs, f: Join2)
    requires top != tmp && p.Distinct() && r in {p.save, p.chain} && n < 8 && Pictures(a, m, p, f)
    requires Transferred(a, b, true, n, tmp, r, p.High(r))
    requires forall k :: 0 <= k < 8 ==>
      m.st[n := f(a.d[r], a.d[p.High(r)])][k] == f(StoredImage(a, n, r, p.High(r))(Offset(true, k)),
                                                   StoredImage(a, n, r, p.High(r))(Tail(k)))
    ensures Kept(a, b, p, top) && Pictures(b, m.(st := m.st[n := m.fpr[r]]), p, f)
  {
    assert m.fpr[r] == f(a.d[r], a.d[p.High(r)]);
  }

  lemma StoredPictures(file: bv32 -> Value, st: seq<Value>, n: nat, lo: Value, hi: Value, f: Join2)
    requires n < 8 && |st| == 8 && forall k :: 0 <= k < 8 ==> st[k] == f(file(Offset(true, k)), file(Tail(k)))
    ensures var file' := Write(Write(file, Offset(true, n), lo), Tail(n), hi);
      forall k :: 0 <= k < 8 ==> st[n := f(lo, hi)][k] == f(file'(Offset(true, k)), file'(Tail(k)))
  {
    var file' := Write(Write(file, Offset(true, n), lo), Tail(n), hi);
    forall k | 0 <= k < 8 ensures st[n := f(lo, hi)][k] == f(file'(Offset(true, k)), file'(Tail(k))) {
      CellsDiffer(n, k);
      CellsDiffer(k, n);
    }
  }

  function Images(cached: bool, top: Reg, tmp: Reg, code: seq<Step>, p: Pairs): (c: seq<Ins>)
    decreases |code|
  {
    if code == [] then []
    else Images(cached, top, tmp, code[..|code| - 1], p) + MoveCode(cached, top, tmp, code[|code| - 1], p)
  }

  lemma {:induction false} ImagesPicture(a: Arm, m: Machine, cached: bool, top: Reg, tmp: Reg, code: seq<Step>,
                                         p: Pairs, f: Join2)
    requires top != tmp && p.Distinct() && OnlyMoves(code, p.save, p.chain)
    requires a.w[top] == Imm(m.regTop) && Pictures(a, m, p, f)
    ensures var b, m' := ArmCode.Run(Images(cached, top, tmp, code, p), a), DeferredState.Run(code, m);
      Kept(a, b, p, top) && m'.regTop == m.regTop && Pictures(b, m', p, f)
    decreases |code|
  {
    if code != [] {
      var init, last := code[..|code| - 1], code[|code| - 1];
      ImagesPicture(a, m, cached, top, tmp, init, p, f);
      var b, m' := ArmCode.Run(Images(cached, top, tmp, init, p), a), DeferredState.Run(init, m);
      MovePictures(b, m', cached, top, tmp, last, p, f);
      RunConcat(Images(cached, top, tmp, init, p), MoveCode(cached, top, tmp, last, p), a);
    }
  }

  // ---- the result ----

  /** A machine of which the state is a picture. */
  lemma Pictured(a: Arm, t: nat, p: Pairs, f: Join2) returns (m: Machine)
    requires t < 8 && p.Distinct()
    ensures m.regTop == t && Pictures(a, m, p, f)
  {
    var st := seq(8, k requires 0 <= k < 8 => f(a.file(Offset(true, k)), a.file(Tail(k))));
    var fpr := a.d[p.save := f(a.d[p.save], a.d[p.hSave])][p.chain := f(a.d[p.chain], a.d[p.hChain])];
    m := Machine(t, seq(8, _ => Tag.Empty), st, t, fpr, []);
  }

  /** Slot s ends with the ten bytes of the slot at the depth the permutation
      names. */
  ghost predicate ImagesMoved(a: Arm, b: Arm, perm: Perm, t: nat, p: Pairs, top: Reg)
    requires t < 8
  {
    && Kept(a, b, p, top)
    && forall s: nat {:trigger Tail(s)} :: s < 8 ==>
      var from := Slot(t, perm[Depth(t, s)]);
      b.file(Offset(true, s)) == a.file(Offset(true, from)) && b.file(Tail(s)) == a.file(Tail(from))
  }

  lemma HalfMoved(a: Arm, b: Arm, perm: Perm, t: nat, p: Pairs, m: Machine, m': Machine, f: Join2, s: nat)
    requires t < 8 && s < 8 && m'.st == Permuted(perm, t, m.st)
    requires Pictures(a, m, p, f) && Pictures(b, m', p, f)
    ensures HalfAt(a, b, perm, t, s, f)
  {
    PermutedAt(perm, t, m.st, s);
  }

  /** What f sees of slot s is what it saw of the slot the permutation names. */
  ghost predicate HalfAt(a: Arm, b: Arm, perm: Perm, t: nat, s: nat, f: Join2)
    requires t < 8 && s < 8
  {
    var from := Slot(t, perm[Depth(t, s)]);
    f(b.file(Offset(true, s)), b.file(Tail(s))) == f(a.file(Offset(true, from)), a.file(Tail(from)))
  }

  lemma ViewMoved(a: Arm, perm: Perm, t: nat, p: Pairs, code: seq<Step>, cached: bool, top: Reg, tmp: Reg, f: Join2)
    requires t < 8 && a.w[top] == Imm(t) && top != tmp && p.Distinct()
    requires Moves(code, p.save, p.chain, perm, 8) && OnlyMoves(code, p.save, p.chain)
    ensures var b := ArmCode.Run(Images(cached, top, tmp, code, p), a);
      Kept(a, b, p, top) && forall s: nat :: s < 8 ==> HalfAt(a, b, perm, t, s, f)
  {
    var b := ArmCode.Run(Images(cached, top, tmp, code, p), a);
    var m := Pictured(a, t, p, f);
    var m' := DeferredState.Run(code, m);
    MovesPermute(code, p.save, p.chain, perm, m);
    ImagesPicture(a, m, cached, top, tmp, code, p, f);
    forall s: nat | s < 8 ensures HalfAt(a, b, perm, t, s, f) {
      HalfMoved(a, b, perm, t, p, m, m', f, s);
    }
  }

  /** What holds for every view of the halves holds for each of them. */
  lemma BothMoved(a: Arm, perm: Perm, t: nat, p: Pairs, code: seq<Step>, cached: bool, top: Reg, tmp: Reg)
    requires t < 8 && a.w[top] == Imm(t) && top != tmp && p.Distinct()
    requires Moves(code, p.save, p.chain, perm, 8) && OnlyMoves(code, p.save, p.chain)
    ensures ImagesMoved(a, ArmCode.Run(Images(cached, top, tmp, code, p), a), perm, t, p, top)
  {
    var lo: Join2, hi: Join2 := (x, y) => x, (x, y) => y;
    ViewMoved(a, perm, t, p, code, cached, top, tmp, lo);
    ViewMoved(a, perm, t, p, code, cached, top, tmp, hi);
    var b := ArmCode.Run(Images(cached, top, tmp, code, p), a);
    forall s: nat {:trigger Tail(s)} | s < 8
      ensures var from := Slot(t, perm[Depth(t, s)]);
        b.file(Offset(true, s)) == a.file(Offset(true, from)) && b.file(Tail(s)) == a.file(Tail(from))
    {
      assert HalfAt(a, b, perm, t, s, lo);
      assert HalfAt(a, b, perm, t, s, hi);
    }
  }

  /** Run from any state, the flush moves whole images as the permutation says. */
  method ImageFlushCode(perm: Perm, p: Pairs, top: Reg, tmp: Reg, cached: bool) returns (arm: seq<Ins>)
    requires p.Distinct() && top != tmp
    ensures forall a: Arm, t: nat {:trigger ArmCode.Run(arm, a), Imm(t)} :: t < 8 && a.w[top] == Imm(t) ==>
      ImagesMoved(a, ArmCode.Run(arm, a), perm, t, p, top)
  {
    var code := EmitPermFlush(perm, p.save, p.chain);
    arm := Images(cached, top, tmp, code, p);
    forall a: Arm, t: nat | t < 8 && a.w[top] == Imm(t) ensures ImagesMoved(a, ArmCode.Run(arm, a), perm, t, p, top) {
      BothMoved(a, perm, t, p, code, cached, top, tmp);
    }
  }
}
