/** Constants in general registers (emit_movn, emit_movz_movk_abs64 and
    emit_f64_const in AssemblerHelpers.cpp, emit_load_immediate in
    TranslatorHelpers.cpp).  A word is four halfwords of 16 bits. */
module WideMoves {
  import opened BitmaskImmediate

  type Half = h: seq<bool> | |h| == 16 witness seq(16, _ => false)

  type Place = p: nat | p < 4

  /** The instructions, each with the width it is emitted for; a 32-bit one
      clears the upper half of the register. */
  datatype Move =
    | Movn(wide: bool, hw: Place, imm: Half)
    | Movz(wide: bool, hw: Place, imm: Half)
    | Movk(wide: bool, hw: Place, imm: Half)
    | OrrImm(wide: bool, imms: LogicalImm)     // ORR Rd, XZR, #imm

  function Zeros(): (h: Half) {
    seq(16, _ => false)
  }

  function Ones(): (h: Half) {
    seq(16, _ => true)
  }

  function NotHalf(h: Half): (r: Half) {
    seq(16, i requires 0 <= i < 16 => !h[i])
  }

  function AllZeros(): (w: Word) {
    seq(64, _ => false)
  }

  function At(w: Word, p: Place): (h: Half) {
    w[16 * p..16 * p + 16]
  }

  function Put(w: Word, p: Place, h: Half): (r: Word) {
    w[..16 * p] + h + w[16 * p + 16..]
  }

  /** What a register holds after a write of the given width. */
  function Fit(wide: bool, w: Word): (r: Word) {
    if wide then w else w[..32] + seq(32, _ => false)
  }

  function Places(wide: bool): (n: nat) {
    if wide then 4 else 2
  }

  function Size(wide: bool): (n: nat) {
    if wide then 64 else 32
  }

  predicate Allocated(m: Move) {
    match m
    case OrrImm(wide, imms) => Pattern(wide, imms).Mask?
    case _ => m.hw < Places(m.wide)
  }

  /** The immediate as the instruction decodes it; its fields have six bits. */
  function Pattern(wide: bool, imms: LogicalImm): (d: Decoded) {
    DecodeBitMasks(Size(wide), imms.immN, imms.imms % 64, imms.immr % 64)
  }

  function Exec(m: Move, w: Word): (r: Word) {
    match m
    case Movn(wide, hw, imm) => Fit(wide, Put(AllOnes(), hw, NotHalf(imm)))
    case Movz(wide, hw, imm) => Fit(wide, Put(AllZeros(), hw, imm))
    case Movk(wide, hw, imm) => Fit(wide, Put(w, hw, imm))
    case OrrImm(wide, imms) =>
      match Pattern(wide, imms)
      case Mask(bits) => if |bits| == Size(wide) then bits + seq(64 - Size(wide), _ => false) else w
      case Undefined => w
  }

  function Run(code: seq<Move>, w: Word): (r: Word)
    decreases |code|
  {
    if code == [] then w else Exec(code[|code| - 1], Run(code[..|code| - 1], w))
  }

  /** Whatever the register held, it holds w afterwards. */
  ghost predicate Leaves(code: seq<Move>, w: Word) {
    (forall m :: m in code ==> Allocated(m)) && forall w0: Word {:trigger Run(code, w0)} :: Run(code, w0) == w
  }

  lemma LeavesThen(code: seq<Move>, w: Word, m: Move)
    requires Leaves(code, w) && Allocated(m)
    ensures Leaves(code + [m], Exec(m, w))
  {
    assert (code + [m])[..|code + [m]| - 1] == code;
  }

  lemma LeavesFirst(m: Move, w: Word)
    requires Allocated(m) && forall w0: Word {:trigger Exec(m, w0)} :: Exec(m, w0) == w
    ensures Leaves([m], w)
  {
    assert [m][..0] == [];
    forall w0: Word ensures Run([m], w0) == w {
      assert Exec(m, w0) == w;
    }
  }

  // ---- halfwords ----

  lemma AtPut(w: Word, p: Place, h: Half, q: Place)
    ensures At(Put(w, p, h), q) == if q == p then h else At(w, q)
  {
    var r := Put(w, p, h);
    forall i | 0 <= i < 16 ensures At(r, q)[i] == if q == p then h[i] else At(w, q)[i] {
      assert At(r, q)[i] == r[16 * q + i];
    }
  }

  lemma AtFit(wide: bool, w: Word, q: Place)
    ensures At(Fit(wide, w), q) == if q < Places(wide) then At(w, q) else Zeros()
  {}

  lemma AtConst(q: Place)
    ensures At(AllZeros(), q) == Zeros() && At(AllOnes(), q) == Ones()
  {}

  lemma AtNot(w: Word, q: Place)
    ensures At(Not(w), q) == NotHalf(At(w, q))
  {}

  lemma NotTwice(h: Half)
    ensures NotHalf(NotHalf(h)) == h && (NotHalf(h) == Zeros() <==> h == Ones())
  {
    assert NotHalf(Ones()) == Zeros();
    assert NotHalf(Zeros()) == Ones();
    assert NotHalf(NotHalf(h)) == h;
  }

  lemma SameHalves(v: Word, w: Word)
    requires forall q: Place :: At(v, q) == At(w, q)
    ensures v == w
  {
    forall i: nat | i < 64 ensures v[i] == w[i] {
      assert At(v, i / 16)[i % 16] == At(w, i / 16)[i % 16];
    }
  }

  /** How many of the places from lo up to hi differ from t. */
  function Others(w: Word, t: Half, lo: nat, hi: nat): (n: nat)
    requires hi <= 4
    ensures lo <= hi ==> n <= hi - lo
    decreases hi - lo
  {
    if lo >= hi then 0 else (if At(w, lo) != t then 1 else 0) + Others(w, t, lo + 1, hi)
  }

  lemma {:induction false} OthersSplit(w: Word, t: Half, lo: nat, mid: nat, hi: nat)
    requires lo <= mid <= hi <= 4
    ensures Others(w, t, lo, hi) == Others(w, t, lo, mid) + Others(w, t, mid, hi)
    decreases mid - lo
  {
    if lo < mid {
      OthersSplit(w, t, lo + 1, mid, hi);
    }
  }

  lemma {:induction false} OthersNone(w: Word, t: Half, lo: nat, hi: nat)
    requires hi <= 4 && forall q: Place :: lo <= q < hi ==> At(w, q) == t
    ensures Others(w, t, lo, hi) == 0
    decreases hi - lo
  {
    if lo < hi {
      OthersNone(w, t, lo + 1, hi);
    }
  }

  /** Replacing one halfword adds at most one. */
  lemma {:induction false} OthersPut(v: Word, w: Word, t: Half, p: Place, lo: nat, hi: nat)
    requires hi <= 4 && forall q: Place :: q < hi && q != p ==> At(v, q) == At(w, q)
    ensures Others(v, t, lo, hi) <= Others(w, t, lo, hi) + if lo <= p then 1 else 0
    decreases hi - lo
  {
    if lo < hi {
      OthersPut(v, w, t, p, lo + 1, hi);
    }
  }

  // ---- emit_f64_const and emit_movz_movk_abs64 ----

  /** Places from p up are final, the others still t. */
  ghost predicate FilledFrom(cur: Word, v: Word, t: Half, p: nat) {
    forall q: Place :: At(cur, q) == if q >= p then At(v, q) else t
  }

  lemma FilledAll(cur: Word, v: Word, t: Half, p: nat)
    requires FilledFrom(cur, v, t, p) && forall q: Place :: q < p ==> At(v, q) == t
    ensures cur == v
  {
    SameHalves(cur, v);
  }

  /** A 64-bit MOVK of v's halfword below the filled ones. */
  lemma FillNext(wide: bool, cur: Word, v: Word, t: Half, p: Place)
    requires FilledFrom(cur, v, t, p + 1) && p < Places(wide) && Fit(wide, v) == v
    ensures FilledFrom(Exec(Movk(wide, p, At(v, p)), cur), v, t, p)
  {
    var put := Put(cur, p, At(v, p));
    forall q: Place ensures At(Fit(wide, put), q) == if q >= p then At(v, q) else t {
      AtPut(cur, p, At(v, p), q);
      AtFit(wide, put, q);
      AtFit(wide, v, q);
    }
  }

  lemma SkipNext(cur: Word, v: Word, t: Half, p: Place)
    requires FilledFrom(cur, v, t, p + 1) && At(v, p) == t
    ensures FilledFrom(cur, v, t, p)
  {}

  /** MOVZ, or MOVN of the complement, on the highest halfword that differs. */
  lemma FillFirst(wide: bool, ones: bool, v: Word, p: Place, m: Move) returns (cur: Word)
    requires p < Places(wide) && Fit(wide, v) == v
    requires forall q: Place :: p < q < Places(wide) ==> At(v, q) == if ones then Ones() else Zeros()
    requires m == if ones then Movn(wide, p, NotHalf(At(v, p))) else Movz(wide, p, At(v, p))
    ensures Leaves([m], cur) && FilledFrom(cur, v, if ones then Ones() else Zeros(), p)
  {
    var t := if ones then Ones() else Zeros();
    var base := if ones then AllOnes() else AllZeros();
    var put := Put(base, p, At(v, p));
    NotTwice(At(v, p));
    cur := Fit(wide, put);
    LeavesFirst(m, cur);
    forall q: Place ensures At(cur, q) == if q >= p then At(v, q) else t {
      AtPut(base, p, At(v, p), q);
      AtConst(q);
      AtFit(wide, put, q);
      AtFit(wide, v, q);
    }
  }

  /** One MOVZ and then a MOVK for every further halfword that is not zero. */
  method EmitF64Const(v: Word) returns (code: seq<Move>)
    ensures Leaves(code, v)
    ensures var n := Others(v, Zeros(), 0, 4); |code| == if n == 0 then 1 else n
  {
    code := [];
    var first := true;
    ghost var cur := v;
    var hw := 4;
    while hw > 0
      invariant 0 <= hw <= 4 && (first <==> code == [])
      invariant if first then hw > 0 && Others(v, Zeros(), hw, 4) == 0
                else F64Part(code, cur, v, hw)
    {
      hw := hw - 1;
      var h := At(v, hw);
      if h == Zeros() && !(first && hw == 0) {
        if !first {
          SkipNext(cur, v, Zeros(), hw);
        }
        continue;
      }
      if first {
        NoneOther(v, Zeros(), hw + 1, 4);
        cur := FillFirst(true, false, v, hw, Movz(true, hw, h));
        code := [Movz(true, hw, h)];
      } else {
        FillNext(true, cur, v, Zeros(), hw);
        LeavesThen(code, cur, Movk(true, hw, h));
        cur := Exec(Movk(true, hw, h), cur);
        code := code + [Movk(true, hw, h)];
      }
      first := false;
    }
    FilledAll(cur, v, Zeros(), 0);
  }

  ghost predicate F64Part(code: seq<Move>, cur: Word, v: Word, hw: nat)
    requires hw <= 4
  {
    var n := Others(v, Zeros(), hw, 4);
    && Leaves(code, cur) && FilledFrom(cur, v, Zeros(), hw)
    && (n == 0 ==> hw == 0) && |code| == if n == 0 then 1 else n
  }

  lemma {:induction false} NoneOther(w: Word, t: Half, lo: nat, hi: nat)
    requires hi <= 4 && Others(w, t, lo, hi) == 0
    ensures forall q: Place :: lo <= q < hi ==> At(w, q) == t
    decreases hi - lo
  {
    if lo < hi {
      NoneOther(w, t, lo + 1, hi);
    }
  }

  /** The fixed form: all four halfwords, whatever they are. */
  method EmitAbs64(v: Word) returns (code: seq<Move>)
    ensures Leaves(code, v) && |code| == 4
  {
    var m0, m1, m2, m3 := Movz(true, 0, At(v, 0)), Movk(true, 1, At(v, 1)), Movk(true, 2, At(v, 2)),
        Movk(true, 3, At(v, 3));
    code := [m0] + [m1] + [m2] + [m3];
    ghost var w0 := Exec(m0, AllZeros());
    ghost var w1, w2 := Exec(m1, w0), Exec(m2, Exec(m1, w0));
    LeavesFirst(m0, w0);
    LeavesThen([m0], w0, m1);
    LeavesThen([m0] + [m1], w1, m2);
    LeavesThen([m0] + [m1] + [m2], w2, m3);
    forall q: Place ensures At(Exec(m3, w2), q) == At(v, q) {
      AtPut(AllZeros(), 0, At(v, 0), q);
      AtPut(w0, 1, At(v, 1), q);
      AtPut(w1, 2, At(v, 2), q);
      AtPut(w2, 3, At(v, 3), q);
    }
    SameHalves(Exec(m3, w2), v);
  }

  // ---- emit_load_immediate ----

  method CountHalves(v: Word, t: Half, n: nat) returns (count: nat)
    requires n <= 4
    ensures count + Others(v, t, 0, n) == n
  {
    count := 0;
    for i := 0 to n
      invariant count + Others(v, t, 0, i) == i
    {
      OthersSplit(v, t, 0, i, i + 1);
      assert Others(v, t, i, i + 1) == if At(v, i) != t then 1 else 0;
      if At(v, i) == t {
        count := count + 1;
      }
    }
  }

  /** The highest halfword that is not zero, place 0 if there is none. */
  method HighestHalf(w: Word, n: nat) returns (hi: Place)
    requires 1 <= n <= 4
    ensures hi < n && (forall q: Place :: hi < q < n ==> At(w, q) == Zeros())
    ensures hi == 0 || At(w, hi) != Zeros()
  {
    var i := n - 1;
    while i >= 0
      invariant -1 <= i < n && forall q: Place :: i < q < n ==> At(w, q) == Zeros()
    {
      if At(w, i) != Zeros() {
        return i;
      }
      i := i - 1;
    }
    hi := 0;
  }

  method LowestHalf(w: Word, n: nat) returns (lo: Place)
    requires 1 <= n <= 4
    ensures lo < n && ((lo == 0 && forall q: Place :: q < n ==> At(w, q) == Zeros()) ||
                       (At(w, lo) != Zeros() && forall q: Place :: q < lo ==> At(w, q) == Zeros()))
  {
    for i := 0 to n
      invariant forall q: Place :: q < i ==> At(w, q) == Zeros()
    {
      if At(w, i) != Zeros() {
        return i;
      }
    }
    lo := 0;
  }

  function Trivial(ones: bool): (t: Half) {
    if ones then Ones() else Zeros()
  }

  /** How many moves the chosen form takes. */
  function MoveCount(wide: bool, v: Word): (n: nat) {
    var z, o := Others(v, Zeros(), 0, Places(wide)), Others(v, Ones(), 0, Places(wide));
    if z == 0 || o == 0 then 1 else if z <= o then z else o
  }

  /** MOVZ or MOVN, whichever leaves fewer halfwords over, and MOVKs. */
  method EmitMoves(wide: bool, v: Word) returns (code: seq<Move>)
    requires Fit(wide, v) == v
    ensures Leaves(code, v) && |code| == MoveCount(wide, v)
  {
    var n := Places(wide);
    var zeros := CountHalves(v, Zeros(), n);
    var ones := CountHalves(v, Ones(), n);
    var useMovn := zeros < ones;
    var working := if useMovn then Not(v) else v;
    var hi := HighestHalf(working, n);
    var lo := LowestHalf(working, n);
    TrivialWorking(v, working, useMovn);
    code := EmitFrom(wide, useMovn, v, working, lo, hi);
    MovesNeeded(wide, v, useMovn, lo, hi, n);
  }

  ghost predicate Works(v: Word, working: Word, ones: bool) {
    forall q: Place ::
      && (At(working, q) == Zeros() <==> At(v, q) == Trivial(ones))
      && At(working, q) == if ones then NotHalf(At(v, q)) else At(v, q)
  }

  lemma TrivialWorking(v: Word, working: Word, ones: bool)
    requires working == if ones then Not(v) else v
    ensures Works(v, working, ones)
  {
    forall q: Place
      ensures (At(working, q) == Zeros() <==> At(v, q) == Trivial(ones))
        && At(working, q) == if ones then NotHalf(At(v, q)) else At(v, q)
    {
      AtNot(v, q);
      NotTwice(At(v, q));
    }
  }

  /** All the halfwords outside lo..hi are trivial. */
  ghost predicate Spans(v: Word, t: Half, lo: Place, hi: Place, n: nat) {
    lo <= hi < n && forall q: Place :: q < n && (q < lo || hi < q) ==> At(v, q) == t
  }

  method EmitFrom(wide: bool, ones: bool, v: Word, working: Word, lo: Place, hi: Place) returns (code: seq<Move>)
    requires Fit(wide, v) == v && Works(v, working, ones) && Spans(v, Trivial(ones), lo, hi, Places(wide))
    ensures Leaves(code, v) && |code| == 1 + Others(v, Trivial(ones), lo, hi)
  {
    var start := At(working, hi);
    var first := if ones then Movn(wide, hi, start) else Movz(wide, hi, start);
    ghost var cur := FillFirst(wide, ones, v, hi, first);
    code := [first];
    var i := hi as int - 1;
    while i >= lo
      invariant lo as int - 1 <= i < hi
      invariant Leaves(code, cur) && FilledFrom(cur, v, Trivial(ones), i + 1)
      invariant |code| == 1 + Others(v, Trivial(ones), i + 1, hi)
    {
      var chunk := At(v, i);
      if chunk != Trivial(ones) {
        FillNext(wide, cur, v, Trivial(ones), i);
        LeavesThen(code, cur, Movk(wide, i, chunk));
        cur := Exec(Movk(wide, i, chunk), cur);
        code := code + [Movk(wide, i, chunk)];
      } else {
        SkipNext(cur, v, Trivial(ones), i);
      }
      i := i - 1;
    }
    FilledAll(cur, v, Trivial(ones), lo);
  }

  lemma MovesNeeded(wide: bool, v: Word, ones: bool, lo: Place, hi: Place, n: nat)
    requires n == Places(wide) && Spans(v, Trivial(ones), lo, hi, n)
    requires At(v, hi) != Trivial(ones) || (hi == 0 && lo == 0)
    requires ones <==> Others(v, Ones(), 0, n) < Others(v, Zeros(), 0, n)
    ensures 1 + Others(v, Trivial(ones), lo, hi) == MoveCount(wide, v)
  {
    OthersSplit(v, Trivial(ones), 0, lo, n);
    OthersSplit(v, Trivial(ones), lo, hi, n);
    OthersNone(v, Trivial(ones), 0, lo);
    OthersNone(v, Trivial(ones), hi + 1, n);
    assert Others(v, Trivial(ones), hi, n) == if At(v, hi) != Trivial(ones) then 1 else 0;
    NotBoth(v, n);
  }

  lemma NotBoth(v: Word, n: nat)
    requires 1 <= n <= 4
    ensures Others(v, Zeros(), 0, n) > 0 || Others(v, Ones(), 0, n) > 0
  {
    assert Zeros()[0] != Ones()[0];
  }

  /** The constant a logical immediate gives, with the upper half cleared. */
  lemma OrrLeaves(wide: bool, imms: LogicalImm, v: Word)
    requires imms.Decodes(v[..Size(wide)]) && Fit(wide, v) == v
    ensures Leaves([OrrImm(wide, imms)], v)
  {
    assert |v[..Size(wide)]| == Size(wide);
    assert imms.imms % 64 == imms.imms && imms.immr % 64 == imms.immr;
    assert v == v[..Size(wide)] + seq(64 - Size(wide), _ => false) by {
      if !wide {
        assert v == v[..32] + seq(32, _ => false);
      }
    }
    LeavesFirst(OrrImm(wide, imms), v);
  }

  /** One logical immediate will do: at the full width, or at 32 bits when the
      upper half is clear. */
  ghost predicate OneOrr(is64: bool, v: Word) {
    Encodable(v[..Size(is64)]) || (is64 && Fit(false, v) == v && Encodable(v[..32]))
  }

  /** emit_load_immediate: the register holds the value at the width asked for;
      zero costs nothing because the zero register is returned instead.  Either
      one logical immediate is found, which is when there is one, or the number
      of moves is as MoveCount says. */
  method LoadImmediate(is64: bool, value: Word) returns (zr: bool, code: seq<Move>)
    ensures zr <==> value == AllZeros()
    ensures zr ==> code == []
    ensures !zr ==> Leaves(code, Fit(is64, value))
    ensures !zr ==> |code| == if OneOrr(is64, Fit(is64, value)) then 1 else MoveCount(is64, Fit(is64, value))
  {
    if value == AllZeros() {
      return true, [];
    }
    zr := false;
    var v := Fit(is64, value);
    assert Fit(is64, v) == v;
    if v == AllZeros() {
      code := ClearedOnly(is64);
      return;
    }
    var ok, enc := IsBitmaskImmediate(is64, v);
    if ok {
      OrrLeaves(is64, enc, v);
      return false, [OrrImm(is64, enc)];
    }
    if is64 && v == Fit(false, v) {
      ok, enc := IsBitmaskImmediate(false, v);
      if ok {
        OrrLeaves(false, enc, v);
        return false, [OrrImm(false, enc)];
      }
    }
    code := EmitMoves(is64, v);
  }

  /** A value whose lower half alone is zero still needs its register cleared. */
  method ClearedOnly(is64: bool) returns (code: seq<Move>)
    ensures Leaves(code, AllZeros()) && |code| == 1 == MoveCount(is64, AllZeros())
  {
    var m := Movz(is64, 0, Zeros());
    code := [m];
    assert Put(AllZeros(), 0, Zeros()) == AllZeros();
    assert Fit(is64, AllZeros()) == AllZeros();
    LeavesFirst(m, AllZeros());
    forall q: Place ensures At(AllZeros(), q) == Zeros() {
      AtConst(q);
    }
    OthersNone(AllZeros(), Zeros(), 0, Places(is64));
  }

  // ---- no sequence of moves is shorter ----

  predicate MovesOf(wide: bool, code: seq<Move>) {
    forall m :: m in code ==> !m.OrrImm? && m.wide == wide && Allocated(m)
  }

  /** Every move leaves at most one more halfword different from all zeros, or
      from all ones. */
  lemma {:induction false} EachMoveAddsOne(wide: bool, code: seq<Move>)
    requires MovesOf(wide, code)
    ensures var v, n := Run(code, AllZeros()), Places(wide);
      Others(v, Zeros(), 0, n) <= |code| || Others(v, Ones(), 0, n) <= |code|
    decreases |code|
  {
    var n := Places(wide);
    if code == [] {
      forall q: Place ensures At(AllZeros(), q) == Zeros() {
        AtConst(q);
      }
      OthersNone(AllZeros(), Zeros(), 0, n);
    } else {
      var init, m := code[..|code| - 1], code[|code| - 1];
      EachMoveAddsOne(wide, init);
      assert m in code;
      MoveAddsOne(wide, m, Run(init, AllZeros()), n);
    }
  }

  lemma MoveAddsOne(wide: bool, m: Move, w: Word, n: nat)
    requires !m.OrrImm? && m.wide == wide && Allocated(m) && n == Places(wide)
    ensures m.Movk? ==> forall t: Half :: Others(Exec(m, w), t, 0, n) <= Others(w, t, 0, n) + 1
    ensures m.Movz? ==> Others(Exec(m, w), Zeros(), 0, n) <= 1
    ensures m.Movn? ==> Others(Exec(m, w), Ones(), 0, n) <= 1
  {
    var base := match m case Movk(_, _, _) => w case Movz(_, _, _) => AllZeros() case _ => AllOnes();
    var imm := if m.Movn? then NotHalf(m.imm) else m.imm;
    assert Exec(m, w) == Fit(wide, Put(base, m.hw, imm));
    forall q: Place ensures q < n && q != m.hw ==> At(Exec(m, w), q) == At(base, q) {
      AtPut(base, m.hw, imm, q);
      AtFit(wide, Put(base, m.hw, imm), q);
      AtConst(q);
    }
    forall t: Half ensures Others(Exec(m, w), t, 0, n) <= Others(base, t, 0, n) + 1 {
      OthersPut(Exec(m, w), base, t, m.hw, 0, n);
    }
    forall q: Place ensures At(AllZeros(), q) == Zeros() && At(AllOnes(), q) == Ones() {
      AtConst(q);
    }
    OthersNone(AllZeros(), Zeros(), 0, n);
    OthersNone(AllOnes(), Ones(), 0, n);
  }

  /** MoveCount is the least possible: no moves of the same width that leave the
      value, even from a zeroed register, are fewer. */
  lemma NoShorterMoves(wide: bool, code: seq<Move>, v: Word)
    requires MovesOf(wide, code) && Run(code, AllZeros()) == v && v != AllZeros()
    ensures MoveCount(wide, v) <= |code|
  {
    EachMoveAddsOne(wide, code);
  }
}
