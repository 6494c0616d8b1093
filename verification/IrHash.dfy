/** Block identity (ProfileRuntime.cpp): the canonical bytes of a decoded
    instruction stream, the 64-bit FNV-1a fold over them, and the registry that
    hands out block ids. */
module IrHash {
  import opened Bits

  type Byte = b: nat | b < 256

  type U16 = x: nat | x < 0x1_0000

  type U64 = x: nat | x < 0x1_0000_0000_0000_0000

  /** The 16-byte operand union; byte 0 is the kind. */
  type Operand = o: seq<Byte> | |o| == 16 witness seq(16, _ => 0)

  type Word = w: seq<Byte> | |w| == 4 witness seq(4, _ => 0)

  datatype RawInstr = Instr(
    pc: Word, opcode: U16, repPrefix: Byte, flagLiveness: Byte, pad08: Byte, rexEscape: Byte,
    numOperands: Byte, irKind: Byte, irSubkind: Byte, auxOpcode: U16, fieldF: Byte, operands: seq<Operand>)

  type Instr = i: RawInstr | |i.operands| == 4
    witness Instr(seq(4, _ => 0), 0, 0, 0, 0, 0, 0, 0, 0, 0, 0, seq(4, _ => seq(16, _ => 0)))

  function ZeroOperand(): (o: Operand) {
    seq(16, _ => 0)
  }

  // ---- canonical form ----

  /** The low twelve bits of a little-endian 64-bit value. */
  function PageOffset(o: Operand): (v: seq<Byte>)
    ensures |v| == 8
  {
    [o[8], o[9] % 16, 0, 0, 0, 0, 0, 0]
  }

  function CanonOperand(o: Operand): (c: Operand) {
    if o[0] == 0 then [0, o[1], o[2], o[3], 0, 0, 0, 0] + [0, 0, 0, 0, 0, 0, 0, 0]        // Register
    else if o[0] == 1 then o                                                              // MemRef
    else if o[0] == 2 then [2, o[1], o[2], 0, 0, 0, 0, 0] + PageOffset(o)                 // AbsMem
    else if o[0] == 3 then
      [3, o[1], o[2], 0, o[4], 0, 0, 0] + (if o[4] != 0 then PageOffset(o) else o[8..])   // Immediate
    else if o[0] == 4 then [4, 0, 0, 0, 0, 0, 0, 0] + o[8..]                              // BranchOffset
    else if o[0] == 5 then [5, o[1], 0, 0, 0, 0, 0, 0] + [0, 0, 0, 0, 0, 0, 0, 0]         // ConditionCode
    else if o[0] == 6 then [6, 0, o[2], 0, 0, 0, 0, 0] + [0, 0, 0, 0, 0, 0, 0, 0]         // SegmentRegister
    else o
  }

  function Used(i: Instr): (n: nat)
    ensures n <= 4
  {
    if i.numOperands > 4 then 4 else i.numOperands
  }

  function Bytes16(x: U16): (b: seq<Byte>)
    ensures |b| == 2
  {
    [x % 256, x / 256]
  }

  /** The instruction as memory holds it. */
  function Layout(i: Instr): (b: seq<Byte>)
    ensures |b| == 80
  {
    i.pc + Bytes16(i.opcode) + [i.repPrefix, i.flagLiveness, i.pad08, i.rexEscape, i.numOperands, i.irKind, i.irSubkind]
    + Bytes16(i.auxOpcode) + [i.fieldF] + Flat(i.operands)
  }

  function Flat(os: seq<Operand>): (b: seq<Byte>)
    ensures |b| == 16 * |os|
  {
    if os == [] then [] else Flat(os[..|os| - 1]) + os[|os| - 1]
  }

  function CanonOperands(i: Instr): (os: seq<Operand>)
    ensures |os| == 4
  {
    seq(4, k requires 0 <= k < 4 => if k < Used(i) then CanonOperand(i.operands[k]) else ZeroOperand())
  }

  /** The copy that is hashed; `internal` maps the host's opcode numbers. */
  function Canon(i: Instr, internal: U16 -> U16): (c: Instr) {
    i.(pc := [0, 0, 0, 0], opcode := internal(i.opcode), flagLiveness := 0, pad08 := 0, operands := CanonOperands(i))
  }

  /** A little-endian value. */
  function Number(b: seq<Byte>): (n: nat) {
    if b == [] then 0 else b[0] + 256 * Number(b[1..])
  }

  function Value(o: Operand): (n: nat) {
    Number(o[8..])
  }

  /** Operands that mean the same: equal in the fields their kind has, and in an
      address only up to a slide by whole pages. */
  predicate SameOperand(o: Operand, p: Operand) {
    && o[0] == p[0]
    && match o[0] {
         case 0 => o[1..4] == p[1..4]
         case 2 => o[1..3] == p[1..3] && Value(o) % 4096 == Value(p) % 4096
         case 3 => o[1..3] == p[1..3] && o[4] == p[4] &&
           (if o[4] != 0 then Value(o) % 4096 == Value(p) % 4096 else Value(o) == Value(p))
         case 4 => Value(o) == Value(p)
         case 5 => o[1] == p[1]
         case 6 => o[2] == p[2]
         case _ => o == p
       }
  }

  predicate SameInstr(i: Instr, j: Instr, internal: U16 -> U16) {
    && internal(i.opcode) == internal(j.opcode) && i.repPrefix == j.repPrefix && i.rexEscape == j.rexEscape
    && i.numOperands == j.numOperands && i.irKind == j.irKind && i.irSubkind == j.irSubkind
    && i.auxOpcode == j.auxOpcode && i.fieldF == j.fieldF
    && forall k :: 0 <= k < Used(i) ==> SameOperand(i.operands[k], j.operands[k])
  }

  lemma {:induction false} NumberUnique(a: seq<Byte>, b: seq<Byte>)
    requires |a| == |b| && Number(a) == Number(b)
    ensures a == b
  {
    if a != [] {
      NumberUnique(a[1..], b[1..]);
      assert a == [a[0]] + a[1..] && b == [b[0]] + b[1..];
    }
  }

  lemma ValueUnique(o: Operand, p: Operand)
    ensures Value(o) == Value(p) <==> o[8..] == p[8..]
  {
    if Value(o) == Value(p) {
      NumberUnique(o[8..], p[8..]);
    }
  }

  /** Twelve bits of a value are a byte and a half. */
  lemma LowTwelve(o: Operand)
    ensures Value(o) % 4096 == TwelveBits(o[8], o[9])
  {
    var b := o[8..];
    assert b[1..][1..] == o[10..];
    Twelve(o[8], o[9], Number(o[10..]));
    assert Number(b) == b[0] + 256 * Number(b[1..]);
    assert Number(b[1..]) == b[1] + 256 * Number(o[10..]);
  }

  function TwelveBits(low: nat, high: nat): (n: nat) {
    low + 256 * (high % 16)
  }

  lemma Twelve(low: nat, high: nat, rest: nat)
    requires low < 256 && high < 256
    ensures (low + 256 * (high + 256 * rest)) % 4096 == TwelveBits(low, high)
  {
    var h0, h1 := high % 16, high / 16;
    assert low + 256 * (high + 256 * rest) == low + 256 * h0 + 4096 * (h1 + 16 * rest);
    Reduced(low + 256 * h0, h1 + 16 * rest);
  }

  lemma Reduced(r: nat, k: nat)
    requires r < 4096
    ensures (r + 4096 * k) % 4096 == r
  {}

  lemma PageOffsetIff(o: Operand, p: Operand)
    ensures PageOffset(o) == PageOffset(p) <==> Value(o) % 4096 == Value(p) % 4096
  {
    LowTwelve(o);
    LowTwelve(p);
    assert PageOffset(o)[0] == o[8] && PageOffset(o)[1] == o[9] % 16;
    assert PageOffset(p)[0] == p[8] && PageOffset(p)[1] == p[9] % 16;
  }

  lemma OperandIff(o: Operand, p: Operand)
    ensures CanonOperand(o) == CanonOperand(p) <==> SameOperand(o, p)
  {
    PageOffsetIff(o, p);
    ValueUnique(o, p);
    var c, d := CanonOperand(o), CanonOperand(p);
    assert c[0] == o[0] && d[0] == p[0];
    if o[0] == p[0] {
      if o[0] == 0 {
        assert o[1..4] == [o[1], o[2], o[3]] && p[1..4] == [p[1], p[2], p[3]];
        assert c[1] == o[1] && c[2] == o[2] && c[3] == o[3] && d[1] == p[1] && d[2] == p[2] && d[3] == p[3];
      } else if o[0] == 2 || o[0] == 3 || o[0] == 4 {
        assert o[1..3] == [o[1], o[2]] && p[1..3] == [p[1], p[2]];
        assert c == c[..8] + c[8..] && d == d[..8] + d[8..];
      } else if o[0] == 5 {
        assert c[1] == o[1] && d[1] == p[1];
      } else if o[0] == 6 {
        assert c[2] == o[2] && d[2] == p[2];
      }
    }
  }

  /** The canonical form is the operand with fields cleared and none moved... */
  lemma CanonKeeps(o: Operand, k: nat)
    requires k < 16
    ensures var c := CanonOperand(o); c[k] == o[k] || c[k] == 0 || (k == 9 && c[k] == o[k] % 16)
  {}

  /** ...and means the same. */
  lemma CanonMeans(o: Operand)
    ensures SameOperand(o, CanonOperand(o))
  {
    var c := CanonOperand(o);
    if o[0] == 0 {
      assert c[1..4] == [c[1], c[2], c[3]] && o[1..4] == [o[1], o[2], o[3]];
    } else if o[0] == 2 {
      WideMeans(o, c);
    } else if o[0] == 3 {
      WideMeans(o, c);
    } else if o[0] == 4 {
      assert c[8..] == o[8..];
    }
  }

  lemma WideMeans(o: Operand, c: Operand)
    requires c[1] == o[1] && c[2] == o[2] && (c[8..] == o[8..] || c[8..] == PageOffset(o))
    ensures c[1..3] == o[1..3] && Value(o) % 4096 == Value(c) % 4096 && (c[8..] == o[8..] ==> Value(o) == Value(c))
  {
    assert c[1..3] == [c[1], c[2]] && o[1..3] == [o[1], o[2]];
    assert c[8] == c[8..][0] && c[9] == c[8..][1];
    LowTwelve(o);
    LowTwelve(c);
  }

  lemma {:induction false} FlatIff(os: seq<Operand>, ps: seq<Operand>)
    requires |os| == |ps|
    ensures Flat(os) == Flat(ps) <==> os == ps
  {
    if os != [] {
      var n := |os| - 1;
      FlatIff(os[..n], ps[..n]);
      assert Flat(os)[..16 * n] == Flat(os[..n]) && Flat(os)[16 * n..] == os[n];
      assert Flat(ps)[..16 * n] == Flat(ps[..n]) && Flat(ps)[16 * n..] == ps[n];
      assert os == os[..n] + [os[n]] && ps == ps[..n] + [ps[n]];
    }
  }

  lemma LayoutParts(i: Instr)
    ensures var b := Layout(i);
      && b[..4] == i.pc && b[4] == i.opcode % 256 && b[5] == i.opcode / 256 && b[6] == i.repPrefix
      && b[7] == i.flagLiveness
      && b[8] == i.pad08 && b[9] == i.rexEscape && b[10] == i.numOperands && b[11] == i.irKind && b[12] == i.irSubkind
      && b[13] == i.auxOpcode % 256 && b[14] == i.auxOpcode / 256 && b[15] == i.fieldF && b[16..] == Flat(i.operands)
  {}

  /** The bytes determine the instruction. */
  lemma LayoutUnique(i: Instr, j: Instr)
    requires Layout(i) == Layout(j)
    ensures i == j
  {
    LayoutParts(i);
    LayoutParts(j);
    FlatIff(i.operands, j.operands);
  }

  lemma OperandsIff(i: Instr, j: Instr)
    requires Used(i) == Used(j)
    ensures CanonOperands(i) == CanonOperands(j) <==>
      forall k :: 0 <= k < Used(i) ==> SameOperand(i.operands[k], j.operands[k])
  {
    var c, d := CanonOperands(i), CanonOperands(j);
    forall k | 0 <= k < Used(i) ensures c[k] == d[k] <==> SameOperand(i.operands[k], j.operands[k]) {
      OperandIff(i.operands[k], j.operands[k]);
    }
  }

  lemma CanonIff(i: Instr, j: Instr, internal: U16 -> U16)
    ensures Layout(Canon(i, internal)) == Layout(Canon(j, internal)) <==> SameInstr(i, j, internal)
  {
    var c, d := Canon(i, internal), Canon(j, internal);
    if Layout(c) == Layout(d) {
      LayoutUnique(c, d);
    }
    if i.numOperands == j.numOperands {
      OperandsIff(i, j);
    }
  }

  /** The bytes that are hashed. */
  function Bytes(s: seq<Instr>, internal: U16 -> U16): (b: seq<Byte>)
    ensures |b| == 80 * |s|
  {
    if s == [] then [] else Bytes(s[..|s| - 1], internal) + Layout(Canon(s[|s| - 1], internal))
  }

  predicate SameStream(s: seq<Instr>, t: seq<Instr>, internal: U16 -> U16) {
    |s| == |t| && forall k :: 0 <= k < |s| ==> SameInstr(s[k], t[k], internal)
  }

  /** Exactly the streams that mean the same have the same canonical bytes. */
  lemma {:induction false} StreamIff(s: seq<Instr>, t: seq<Instr>, internal: U16 -> U16)
    ensures Bytes(s, internal) == Bytes(t, internal) <==> SameStream(s, t, internal)
  {
    if |s| == |t| && s != [] {
      var n := |s| - 1;
      StreamIff(s[..n], t[..n], internal);
      CanonIff(s[n], t[n], internal);
      Ends(s, internal);
      Ends(t, internal);
      Halves(Bytes(s, internal), Bytes(t, internal), 80 * n);
      LastInstr(s, t, internal);
    }
  }

  lemma Halves(a: seq<Byte>, b: seq<Byte>, k: nat)
    requires k <= |a| && k <= |b|
    ensures a == b <==> a[..k] == b[..k] && a[k..] == b[k..]
  {
    assert a == a[..k] + a[k..] && b == b[..k] + b[k..];
  }

  lemma LastInstr(s: seq<Instr>, t: seq<Instr>, internal: U16 -> U16)
    requires |s| == |t| > 0
    ensures var n := |s| - 1;
      SameStream(s, t, internal) <==> SameStream(s[..n], t[..n], internal) && SameInstr(s[n], t[n], internal)
  {}

  lemma Ends(s: seq<Instr>, internal: U16 -> U16)
    requires s != []
    ensures var b, n := Bytes(s, internal), |s| - 1;
      |b| == 80 * n + 80 && b[..80 * n] == Bytes(s[..n], internal) && b[80 * n..] == Layout(Canon(s[n], internal))
  {
    assert Bytes(s, internal) == Bytes(s[..|s| - 1], internal) + Layout(Canon(s[|s| - 1], internal));
  }

  // ---- FNV-1a ----

  const OFFSET: U64 := 14695981039346656037

  /** h ^ b, which only touches the low byte. */
  function XorByte(h: U64, b: Byte): (r: U64) {
    LowByte();
    var high := h / 256;
    256 * high + Xor(h % 256, b, 8)
  }

  lemma LowByte()
    ensures Pow2(8) == 256
  {
    assert Pow2(4) == 16;
  }

  function Xor(x: nat, y: nat, bits: nat): (r: nat)
    ensures r < Pow2(bits)
  {
    if bits == 0 then 0 else (if x % 2 != y % 2 then 1 else 0) + 2 * Xor(x / 2, y / 2, bits - 1)
  }

  lemma {:induction false} XorUnique(x: nat, y: nat, x': nat, y': nat, bits: nat)
    requires x < Pow2(bits) && y < Pow2(bits) && x' < Pow2(bits) && y' < Pow2(bits)
    requires Xor(x, y, bits) == Xor(x', y', bits)
    ensures x == x' <==> y == y'
  {
    if bits > 0 {
      XorUnique(x / 2, y / 2, x' / 2, y' / 2, bits - 1);
    }
  }

  /** Bit k of a number. */
  function Bit(x: nat, k: nat): (b: nat)
    ensures b < 2
  {
    if k == 0 then x % 2 else Bit(x / 2, k - 1)
  }

  /** Xor is the exclusive or, bit by bit. */
  lemma {:induction false} XorBits(x: nat, y: nat, bits: nat, k: nat)
    ensures Bit(Xor(x, y, bits), k) == if k < bits && Bit(x, k) != Bit(y, k) then 1 else 0
  {
    if bits == 0 {
      NoBits(k);
    } else if k > 0 {
      var z := Xor(x / 2, y / 2, bits - 1);
      assert Xor(x, y, bits) / 2 == z;
      XorBits(x / 2, y / 2, bits - 1, k - 1);
    }
  }

  lemma {:induction false} NoBits(k: nat)
    ensures Bit(0, k) == 0
  {
    if k > 0 {
      NoBits(k - 1);
    }
  }

  /** The byte meets the low eight bits of the state and leaves the others. */
  lemma XorByteBits(h: U64, b: Byte, k: nat)
    ensures k < 8 ==> Bit(XorByte(h, b) % 256, k) == if Bit(h % 256, k) != Bit(b, k) then 1 else 0
    ensures XorByte(h, b) / 256 == h / 256
  {
    LowByte();
    XorBits(h % 256, b, 8, k);
    SplitByte(h / 256, Xor(h % 256, b, 8), XorByte(h, b) / 256, XorByte(h, b) % 256);
  }

  /** The published values of 64-bit FNV-1a for the empty string, "a" and "b". */
  lemma KnownHashes()
    ensures Fold(OFFSET, []) == 0xCBF2_9CE4_8422_2325
    ensures Fold(OFFSET, [0x61]) == 0xAF63_DC4C_8601_EC8C
    ensures Fold(OFFSET, [0x62]) == 0xAF63_DF4C_8601_F1A5
  {
    assert [0x61][..0] == [] && [0x62][..0] == [];
    KnownSteps();
  }

  lemma KnownSteps()
    ensures Step(OFFSET, 0x61) == 0xAF63_DC4C_8601_EC8C && Step(OFFSET, 0x62) == 0xAF63_DF4C_8601_F1A5
  {
    assert Xor(0x25, 0x61, 8) == 0x44 && Xor(0x25, 0x62, 8) == 0x47 by { LowBits(); }
    OffsetStep(0x61, 0x44, 0xCBF2_9CE4_8422_2344);
    OffsetStep(0x62, 0x47, 0xCBF2_9CE4_8422_2347);
    KnownTimes();
  }

  lemma KnownTimes()
    ensures Times(0xCBF2_9CE4_8422_2344) == 0xAF63_DC4C_8601_EC8C
    ensures Times(0xCBF2_9CE4_8422_2347) == 0xAF63_DF4C_8601_F1A5
  {}

  lemma OffsetStep(b: Byte, low: nat, mixed: U64)
    requires Xor(0x25, b, 8) == low && mixed == 0xCBF2_9CE4_8422_2300 + low
    ensures Step(OFFSET, b) == Times(mixed)
  {
    assert OFFSET % 256 == 0x25 && OFFSET / 256 == 0xCB_F29C_E484_2223;
    assert XorByte(OFFSET, b) == mixed;
  }

  lemma LowBits()
    ensures Xor(0x25, 0x61, 8) == 0x44 && Xor(0x25, 0x62, 8) == 0x47
  {
    assert Xor(0, 0, 1) == 0;
    assert Xor(0, 1, 2) == 1;
    assert Xor(1, 3, 3) == 2;
    assert Xor(2, 6, 4) == 4;
    assert Xor(4, 12, 5) == 8;
    assert Xor(9, 24, 6) == 0x11;
    assert Xor(0x12, 0x30, 7) == 0x22 && Xor(0x12, 0x31, 7) == 0x23;
  }

  function Times(h: U64): (r: U64) {
    h * 1099511628211 % 0x1_0000_0000_0000_0000
  }

  function Step(h: U64, b: Byte): (r: U64) {
    Times(XorByte(h, b))
  }

  function Fold(h: U64, bytes: seq<Byte>): (r: U64)
    decreases |bytes|
  {
    if bytes == [] then h else Step(Fold(h, bytes[..|bytes| - 1]), bytes[|bytes| - 1])
  }

  /** The prime is odd, so multiplying by it can be undone: its inverse modulo
      2^64 is 0xCE965057AFF6957B. */
  lemma NoMultiple(e: int, d: int)
    requires e * 1099511628211 == 0x1_0000_0000_0000_0000 * d
    requires -0x1_0000_0000_0000_0000 < e < 0x1_0000_0000_0000_0000
    ensures e == 0
  {
    var t := d * 0xCE96_5057_AFF6_957B - 887285111055 * e;
    assert e == 0x1_0000_0000_0000_0000 * t;
  }

  lemma TimesUnique(x: U64, y: U64)
    requires Times(x) == Times(y)
    ensures x == y
  {
    var m := 0x1_0000_0000_0000_0000;
    NoMultiple(x - y, x * 1099511628211 / m - y * 1099511628211 / m);
  }

  lemma XorByteUnique(h: U64, b: Byte, h': U64, b': Byte)
    requires XorByte(h, b) == XorByte(h', b')
    ensures h == h' <==> b == b'
  {
    LowByte();
    var x, y := Xor(h % 256, b, 8), Xor(h' % 256, b', 8);
    assert h / 256 == h' / 256 && x == y by {
      SplitByte(h / 256, x, h' / 256, y);
    }
    XorUnique(h % 256, b, h' % 256, b', 8);
  }

  lemma SplitByte(q: nat, x: nat, q': nat, y: nat)
    requires x < 256 && y < 256 && 256 * q + x == 256 * q' + y
    ensures q == q' && x == y
  {}

  /** A step loses nothing: the state and the byte determine each other. */
  lemma StepUnique(h: U64, b: Byte, h': U64, b': Byte)
    requires Step(h, b) == Step(h', b')
    ensures h == h' <==> b == b'
  {
    TimesUnique(XorByte(h, b), XorByte(h', b'));
    XorByteUnique(h, b, h', b');
  }

  /** The fold is injective in its starting state. */
  lemma {:induction false} FoldUnique(h: U64, h': U64, bytes: seq<Byte>)
    requires Fold(h, bytes) == Fold(h', bytes)
    ensures h == h'
    decreases |bytes|
  {
    if bytes != [] {
      var init, last := bytes[..|bytes| - 1], bytes[|bytes| - 1];
      StepUnique(Fold(h, init), last, Fold(h', init), last);
      FoldUnique(h, h', init);
    }
  }

  lemma {:induction false} FoldConcat(h: U64, a: seq<Byte>, b: seq<Byte>)
    ensures Fold(h, a + b) == Fold(Fold(h, a), b)
    decreases |b|
  {
    if b == [] {
      assert a + b == a;
    } else {
      var n := |b| - 1;
      assert (a + b)[..|a + b| - 1] == a + b[..n];
      FoldConcat(h, a, b[..n]);
    }
  }

  /** Byte strings that differ in one place only, whatever surrounds it, hash
      differently. */
  lemma OneByteDiffers(h: U64, bytes: seq<Byte>, k: nat, b: Byte)
    requires k < |bytes| && bytes[k] != b
    ensures Fold(h, bytes) != Fold(h, bytes[k := b])
  {
    var pre, post := bytes[..k], bytes[k + 1..];
    assert bytes == pre + [bytes[k]] + post && bytes[k := b] == pre + [b] + post;
    FoldConcat(h, pre + [bytes[k]], post);
    FoldConcat(h, pre + [b], post);
    OneMore(h, pre, bytes[k]);
    OneMore(h, pre, b);
    if Fold(h, bytes) == Fold(h, bytes[k := b]) {
      FoldUnique(Fold(h, pre + [bytes[k]]), Fold(h, pre + [b]), post);
      StepUnique(Fold(h, pre), bytes[k], Fold(h, pre), b);
    }
  }

  lemma OneMore(h: U64, pre: seq<Byte>, b: Byte)
    ensures Fold(h, pre + [b]) == Step(Fold(h, pre), b)
  {
    assert (pre + [b])[..|pre + [b]| - 1] == pre;
  }

  // ---- hash_ir_stream ----

  function Hash(s: seq<Instr>, internal: U16 -> U16): (h: U64) {
    Fold(OFFSET, Bytes(s, internal))
  }

  /** The loops of the source: a changed copy of each instruction, and a fold
      over its bytes. */
  method HashIrStream(s: seq<Instr>, internal: U16 -> U16) returns (h: U64)
    ensures h == Hash(s, internal)
  {
    h := OFFSET;
    for i := 0 to |s|
      invariant h == Hash(s[..i], internal)
    {
      var tmp := CanonCopy(s[i], internal);
      h := FoldBytes(h, Layout(tmp));
      HashMore(s, i, internal);
    }
    assert s[..|s|] == s;
  }

  lemma HashMore(s: seq<Instr>, i: nat, internal: U16 -> U16)
    requires i < |s|
    ensures Hash(s[..i + 1], internal) == Fold(Hash(s[..i], internal), Layout(Canon(s[i], internal)))
  {
    assert s[..i + 1][..i] == s[..i];
    FoldConcat(OFFSET, Bytes(s[..i], internal), Layout(Canon(s[i], internal)));
  }

  method FoldBytes(start: U64, bytes: seq<Byte>) returns (h: U64)
    ensures h == Fold(start, bytes)
  {
    h := start;
    for b := 0 to |bytes|
      invariant h == Fold(start, bytes[..b])
    {
      h := Step(h, bytes[b]);
      OneMore(start, bytes[..b], bytes[b]);
      assert bytes[..b + 1] == bytes[..b] + [bytes[b]];
    }
    assert bytes[..|bytes|] == bytes;
  }

  method CanonCopy(i: Instr, internal: U16 -> U16) returns (tmp: Instr)
    ensures tmp == Canon(i, internal)
  {
    var nops := if i.numOperands > 4 then 4 else i.numOperands;
    var operands := CanonSlots(i, nops);
    tmp := i.(pc := [0, 0, 0, 0], opcode := internal(i.opcode), flagLiveness := 0, pad08 := 0, operands := operands);
  }

  method CanonSlots(i: Instr, nops: nat) returns (os: seq<Operand>)
    requires nops == Used(i)
    ensures os == CanonOperands(i)
  {
    os := i.operands;
    for o := 0 to 4
      invariant |os| == 4
      invariant forall k :: 0 <= k < o ==> os[k] == CanonOperands(i)[k]
      invariant forall k :: o <= k < 4 ==> os[k] == i.operands[k]
    {
      var canon := if o < nops then CanonOperand(os[o]) else ZeroOperand();
      os := os[o := canon];
    }
  }

  /** The hash is blind to everything but meaning... */
  lemma HashInvariant(s: seq<Instr>, t: seq<Instr>, internal: U16 -> U16)
    requires SameStream(s, t, internal)
    ensures Hash(s, internal) == Hash(t, internal)
  {
    StreamIff(s, t, internal);
  }

  /** ...and tells apart any two streams of one length whose canonical bytes
      differ in a single place. */
  lemma HashDistinguishes(s: seq<Instr>, t: seq<Instr>, internal: U16 -> U16, k: nat, b: Byte)
    requires k < |Bytes(s, internal)| && Bytes(t, internal) == Bytes(s, internal)[k := b]
    ensures SameStream(s, t, internal) <==> Hash(s, internal) == Hash(t, internal)
  {
    StreamIff(s, t, internal);
    if Bytes(s, internal)[k] != b {
      OneByteDiffers(OFFSET, Bytes(s, internal), k, b);
    } else {
      assert Bytes(s, internal)[k := b] == Bytes(s, internal);
    }
  }

  /** Sliding the address of an AbsMem operand, or of an Immediate that carries a
      fixup, by whole pages changes no meaning. */
  lemma SlideOperand(o: Operand, p: Operand, pages: int)
    requires o[..8] == p[..8] && (o[0] == 2 || (o[0] == 3 && o[4] != 0))
    requires Value(p) == (Value(o) + 4096 * pages) % 0x1_0000_0000_0000_0000
    ensures SameOperand(o, p)
  {
    assert o[0] == o[..8][0] && p[0] == p[..8][0] && o[4] == o[..8][4] && p[4] == p[..8][4];
    assert o[1..3] == o[..8][1..3] && p[1..3] == p[..8][1..3];
    SlideValue(Value(o), pages);
  }

  lemma SlideValue(v: nat, pages: int)
    ensures (v + 4096 * pages) % 0x1_0000_0000_0000_0000 % 4096 == v % 4096
  {
    var w := v + 4096 * pages;
    var q := w / 0x1_0000_0000_0000_0000;
    var r := w % 0x1_0000_0000_0000_0000;
    assert r == v + 4096 * (pages - 0x10_0000_0000_0000 * q);
    SameRemainder(r, v, pages - 0x10_0000_0000_0000 * q);
  }

  lemma SameRemainder(r: int, v: int, k: int)
    requires r == v + 4096 * k
    ensures r % 4096 == v % 4096
  {}
}
