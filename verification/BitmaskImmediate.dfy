/** The search for an A64 logical immediate (is_bitmask_immediate in
    AssemblerHelpers.cpp), checked against DecodeBitMasks of the Arm
    Architecture Reference Manual (DDI 0487, chapter J1).  Words are sequences
    of bits, least significant first. */
module BitmaskImmediate {
  import opened Bits

  type Word = w: seq<bool> | |w| == 64 witness seq(64, _ => false)

  // ---- 64-bit words ----

  function Value(w: seq<bool>): (n: nat) {
    if w == [] then 0 else (if w[0] then 1 else 0) + 2 * Value(w[1..])
  }

  /** w + 1, modulo 2^|w|. */
  function Inc(w: seq<bool>): (r: seq<bool>)
    ensures |r| == |w|
  {
    if w == [] then []
    else if w[0] then [false] + Inc(w[1..])
    else [true] + w[1..]
  }

  /** w - 1, modulo 2^|w|. */
  function Dec(w: seq<bool>): (r: seq<bool>)
    ensures |r| == |w|
  {
    if w == [] then []
    else if w[0] then [false] + w[1..]
    else [true] + Dec(w[1..])
  }

  function Shl(w: Word, n: nat): (r: Word) {
    seq(64, i requires 0 <= i < 64 => i >= n && w[i - n])
  }

  function Shr(w: Word, n: nat): (r: Word) {
    seq(64, i requires 0 <= i < 64 => i + n < 64 && w[i + n])
  }

  function AndWord(a: Word, b: Word): (r: Word) {
    seq(64, i requires 0 <= i < 64 => a[i] && b[i])
  }

  function OrWord(a: Word, b: Word): (r: Word) {
    seq(64, i requires 0 <= i < 64 => a[i] || b[i])
  }

  function XorWord(a: Word, b: Word): (r: Word) {
    seq(64, i requires 0 <= i < 64 => a[i] != b[i])
  }

  function Not(a: Word): (r: Word) {
    seq(64, i requires 0 <= i < 64 => !a[i])
  }

  function BitReverse(a: Word): (r: Word) {
    seq(64, i requires 0 <= i < 64 => a[63 - i])
  }

  function AllOnes(): (r: Word) {
    seq(64, _ => true)
  }

  predicate IsZero(w: Word) {
    forall i :: 0 <= i < 64 ==> !w[i]
  }

  /** CTZ: the index of the lowest set bit, 64 when there is none. */
  function TrailingZeros(w: Word, start: nat := 0): (n: nat)
    requires start <= 64 && forall i :: 0 <= i < start ==> !w[i]
    ensures start <= n <= 64 && (forall i :: 0 <= i < n ==> !w[i])
    ensures n < 64 ==> w[n]
    decreases 64 - start
  {
    if start == 64 || w[start] then start else TrailingZeros(w, start + 1)
  }

  function LeadingZeros(w: Word): (n: nat)
    ensures n <= 64 && (forall i :: 64 - n <= i < 64 ==> !w[i])
    ensures n < 64 ==> w[63 - n]
  {
    var n := TrailingZeros(BitReverse(w));
    assert forall i :: 64 - n <= i < 64 ==> w[i] == BitReverse(w)[63 - i];
    n
  }

  lemma {:induction false} IncValue(w: seq<bool>)
    ensures Value(Inc(w)) == if Value(w) + 1 == Pow2(|w|) then 0 else Value(w) + 1
    ensures Value(w) < Pow2(|w|)
  {
    if w != [] {
      IncValue(w[1..]);
      var r := Inc(w);
      assert r[1..] == if w[0] then Inc(w[1..]) else w[1..];
    }
  }

  lemma {:induction false} DecValue(w: seq<bool>)
    ensures Value(Dec(w)) == if Value(w) == 0 then Pow2(|w|) - 1 else Value(w) - 1
  {
    if w != [] {
      DecValue(w[1..]);
      var r := Dec(w);
      assert r[1..] == if w[0] then w[1..] else Dec(w[1..]);
    }
  }

  /** Adding one flips the bits up to and including the lowest clear one. */
  lemma {:induction false} IncAt(w: seq<bool>, z: nat, i: nat)
    requires z <= |w| && i < |w|
    requires (forall j :: 0 <= j < z ==> w[j]) && (z < |w| ==> !w[z])
    ensures Inc(w)[i] == if i <= z then i == z else w[i]
  {
    if z > 0 && i > 0 {
      IncAt(w[1..], z - 1, i - 1);
    }
  }

  /** Subtracting one flips the bits up to and including the lowest set one. */
  lemma {:induction false} DecAt(w: seq<bool>, p: nat, i: nat)
    requires p < |w| && i < |w| && w[p] && forall j :: 0 <= j < p ==> !w[j]
    ensures Dec(w)[i] == if i <= p then i < p else w[i]
  {
    if p > 0 && i > 0 {
      DecAt(w[1..], p - 1, i - 1);
    }
  }

  // ---- one contiguous run ----

  /** The set bits of w are those from p up to, not including, z. */
  predicate RunFrom(w: Word, p: nat, z: nat) {
    p < z <= 64 && forall i :: 0 <= i < 64 ==> (w[i] <==> p <= i < z)
  }

  function Filled(w: Word): (f: Word) {
    OrWord(Dec(w), w)
  }

  /** The test of the source: filled = (w - 1) | w has no set bit left after
      (filled + 1) & filled. */
  predicate OneRun(w: Word) {
    IsZero(AndWord(Inc(Filled(w)), Filled(w)))
  }

  lemma FilledAt(w: Word, p: nat, i: nat)
    requires p < 64 && i < 64 && w[p] && forall j :: 0 <= j < p ==> !w[j]
    ensures Filled(w)[i] == (i <= p || w[i])
  {
    DecAt(w, p, i);
  }

  /** For a word that is not zero the test finds exactly the single runs: p is
      its lowest set bit and z the first clear bit above it. */
  lemma OneRunTest(w: Word, p: nat, z: nat)
    requires p < z <= 64 && (forall j :: 0 <= j < p ==> !w[j]) && (forall j :: p <= j < z ==> w[j])
    requires z < 64 ==> !w[z]
    ensures OneRun(w) <==> RunFrom(w, p, z)
  {
    var f := Filled(w);
    var t := AndWord(Inc(f), f);
    forall i | 0 <= i < 64 ensures t[i] == (z < i && w[i]) {
      TestAt(w, p, z, i);
    }
    if OneRun(w) {
      assert forall i :: 0 <= i < 64 ==> !t[i];
    }
  }

  lemma TestAt(w: Word, p: nat, z: nat, i: nat)
    requires p < z <= 64 && (forall j :: 0 <= j < p ==> !w[j]) && (forall j :: p <= j < z ==> w[j])
    requires (z < 64 ==> !w[z]) && i < 64
    ensures AndWord(Inc(Filled(w)), Filled(w))[i] == (z < i && w[i])
  {
    var f := Filled(w);
    forall j | 0 <= j < 64 ensures f[j] == (j <= p || w[j]) {
      FilledAt(w, p, j);
    }
    IncAt(f, z, i);
  }

  // ---- the architecture's decoder ----

  datatype Decoded = Undefined | Mask(w: seq<bool>)

  function HighestSetBit(x: nat): (n: int) {
    if x == 0 then -1 else 1 + HighestSetBit(x / 2)
  }

  function Ones(size: nat, n: nat): (r: seq<bool>)
    ensures |r| == size
  {
    seq(size, i => i < n)
  }

  function Ror(w: seq<bool>, r: nat): (v: seq<bool>)
    requires r <= |w|
    ensures |v| == |w|
  {
    w[r..] + w[..r]
  }

  function Replicate(w: seq<bool>, size: nat): (v: seq<bool>)
    requires |w| > 0
    ensures |v| == size
  {
    seq(size, i requires 0 <= i < size => w[Rem(i, |w|)])
  }

  /** DecodeBitMasks(immN, imms, immr, TRUE) for a register of `size` bits. */
  function DecodeBitMasks(size: nat, immN: bool, imms: nat, immr: nat): (d: Decoded)
    requires imms < 64 && immr < 64
  {
    var len := HighestSetBit((if immN then 64 else 0) + (63 - imms));
    if len < 1 then Undefined
    else
      var esize := Pow2(len);
      var levels := esize - 1;
      if esize > size || And(imms, levels) == levels then Undefined
      else Mask(Replicate(Ror(Ones(esize, And(imms, levels) + 1), And(immr, levels)), size))
  }

  /** The place i of an element of e bits comes from when it is rotated by r. */
  function Turn(i: nat, r: nat, e: nat): (j: nat)
    requires i < e && r < e
    ensures j < e
  {
    if i + r < e then i + r else i + r - e
  }

  /** A run of k ones rotated right by r in every element of 2^x bits. */
  ghost predicate Rotated(v: seq<bool>, x: nat, k: nat, r: nat) {
    0 < k < Pow2(x) && r < Pow2(x) &&
    forall i {:trigger Rem(i, Pow2(x))} :: 0 <= i < |v| ==> v[i] == (Turn(Rem(i, Pow2(x)), r, Pow2(x)) < k)
  }

  lemma {:induction false} HighestSetBitIs(x: nat, n: nat)
    requires Pow2(n) <= x < Pow2(n + 1)
    ensures HighestSetBit(x) == n
  {
    if n > 0 {
      HighestSetBitIs(x / 2, n - 1);
    } else {
      assert HighestSetBit(x / 2) == -1;
    }
  }

  lemma MaskAt(e: nat, k: nat, r: nat, size: nat, i: nat)
    requires 0 < k < e && r < e && i < size
    ensures Replicate(Ror(Ones(e, k), r), size)[i] == (Turn(Rem(i, e), r, e) < k)
  {}

  /** What a valid encoding decodes to. */
  lemma DecodedMask(size: nat, immN: bool, imms: nat, immr: nat, x: nat, k: nat)
    requires imms < 64 && immr < 64 && x >= 1 && Pow2(x) <= size
    requires HighestSetBit((if immN then 64 else 0) + (63 - imms)) == x
    requires And(imms, Pow2(x) - 1) == k - 1 && 0 < k < Pow2(x)
    ensures var d := DecodeBitMasks(size, immN, imms, immr);
      d.Mask? && |d.w| == size && Rotated(d.w, x, k, And(immr, Pow2(x) - 1))
  {
    var d, e, r := DecodeBitMasks(size, immN, imms, immr), Pow2(x), And(immr, Pow2(x) - 1);
    assert d == Mask(Replicate(Ror(Ones(e, k), r), size));
    forall i | 0 <= i < size ensures d.w[i] == (Turn(Rem(i, e), r, e) < k) {
      MaskAt(e, k, r, size, i);
    }
  }

  predicate ElementSize(e: nat) {
    e == 2 || e == 4 || e == 8 || e == 16 || e == 32 || e == 64
  }

  lemma SizeOf(x: nat)
    requires 1 <= x <= 6
    ensures ElementSize(Pow2(x))
  {
    assert Pow2(1) == 2 && Pow2(2) == 4 && Pow2(3) == 8;
    assert Pow2(4) == 16 && Pow2(5) == 32 && Pow2(6) == 64;
    assert x == 1 || x == 2 || x == 3 || x == 4 || x == 5 || x == 6;
  }

  /** (run_len - 1) | (uint8_t)(0xFE * element_size). */
  function RawByte(e: nat, k: nat): (raw: nat)
    requires k > 0
  {
    Or(k - 1, (0xFE * e) % 256)
  }

  lemma RawByteIs(x: nat, k: nat)
    requires 1 <= x <= 6 && 0 < k < Pow2(x)
    ensures RawByte(Pow2(x), k) == k - 1 + 256 - 2 * Pow2(x)
  {
    SizeOf(x);
    var e := Pow2(x);
    var high := 256 - 2 * e;
    assert (0xFE * e) % 256 == high;
    var q := if e == 2 then 126 else if e == 4 then 62 else if e == 8 then 30
             else if e == 16 then 14 else if e == 32 then 6 else 2;
    DivModUnique(high, e, q, 0);
    OrDisjoint(k - 1, high, x);
  }

  /** The N and imms fields are bit 6, inverted, and the low six bits of the
      byte. */
  function FieldN(raw: nat): (n: bool) {
    raw / 64 % 2 == 0
  }

  function FieldImms(raw: nat): (imms: nat)
    ensures imms < 64
  {
    raw % 64
  }

  lemma RawSplit(e: nat, k: nat, raw: nat)
    requires ElementSize(e) && 0 < k < e && raw == k - 1 + 256 - 2 * e
    ensures Rem(FieldImms(raw), e) == k - 1
    ensures e <= (if FieldN(raw) then 64 else 0) + (63 - FieldImms(raw)) < 2 * e
  {
    var q := if e == 2 then 30 else if e == 4 then 14 else if e == 8 then 6
             else if e == 16 then 2 else 0;
    if e == 64 {
      assert raw % 64 == k - 1 && raw / 64 == 2;
    } else {
      assert raw % 64 == 64 - 2 * e + k - 1 && raw / 64 == 3;
    }
    RemUnique(raw % 64, e, q, k - 1);
  }

  lemma FieldsOfSize(x: nat, k: nat, imms: nat, immN: bool)
    requires k > 0 && imms < 64 && Rem(imms, Pow2(x)) == k - 1
    requires Pow2(x) <= (if immN then 64 else 0) + (63 - imms) < 2 * Pow2(x)
    ensures And(imms, Pow2(x) - 1) == k - 1
    ensures HighestSetBit((if immN then 64 else 0) + (63 - imms)) == x
  {
    AndRem(imms, x);
    HighestSetBitIs((if immN then 64 else 0) + (63 - imms), x);
  }

  /** The fields of such a byte name element size 2^x and run length k. */
  lemma EncodedFields(x: nat, k: nat, raw: nat)
    requires 1 <= x <= 6 && 0 < k < Pow2(x) && raw == k - 1 + 256 - 2 * Pow2(x)
    ensures And(FieldImms(raw), Pow2(x) - 1) == k - 1
    ensures HighestSetBit((if FieldN(raw) then 64 else 0) + (63 - FieldImms(raw))) == x
  {
    SizeOf(x);
    RawSplit(Pow2(x), k, raw);
    FieldsOfSize(x, k, FieldImms(raw), FieldN(raw));
  }

  // ---- periods ----

  ghost predicate Periodic(v: seq<bool>, e: nat)
    requires e >= 1
  {
    forall i {:trigger Rem(i, e)} :: 0 <= i < |v| ==> v[i] == v[Rem(i, e)]
  }

  lemma {:induction false} RemHalf(i: nat, h: nat)
    requires h >= 1
    ensures Rem(Rem(i, 2 * h), h) == Rem(i, h)
    ensures Rem(i, 2 * h) == Rem(i, h) || Rem(i, 2 * h) == Rem(i, h) + h
  {
    if i >= 2 * h {
      RemHalf(i - 2 * h, h);
      assert Rem(i, h) == Rem(i - h, h) == Rem(i - 2 * h, h);
    }
  }

  lemma PeriodDoubles(v: seq<bool>, h: nat)
    requires h >= 1 && Periodic(v, h)
    ensures Periodic(v, 2 * h)
  {
    forall i | 0 <= i < |v| ensures v[i] == v[Rem(i, 2 * h)] {
      RemHalf(i, h);
    }
  }

  lemma {:induction false} PeriodUp(v: seq<bool>, x: nat, y: nat)
    requires x <= y && Periodic(v, Pow2(x))
    ensures Periodic(v, Pow2(y))
    decreases y - x
  {
    if x < y {
      PeriodDoubles(v, Pow2(x));
      PeriodUp(v, x + 1, y);
    }
  }

  /** One step of the halving loop: the halves of one element agree exactly
      when half the period is a period too. */
  lemma PeriodHalves(v: seq<bool>, h: nat)
    requires h >= 1 && 2 * h <= |v| && Periodic(v, 2 * h)
    ensures Periodic(v, h) <==> forall i :: 0 <= i < h ==> v[i] == v[i + h]
  {
    if forall i :: 0 <= i < h ==> v[i] == v[i + h] {
      forall i | 0 <= i < |v| ensures v[i] == v[Rem(i, h)] {
        RemHalf(i, h);
      }
    }
    if Periodic(v, h) {
      forall i | 0 <= i < h ensures v[i] == v[i + h] {
        assert Rem(i + h, h) == i;
      }
    }
  }

  lemma RotatedPeriod(v: seq<bool>, x: nat, k: nat, r: nat)
    requires Rotated(v, x, k, r)
    ensures Periodic(v, Pow2(x))
  {
    forall i | 0 <= i < |v| ensures v[i] == v[Rem(i, Pow2(x))] {
      var j := Rem(i, Pow2(x));
      assert Rem(j, Pow2(x)) == j;
    }
  }

  /** Bit i of the lowest element lies `offset` into the run. */
  lemma OffsetIn(v: seq<bool>, x: nat, k: nat, r: nat, i: nat, offset: nat)
    requires Pow2(x) <= |v| && Rotated(v, x, k, r) && i < Pow2(x) && offset < Pow2(x)
    requires i + r == offset || i + r == offset + Pow2(x)
    ensures v[i] == (offset < k)
  {
    assert Rem(i, Pow2(x)) == i;
  }

  lemma HalfAway(v: seq<bool>, h: nat, i: nat)
    requires h >= 1 && 2 * h <= |v| && Periodic(v, h) && i < h
    ensures v[i] == v[i + h]
  {
    assert Rem(i + h, h) == i;
  }

  /** A rotated run that is neither empty nor full has no half period: it has
      only one rising edge. */
  lemma NoHalfPeriod(v: seq<bool>, x: nat, k: nat, r: nat)
    requires x >= 1 && Pow2(x) <= |v| && Rotated(v, x, k, r)
    ensures !Periodic(v, Pow2(x - 1))
  {
    var h := Pow2(x - 1);
    var e := 2 * h;
    if Periodic(v, h) {
      // the first one of the run, the zero before it, and both moved by h
      var first := if r == 0 then 0 else e - r;
      var before := if first == 0 then e - 1 else first - 1;
      var first' := if first < h then first + h else first - h;
      var before' := if before < h then before + h else before - h;
      OffsetIn(v, x, k, r, first, 0);
      OffsetIn(v, x, k, r, before, e - 1);
      OffsetIn(v, x, k, r, first', h);
      OffsetIn(v, x, k, r, before', h - 1);
      HalfAway(v, h, if first < h then first else first');
      HalfAway(v, h, if before < h then before else before');
      assert false;
    }
  }

  /** The period the loop stops at is the element size of any encoding. */
  lemma SmallestPeriod(v: seq<bool>, x: nat, y: nat, k: nat, r: nat)
    requires 1 <= x && 1 <= y && Pow2(y) <= |v|
    requires Periodic(v, Pow2(x)) && (x == 1 || !Periodic(v, Pow2(x - 1)))
    requires Rotated(v, y, k, r)
    ensures x == y
  {
    RotatedPeriod(v, y, k, r);
    if y < x {
      PeriodUp(v, y, x - 1);
    } else if x < y {
      PeriodUp(v, x, y - 1);
      NoHalfPeriod(v, y, k, r);
    }
  }

  // ---- one element ----

  /** The element of e bits at the bottom of the value, and its complement. */
  function Element(v: Word, e: nat): (el: Word) {
    seq(64, i requires 0 <= i < 64 => i < e && v[i])
  }

  function Gaps(v: Word, e: nat): (z: Word) {
    seq(64, i requires 0 <= i < 64 => i < e && !v[i])
  }

  /** The rotation the encoder writes: (e - p) & (e - 1). */
  function Wrap(p: nat, e: nat): (r: nat)
    requires p <= e && e >= 1
    ensures r < e
  {
    if p == 0 then 0 else e - p
  }

  /** Ones from p to z, every element: the run-of-ones encoding. */
  lemma OnesRotated(v: Word, size: nat, x: nat, p: nat, z: nat)
    requires Pow2(x) <= size <= 64 && Periodic(v[..size], Pow2(x))
    requires RunFrom(Element(v, Pow2(x)), p, z) && z - p < Pow2(x)
    ensures z <= Pow2(x) && Rotated(v[..size], x, z - p, Wrap(p, Pow2(x)))
  {
    var e, el := Pow2(x), Element(v, Pow2(x));
    assert el[z - 1];
    forall i | 0 <= i < size
      ensures v[..size][i] == (Turn(Rem(i, e), Wrap(p, e), e) < z - p)
    {
      assert v[..size][i] == v[..size][Rem(i, e)];
      assert el[Rem(i, e)] == v[Rem(i, e)];
    }
  }

  /** Zeros from p to z, every element: the run-of-zeros encoding. */
  lemma GapsRotated(v: Word, size: nat, x: nat, p: nat, z: nat)
    requires Pow2(x) <= size <= 64 && Periodic(v[..size], Pow2(x))
    requires RunFrom(Gaps(v, Pow2(x)), p, z) && z - p < Pow2(x)
    ensures z <= Pow2(x) && Rotated(v[..size], x, Pow2(x) - (z - p), Wrap(z, Pow2(x)))
  {
    var e, g := Pow2(x), Gaps(v, Pow2(x));
    assert g[z - 1];
    forall i | 0 <= i < size
      ensures v[..size][i] == (Turn(Rem(i, e), Wrap(z, e), e) < e - (z - p))
    {
      assert v[..size][i] == v[..size][Rem(i, e)];
      assert g[Rem(i, e)] == !v[Rem(i, e)];
    }
  }

  /** A rotated run shows up in one element as one run of ones or, when it
      wraps, as one run of zeros. */
  lemma RotatedElement(v: Word, size: nat, x: nat, k: nat, r: nat)
    requires Pow2(x) <= size <= 64 && Rotated(v[..size], x, k, r)
    ensures var e := Pow2(x);
      if r == 0 then RunFrom(Element(v, e), 0, k)
      else if k <= r then RunFrom(Element(v, e), e - r, e - r + k)
      else RunFrom(Gaps(v, e), k - r, e - r)
  {
    var e := Pow2(x);
    forall i | 0 <= i < e
      ensures v[i] == (Turn(i, r, e) < k)
    {
      assert Rem(i, e) == i;
      assert v[..size][i] == v[i];
    }
  }

  // ---- encodable values ----

  /** Some valid encoding decodes to the value. */
  ghost predicate Encodable(w: seq<bool>) {
    exists immN: bool, imms: nat, immr: nat | imms < 64 && immr < 64 ::
      DecodeBitMasks(|w|, immN, imms, immr) == Mask(w)
  }

  lemma RotatedUnique(v: seq<bool>, w: seq<bool>, x: nat, k: nat, r: nat)
    requires |v| == |w| && Rotated(v, x, k, r) && Rotated(w, x, k, r)
    ensures v == w
  {
    forall i | 0 <= i < |v| ensures v[i] == w[i] {
      var j := Rem(i, Pow2(x));
    }
  }

  lemma EncodableIsRotated(w: seq<bool>, immN: bool, imms: nat, immr: nat) returns (x: nat, k: nat, r: nat)
    requires imms < 64 && immr < 64 && DecodeBitMasks(|w|, immN, imms, immr) == Mask(w)
    ensures x >= 1 && Pow2(x) <= |w| && Rotated(w, x, k, r)
  {
    x := HighestSetBit((if immN then 64 else 0) + (63 - imms));
    k := And(imms, Pow2(x) - 1) + 1;
    r := And(immr, Pow2(x) - 1);
    DecodedMask(|w|, immN, imms, immr, x, k);
  }

  lemma DecodesBack(w: seq<bool>, x: nat, k: nat, r: nat, immN: bool, imms: nat)
    requires imms < 64 && r < 64 && 1 <= x && Pow2(x) <= |w| && Rotated(w, x, k, r)
    requires And(imms, Pow2(x) - 1) == k - 1
    requires HighestSetBit((if immN then 64 else 0) + (63 - imms)) == x
    ensures DecodeBitMasks(|w|, immN, imms, r) == Mask(w)
  {
    DecodedMask(|w|, immN, imms, r, x, k);
    AndRem(r, x);
    RotatedUnique(DecodeBitMasks(|w|, immN, imms, r).w, w, x, k, r);
  }

  lemma RotatedIsEncoded(w: seq<bool>, x: nat, k: nat, r: nat)
    requires 1 <= x && Pow2(x) <= |w| <= 64 && Rotated(w, x, k, r)
    ensures var raw := RawByte(Pow2(x), k);
      r < 64 && DecodeBitMasks(|w|, FieldN(raw), FieldImms(raw), r) == Mask(w)
  {
    if x > 6 {
      Pow2Grows(x);
    }
    RawByteIs(x, k);
    var raw := RawByte(Pow2(x), k);
    EncodedFields(x, k, raw);
    DecodesBack(w, x, k, r, FieldN(raw), FieldImms(raw));
  }

  /** A rotated run has a one and a zero. */
  lemma RotatedMixed(w: seq<bool>, x: nat, k: nat, r: nat)
    requires Pow2(x) <= |w| && Rotated(w, x, k, r)
    ensures (exists i :: 0 <= i < |w| && w[i]) && (exists i :: 0 <= i < |w| && !w[i])
  {
    var e := Pow2(x);
    OffsetIn(w, x, k, r, if r == 0 then 0 else e - r, 0);
    OffsetIn(w, x, k, r, if r == 0 then e - 1 else e - 1 - r, e - 1);
  }

  predicate BelowTwo(w: seq<bool>, size: nat)
    requires size <= |w|
  {
    forall i :: 1 <= i < size ==> !w[i]
  }

  /** value + 1 < 2 at a width singles out all zeros and all ones. */
  lemma TrivialValue(v: Word, size: nat)
    requires size <= 64
    ensures BelowTwo(Inc(v), size) <==>
      (forall i :: 0 <= i < size ==> v[i]) || (forall i :: 0 <= i < size ==> !v[i])
  {
    var z := TrailingZeros(Not(v));
    assert forall j :: 0 <= j < 64 ==> Not(v)[j] == !v[j];
    forall i | 0 <= i < 64 ensures Inc(v)[i] == if i <= z then i == z else v[i] {
      assert forall j :: 0 <= j < z ==> !Not(v)[j];
      IncAt(v, z, i);
    }
    if z < size && z > 0 {
      assert Inc(v)[z];
      assert v[0] && !v[z];
    }
  }

  // ---- the search ----

  datatype LogicalImm = LogicalImm(immN: bool, immr: nat, imms: nat)
  {
    predicate Decodes(w: seq<bool>) {
      imms < 64 && immr < 64 && DecodeBitMasks(|w|, immN, imms, immr) == Mask(w)
    }

    lemma DecodesIsEncodable(w: seq<bool>)
      requires Decodes(w)
      ensures Encodable(w)
    {}
  }

  /** The smallest power of two that is a period of the value. */
  method ElementBits(v: Word, size: nat) returns (e: nat, ghost x: nat)
    requires size == 32 || size == 64
    ensures 1 <= x <= 6 && e == Pow2(x) <= size && Periodic(v[..size], e)
    ensures x == 1 || !Periodic(v[..size], Pow2(x - 1))
  {
    e, x := size, if size == 64 then 6 else 5;
    assert Pow2(5) == 32 && Pow2(6) == 64;
    var more := true;
    while more
      invariant 1 <= x <= 6 && e == Pow2(x) <= size && Periodic(v[..size], e)
      invariant more ==> x > 1
      invariant more || x == 1 || !Periodic(v[..size], Pow2(x - 1))
      decreases more, e
    {
      var half := e / 2;
      assert half == Pow2(x - 1);
      var mask := Not(Shl(AllOnes(), half));
      var differ := AndWord(XorWord(Shr(v, half), v), mask);
      HalvesAgree(v, size, half);
      if !IsZero(differ) {
        more := false;
      } else {
        e, x := half, x - 1;
        more := e > 2;
        assert Pow2(1) == 2;
      }
    }
  }

  lemma HalvesAgree(v: Word, size: nat, h: nat)
    requires h >= 1 && 2 * h <= size <= 64 && Periodic(v[..size], 2 * h)
    ensures IsZero(AndWord(XorWord(Shr(v, h), v), Not(Shl(AllOnes(), h)))) <==> Periodic(v[..size], h)
  {
    var d := AndWord(XorWord(Shr(v, h), v), Not(Shl(AllOnes(), h)));
    forall i | 0 <= i < 64 ensures d[i] == (i < h && v[i + h] != v[i]) {
      assert Shl(AllOnes(), h)[i] == (i >= h);
    }
    PeriodHalves(v[..size], h);
    forall i | 0 <= i < h ensures d[i] == (v[..size][i] != v[..size][i + h]) {
    }
    if forall i :: 0 <= i < h ==> v[..size][i] == v[..size][i + h] {
      assert forall i :: 0 <= i < 64 ==> !d[i];
    }
  }

  /** What the two candidate runs look like in an element that has a one at
      `one` and a zero at `zero`. */
  lemma Candidates(v: Word, e: nat, one: nat, zero: nat)
    requires e <= 64 && one < e && zero < e && v[one] && !v[zero]
    ensures AndWord(Shr(AllOnes(), 64 - e), v) == Element(v, e)
    ensures AndWord(Shr(AllOnes(), 64 - e), Not(v)) == Gaps(v, e)
    ensures Element(v, e)[one] && !Element(v, e)[zero] && Gaps(v, e)[zero] && !Gaps(v, e)[one]
  {}

  /** A single run in the low e bits, found but not filling them. */
  lemma ShortRun(w: Word, e: nat, p: nat, z: nat, inside: nat, outside: nat)
    requires e <= 64 && inside < e && outside < e && w[inside] && !w[outside]
    requires (forall i :: e <= i < 64 ==> !w[i]) && RunFrom(w, p, z)
    ensures z <= e && z - p < e
  {
    assert w[z - 1];
  }

  /** The run that starts at p ends where ~(w >> p) has its lowest set bit. */
  lemma RunEnds(w: Word, p: nat)
    requires p < 64 && w[p]
    ensures var z := p + TrailingZeros(Not(Shr(w, p)));
      p < z <= 64 && (forall j :: p <= j < z ==> w[j]) && (z < 64 ==> !w[z])
  {
    var t := Not(Shr(w, p));
    var n := TrailingZeros(t);
    assert forall j :: p <= j < 64 ==> w[j] == !t[j - p];
    assert p > 0 ==> t[64 - p];
    forall j | p <= j < p + n ensures w[j] {
      assert !t[j - p];
    }
    assert !t[0];
  }

  /** The source's measure of a run of zeros: its top by clz, its bottom by clz
      of the reversed word. */
  lemma GapRun(w: Word, inside: nat)
    requires inside < 64 && w[inside] && OneRun(w)
    ensures var lz, tz := LeadingZeros(w), LeadingZeros(BitReverse(w));
      RunFrom(w, tz, 64 - lz)
  {
    var lz, tz := LeadingZeros(w), LeadingZeros(BitReverse(w));
    assert BitReverse(w)[63 - inside];
    assert forall j :: 0 <= j < 64 ==> w[j] == BitReverse(w)[63 - j];
    assert w[tz] && forall i :: 0 <= i < tz ==> !w[i];
    RunEnds(w, tz);
    var z := tz + TrailingZeros(Not(Shr(w, tz)));
    OneRunTest(w, tz, z);
    assert w[63 - lz] && w[z - 1];
  }

  /** ctz for the rotation, ctz of the complement above it for the length. */
  method MeasureOnes(element: Word, e: nat, ghost one: nat, ghost zero: nat) returns (rotation: nat, runLen: nat)
    requires e <= 64 && one < e && zero < e && element[one] && !element[zero]
    requires (forall i :: e <= i < 64 ==> !element[i]) && OneRun(element)
    ensures RunFrom(element, rotation, rotation + runLen) && rotation + runLen <= e && runLen < e
  {
    rotation := TrailingZeros(element);
    runLen := TrailingZeros(Not(Shr(element, rotation)));
    RunEnds(element, rotation);
    OneRunTest(element, rotation, rotation + runLen);
    ShortRun(element, e, rotation, rotation + runLen, one, zero);
  }

  method MeasureZeros(zeros: Word, e: nat, ghost one: nat, ghost zero: nat)
    returns (rotation: nat, runLen: nat, ghost start: nat)
    requires e <= 64 && one < e && zero < e && zeros[zero] && !zeros[one]
    requires (forall i :: e <= i < 64 ==> !zeros[i]) && OneRun(zeros)
    ensures RunFrom(zeros, start, rotation) && rotation <= e && rotation - start < e
    ensures runLen == e - (rotation - start)
  {
    var lz := LeadingZeros(zeros);
    rotation := 64 - lz;
    var tz := LeadingZeros(BitReverse(zeros));
    GapRun(zeros, zero);
    ShortRun(zeros, e, tz, rotation, zero, one);
    start := tz;
    runLen := lz + tz - (64 - e);
  }

  /** One element as a run: of ones, or failing that of zeros. */
  method FindRun(v: Word, size: nat, e: nat, ghost x: nat, ghost one: nat, ghost zero: nat)
    returns (ok: bool, rotation: nat, runLen: nat)
    requires 1 <= x && e == Pow2(x) <= size <= 64 && Periodic(v[..size], e)
    requires one < e && zero < e && v[one] && !v[zero]
    ensures ok ==> rotation <= e && Rotated(v[..size], x, runLen, Wrap(rotation, e))
    ensures ok <==> OneRun(Element(v, e)) || OneRun(Gaps(v, e))
  {
    var elementMask := Shr(AllOnes(), 64 - e);
    Candidates(v, e, one, zero);
    var element := AndWord(elementMask, v);
    ok, rotation, runLen := true, 0, 0;
    if !IsZero(element) && OneRun(element) {
      rotation, runLen := MeasureOnes(element, e, one, zero);
      OnesRotated(v, size, x, rotation, rotation + runLen);
    } else {
      var zeros := AndWord(elementMask, Not(v));
      if IsZero(zeros) || !OneRun(zeros) {
        ok := false;
      } else {
        ghost var start;
        rotation, runLen, start := MeasureZeros(zeros, e, one, zero);
        GapsRotated(v, size, x, start, rotation);
      }
    }
  }

  /** A value of mixed bits with smallest period 2^x is encodable exactly when
      one element is a single run of ones or of zeros. */
  lemma EncodableNeedsRun(v: Word, size: nat, x: nat, immN: bool, imms: nat, immr: nat)
    requires 1 <= x <= 6 && Pow2(x) <= size <= 64 && Periodic(v[..size], Pow2(x))
    requires x == 1 || !Periodic(v[..size], Pow2(x - 1))
    requires imms < 64 && immr < 64 && DecodeBitMasks(size, immN, imms, immr) == Mask(v[..size])
    ensures OneRun(Element(v, Pow2(x))) || OneRun(Gaps(v, Pow2(x)))
  {
    var y, k, r := EncodableIsRotated(v[..size], immN, imms, immr);
    SmallestPeriod(v[..size], x, y, k, r);
    RotatedElement(v, size, x, k, r);
    var e := Pow2(x);
    if r == 0 {
      OneRunTest(Element(v, e), 0, k);
    } else if k <= r {
      OneRunTest(Element(v, e), e - r, e - r + k);
    } else {
      OneRunTest(Gaps(v, e), k - r, e - r);
    }
  }

  /** (element_size - rotation) & (element_size - 1). */
  lemma WrittenRotation(x: nat, rotation: nat)
    requires 1 <= x && rotation <= Pow2(x)
    ensures And(Pow2(x) - rotation, Pow2(x) - 1) == Wrap(rotation, Pow2(x))
  {
    AndRem(Pow2(x) - rotation, x);
  }

  /** A value with a period has a one and a zero in its lowest element, unless
      it is constant. */
  lemma MixedElement(w: seq<bool>, e: nat, i: nat)
    requires e >= 1 && Periodic(w, e) && i < |w|
    ensures Rem(i, e) < e && w[Rem(i, e)] == w[i]
  {}

  lemma ConstantNotEncodable(w: seq<bool>)
    requires (forall i :: 0 <= i < |w| ==> w[i]) || (forall i :: 0 <= i < |w| ==> !w[i])
    ensures !Encodable(w)
  {
    forall immN: bool, imms: nat, immr: nat | imms < 64 && immr < 64
      ensures DecodeBitMasks(|w|, immN, imms, immr) != Mask(w)
    {
      if DecodeBitMasks(|w|, immN, imms, immr) == Mask(w) {
        var x, k, r := EncodableIsRotated(w, immN, imms, immr);
        RotatedMixed(w, x, k, r);
      }
    }
  }

  lemma NotEncodable(v: Word, size: nat, x: nat)
    requires 1 <= x <= 6 && Pow2(x) <= size <= 64 && Periodic(v[..size], Pow2(x))
    requires x == 1 || !Periodic(v[..size], Pow2(x - 1))
    requires !OneRun(Element(v, Pow2(x))) && !OneRun(Gaps(v, Pow2(x)))
    ensures !Encodable(v[..size])
  {
    forall immN: bool, imms: nat, immr: nat | imms < 64 && immr < 64
      ensures DecodeBitMasks(size, immN, imms, immr) != Mask(v[..size])
    {
      if DecodeBitMasks(size, immN, imms, immr) == Mask(v[..size]) {
        EncodableNeedsRun(v, size, x, immN, imms, immr);
      }
    }
  }

  /** Writing the three fields. */
  method Encode(v: Word, size: nat, e: nat, ghost x: nat, rotation: nat, runLen: nat) returns (out: LogicalImm)
    requires 1 <= x && e == Pow2(x) <= size <= 64 && rotation <= e
    requires Rotated(v[..size], x, runLen, Wrap(rotation, e))
    ensures out.Decodes(v[..size])
  {
    assert e >= rotation;
    var raw := RawByte(e, runLen);
    out := LogicalImm(FieldN(raw), And(e - rotation, e - 1), FieldImms(raw));
    WrittenRotation(x, rotation);
    RotatedIsEncoded(v[..size], x, runLen, Wrap(rotation, e));
  }

  method SearchMixed(v: Word, size: nat, ghost i: nat, ghost j: nat) returns (ok: bool, out: LogicalImm)
    requires (size == 32 || size == 64) && i < size && j < size && v[i] && !v[j]
    ensures ok ==> out.Decodes(v[..size])
    ensures !ok ==> !Encodable(v[..size])
  {
    out := LogicalImm(false, 0, 0);
    var e; ghost var x;
    e, x := ElementBits(v, size);
    MixedElement(v[..size], e, i);
    MixedElement(v[..size], e, j);
    var rotation, runLen;
    ok, rotation, runLen := FindRun(v, size, e, x, Rem(i, e), Rem(j, e));
    if ok {
      out := Encode(v, size, e, x, rotation, runLen);
    } else {
      NotEncodable(v, size, x);
    }
  }

  /** Accepts exactly the values some valid encoding decodes to, and returns
      one that decodes to the value. */
  method IsBitmaskImmediate(is64: bool, value: Word) returns (ok: bool, out: LogicalImm)
    ensures ok <==> Encodable(value[..if is64 then 64 else 32])
    ensures ok ==> out.Decodes(value[..if is64 then 64 else 32])
  {
    var size := if is64 then 64 else 32;
    TrivialValue(value, size);
    if BelowTwo(Inc(value), size) {
      ConstantNotEncodable(value[..size]);
      return false, LogicalImm(false, 0, 0);
    }
    var v := if is64 then value else AndWord(value, Shr(AllOnes(), 32));
    assert v[..size] == value[..size];
    ghost var i :| 0 <= i < size && value[i];
    ghost var j :| 0 <= j < size && !value[j];
    ok, out := SearchMixed(v, size, i, j);
    if ok {
      out.DecodesIsEncodable(value[..size]);
    }
  }
}
