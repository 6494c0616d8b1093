/** Pairing the entries and exits of a trace (analyze in x87_trace_analyze.py),
    never across a missing sequence number. */
module TracePairs {
  import opened TraceRing

  // ---- what becomes of an entry ----

  datatype Fate = NoEntry | Waiting | Popped(at: nat) | Replaced(at: nat) | Cleared(at: nat)

  /** A number is missing just before record i. */
  predicate Gap(rs: seq<Record>, i: nat)
    requires i < |rs|
  {
    i > 0 && rs[i].sequence != rs[i - 1].sequence + 1
  }

  /** Among increasing numbers that is: some number lies between the two records'. */
  lemma GapIff(rs: seq<Record>, i: nat)
    requires 0 < i < |rs| && rs[i - 1].sequence < rs[i].sequence
    ensures Gap(rs, i) <==> exists m: nat :: Missing(rs, i, m)
  {
    if Gap(rs, i) {
      assert Missing(rs, i, rs[i - 1].sequence + 1);
    }
  }

  predicate Missing(rs: seq<Record>, i: nat, m: nat)
    requires 0 < i < |rs|
  {
    rs[i - 1].sequence < m < rs[i].sequence
  }

  /** What has happened to record j once the first n are read: the next gap or
      the next record of its context decides. */
  function FateOf(rs: seq<Record>, j: nat, n: nat): (f: Fate)
    requires j < n <= |rs|
  {
    if rs[j].exit then NoEntry
    else if n == j + 1 then Waiting
    else
      var before, i := FateOf(rs, j, n - 1), n - 1;
      if before != Waiting then before
      else if Gap(rs, i) then Cleared(i)
      else if rs[i].context != rs[j].context then Waiting
      else if rs[i].exit then Popped(i)
      else Replaced(i)
  }

  function Fates(rs: seq<Record>, n: nat): (fs: seq<Fate>)
    requires n <= |rs|
  {
    seq(n, j requires 0 <= j < n => FateOf(rs, j, n))
  }

  /** Nothing between j and k touches j's context and no number is missing. */
  ghost predicate Quiet(rs: seq<Record>, j: nat, k: nat)
    requires k <= |rs|
  {
    forall i :: j < i < k ==> !Gap(rs, i) && rs[i].context != rs[j].context
  }

  lemma {:induction false} WaitingIff(rs: seq<Record>, j: nat, n: nat)
    requires j < n <= |rs|
    ensures FateOf(rs, j, n) == Waiting <==> !rs[j].exit && Quiet(rs, j, n)
  {
    if n > j + 1 {
      WaitingIff(rs, j, n - 1);
    }
  }

  /** Exit k takes entry j: that is the latest record of its context, and no
      number in between is missing. */
  ghost predicate Takes(rs: seq<Record>, j: nat, k: nat)
    requires k < |rs|
  {
    j < k && !rs[j].exit && rs[k].exit && rs[k].context == rs[j].context && !Gap(rs, k) && Quiet(rs, j, k)
  }

  lemma {:induction false} PoppedIff(rs: seq<Record>, j: nat, k: nat, n: nat)
    requires j < n <= |rs|
    ensures FateOf(rs, j, n) == Popped(k) <==> k < n && Takes(rs, j, k)
  {
    if n > j + 1 {
      PoppedIff(rs, j, k, n - 1);
      WaitingIff(rs, j, n - 1);
      if k == n - 1 {
        assert FateOf(rs, j, n - 1) != Popped(k);
        assert Takes(rs, j, k) ==> FateOf(rs, j, n - 1) == Waiting;
      }
    }
  }

  // ---- counting ----

  function KindOf(f: Fate): (k: nat) {
    match f case NoEntry => 0 case Waiting => 1 case Popped(_) => 2 case Replaced(_) => 3 case Cleared(_) => 4
  }

  function Count(fs: seq<Fate>, kind: nat): (n: nat) {
    if fs == [] then 0 else Count(fs[..|fs| - 1], kind) + if KindOf(fs[|fs| - 1]) == kind then 1 else 0
  }

  lemma CountMore(fs: seq<Fate>, f: Fate, kind: nat)
    ensures Count(fs + [f], kind) == Count(fs, kind) + if KindOf(f) == kind then 1 else 0
  {
    assert (fs + [f])[..|fs + [f]| - 1] == fs;
  }

  lemma {:induction false} CountUpdate(fs: seq<Fate>, j: nat, f: Fate, kind: nat)
    requires j < |fs|
    ensures Count(fs[j := f], kind) + (if KindOf(fs[j]) == kind then 1 else 0) ==
      Count(fs, kind) + if KindOf(f) == kind then 1 else 0
  {
    var n := |fs| - 1;
    if j == n {
      assert fs[j := f][..n] == fs[..n];
    } else {
      assert fs[j := f][..n] == fs[..n][j := f];
      CountUpdate(fs[..n], j, f, kind);
    }
  }

  /** All that waits is cleared. */
  function ClearAll(fs: seq<Fate>, at: nat): (r: seq<Fate>)
    ensures |r| == |fs|
  {
    seq(|fs|, j requires 0 <= j < |fs| => if fs[j] == Waiting then Cleared(at) else fs[j])
  }

  lemma {:induction false} CountClear(fs: seq<Fate>, at: nat, kind: nat)
    ensures Count(ClearAll(fs, at), kind) ==
      if kind == 1 then 0 else Count(fs, kind) + if kind == 4 then Count(fs, 1) else 0
  {
    if fs != [] {
      var n := |fs| - 1;
      assert ClearAll(fs, at)[..n] == ClearAll(fs[..n], at);
      CountClear(fs[..n], at, kind);
    }
  }

  /** Every fate is of one kind. */
  lemma {:induction false} KindsAddUp(fs: seq<Fate>)
    ensures Count(fs, 0) + Count(fs, 1) + Count(fs, 2) + Count(fs, 3) + Count(fs, 4) == |fs|
  {
    if fs != [] {
      KindsAddUp(fs[..|fs| - 1]);
    }
  }

  function Gaps(rs: seq<Record>, n: nat): (g: nat)
    requires n <= |rs|
  {
    if n == 0 then 0 else Gaps(rs, n - 1) + if Gap(rs, n - 1) then 1 else 0
  }

  // ---- analyze ----

  /** Entry j and exit k: the exit takes the entry and both are at one pc. */
  ghost predicate IsPair(rs: seq<Record>, j: nat, k: nat) {
    j < k < |rs| && FateOf(rs, j, k + 1) == Popped(k) && rs[j].pc == rs[k].pc
  }

  /** The dictionary holds exactly the entries that wait, by context. */
  ghost predicate Holds(rs: seq<Record>, pending: map<U64, nat>, fs: seq<Fate>)
    requires |fs| <= |rs|
  {
    && (forall c :: c in pending ==> pending[c] < |fs| && fs[pending[c]] == Waiting && rs[pending[c]].context == c)
    && (forall j :: 0 <= j < |fs| && fs[j] == Waiting ==> rs[j].context in pending && pending[rs[j].context] == j)
    && |pending| == Count(fs, 1)
  }

  ghost predicate PairsUpTo(rs: seq<Record>, pairs: seq<(nat, nat)>, n: nat)
  {
    OnlyPairs(rs, pairs, n) && AllPairs(rs, pairs, n) && InOrder(pairs)
  }

  ghost predicate OnlyPairs(rs: seq<Record>, pairs: seq<(nat, nat)>, n: nat) {
    forall p :: 0 <= p < |pairs| ==> pairs[p].1 < n && IsPair(rs, pairs[p].0, pairs[p].1)
  }

  ghost predicate AllPairs(rs: seq<Record>, pairs: seq<(nat, nat)>, n: nat) {
    forall j: nat, k: nat :: k < n && IsPair(rs, j, k) ==> (j, k) in pairs
  }

  predicate InOrder(pairs: seq<(nat, nat)>) {
    forall p, q :: 0 <= p < q < |pairs| ==> pairs[p].1 < pairs[q].1
  }

  /** One entry changes, or all that wait, when record n is read. */
  function AfterGap(rs: seq<Record>, n: nat, fs: seq<Fate>): (r: seq<Fate>)
    requires n == |fs| < |rs|
    ensures |r| == n
  {
    if Gap(rs, n) then ClearAll(fs, n) else fs
  }

  lemma FatesNext(rs: seq<Record>, n: nat, j: nat)
    requires j < n < |rs|
    ensures FateOf(rs, j, n + 1) ==
      var f := AfterGap(rs, n, Fates(rs, n))[j];
      if f != Waiting || rs[n].context != rs[j].context then f else if rs[n].exit then Popped(n) else Replaced(n)
  {}

  /** The fates once record n is read, from those after its gap check. */
  lemma NextFates(rs: seq<Record>, n: nat, pending: map<U64, nat>, fs: seq<Fate>)
    requires n < |rs| && |fs| == n && fs == AfterGap(rs, n, Fates(rs, n)) && Holds(rs, pending, fs)
    ensures var c, f := rs[n].context, if rs[n].exit then Popped(n) else Replaced(n);
      Fates(rs, n + 1) == (if c in pending then fs[pending[c] := f] else fs) + [FateOf(rs, n, n + 1)]
  {
    var c, f := rs[n].context, if rs[n].exit then Popped(n) else Replaced(n);
    var next := (if c in pending then fs[pending[c] := f] else fs) + [FateOf(rs, n, n + 1)];
    forall j | 0 <= j < n ensures Fates(rs, n + 1)[j] == next[j] {
      FatesNext(rs, n, j);
    }
  }

  /** The entry of a context leaves the dictionary. */
  lemma HoldsLess(rs: seq<Record>, pending: map<U64, nat>, fs: seq<Fate>, c: U64, f: Fate)
    requires |fs| <= |rs| && Holds(rs, pending, fs) && c in pending && f != Waiting
    ensures Holds(rs, pending - {c}, fs[pending[c] := f])
  {
    CountUpdate(fs, pending[c], f, 1);
    Removed(pending, c);
  }

  lemma HoldsSame(rs: seq<Record>, pending: map<U64, nat>, fs: seq<Fate>, f: Fate)
    requires |fs| < |rs| && Holds(rs, pending, fs) && f != Waiting
    ensures Holds(rs, pending, fs + [f])
  {
    CountMore(fs, f, 1);
    var more := fs + [f];
    assert forall j :: 0 <= j < |fs| ==> more[j] == fs[j];
  }

  lemma HoldsNew(rs: seq<Record>, pending: map<U64, nat>, fs: seq<Fate>)
    requires |fs| < |rs| && Holds(rs, pending, fs) && rs[|fs|].context !in pending
    ensures Holds(rs, pending[rs[|fs|].context := |fs|], fs + [Waiting])
  {
    CountMore(fs, Waiting, 1);
    var more := fs + [Waiting];
    assert forall j :: 0 <= j < |fs| ==> more[j] == fs[j];
  }

  lemma Removed(m: map<U64, nat>, c: U64)
    requires c in m
    ensures |m - {c}| == |m| - 1
  {
    assert m == (m - {c})[c := m[c]];
  }

  lemma HoldsWithout(rs: seq<Record>, pending: map<U64, nat>, fs: seq<Fate>, c: U64, f: Fate)
    requires |fs| <= |rs| && Holds(rs, pending, fs) && f != Waiting
    ensures c in pending ==> pending[c] < |fs|
    ensures Holds(rs, pending - {c}, if c in pending then fs[pending[c] := f] else fs)
  {
    if c in pending {
      HoldsLess(rs, pending, fs, c, f);
    } else {
      assert pending - {c} == pending;
    }
  }

  lemma PutBack(m: map<U64, nat>, c: U64, n: nat)
    ensures (m - {c})[c := n] == m[c := n]
  {}

  lemma NextHolds(rs: seq<Record>, n: nat, pending: map<U64, nat>, fs: seq<Fate>)
    requires n < |rs| && |fs| == n && fs == AfterGap(rs, n, Fates(rs, n)) && Holds(rs, pending, fs)
    ensures var c := rs[n].context;
      Holds(rs, if rs[n].exit then pending - {c} else pending[c := n], Fates(rs, n + 1))
  {
    var c, f := rs[n].context, if rs[n].exit then Popped(n) else Replaced(n);
    HoldsWithout(rs, pending, fs, c, f);
    var mid := if c in pending then fs[pending[c] := f] else fs;
    assert Fates(rs, n + 1) == mid + [FateOf(rs, n, n + 1)] by {
      NextFates(rs, n, pending, fs);
    }
    PutBack(pending, c, n);
    if rs[n].exit {
      HoldsSame(rs, pending - {c}, mid, FateOf(rs, n, n + 1));
    } else {
      HoldsNew(rs, pending - {c}, mid);
    }
  }

  lemma NextCounts(rs: seq<Record>, n: nat, pending: map<U64, nat>, fs: seq<Fate>)
    requires n < |rs| && |fs| == n && fs == AfterGap(rs, n, Fates(rs, n)) && Holds(rs, pending, fs)
    ensures Count(Fates(rs, n + 1), 0) == Count(fs, 0) + if rs[n].exit then 1 else 0
    ensures Count(Fates(rs, n + 1), 2) == Count(fs, 2) + if rs[n].exit && rs[n].context in pending then 1 else 0
    ensures Count(Fates(rs, n + 1), 3) == Count(fs, 3) + if !rs[n].exit && rs[n].context in pending then 1 else 0
  {
    var c, f := rs[n].context, if rs[n].exit then Popped(n) else Replaced(n);
    NextFates(rs, n, pending, fs);
    var mid := fs;
    if c in pending {
      mid := fs[pending[c] := f];
      CountUpdate(fs, pending[c], f, 0);
      CountUpdate(fs, pending[c], f, 2);
      CountUpdate(fs, pending[c], f, 3);
    }
    CountMore(mid, FateOf(rs, n, n + 1), 0);
    CountMore(mid, FateOf(rs, n, n + 1), 2);
    CountMore(mid, FateOf(rs, n, n + 1), 3);
  }

  /** The exit read as record n pops what the dictionary has for it. */
  lemma PopsPending(rs: seq<Record>, n: nat, pending: map<U64, nat>, fs: seq<Fate>, j: nat)
    requires j < n < |rs| && |fs| == n && fs == AfterGap(rs, n, Fates(rs, n)) && Holds(rs, pending, fs)
    ensures FateOf(rs, j, n + 1) == Popped(n) <==>
      rs[n].exit && rs[n].context in pending && pending[rs[n].context] == j
  {
    FatesNext(rs, n, j);
    if FateOf(rs, j, n) == Popped(n) {
      PoppedIff(rs, j, n, n);
    }
  }

  lemma ExitPairs(rs: seq<Record>, n: nat, pending: map<U64, nat>, fs: seq<Fate>, j: nat)
    requires n < |rs| && |fs| == n && fs == AfterGap(rs, n, Fates(rs, n)) && Holds(rs, pending, fs)
    ensures IsPair(rs, j, n) <==>
      rs[n].exit && rs[n].context in pending && pending[rs[n].context] == j && rs[j].pc == rs[n].pc
  {
    if j < n {
      PopsPending(rs, n, pending, fs, j);
    }
  }

  lemma PairsMore(rs: seq<Record>, pairs: seq<(nat, nat)>, n: nat, some: bool, e: nat)
    requires PairsUpTo(rs, pairs, n) && forall j :: IsPair(rs, j, n) <==> some && j == e
    ensures PairsUpTo(rs, if some then pairs + [(e, n)] else pairs, n + 1)
  {
    var more := if some then pairs + [(e, n)] else pairs;
    forall p, q | 0 <= p < q < |more| ensures more[p].1 < more[q].1 {
      assert more[p] == pairs[p];
    }
    forall p | 0 <= p < |more| ensures more[p].1 < n + 1 && IsPair(rs, more[p].0, more[p].1) {
      assert p < |pairs| ==> more[p] == pairs[p];
    }
    AllPairsMore(rs, pairs, more, n, some, e);
  }

  lemma AllPairsMore(rs: seq<Record>, pairs: seq<(nat, nat)>, more: seq<(nat, nat)>, n: nat, some: bool, e: nat)
    requires AllPairs(rs, pairs, n) && forall j :: IsPair(rs, j, n) <==> some && j == e
    requires more == if some then pairs + [(e, n)] else pairs
    ensures AllPairs(rs, more, n + 1)
  {
    forall j: nat, k: nat | k < n + 1 && IsPair(rs, j, k) ensures (j, k) in more {
      if k < n {
        assert (j, k) in pairs;
      } else {
        assert more[|pairs|] == (j, k);
      }
    }
  }

  /** What the analysis has computed when n records are read. */
  ghost predicate Analyzed(rs: seq<Record>, n: nat, pairs: seq<(nat, nat)>, replaced: nat, unpaired: nat, gaps: nat)
    requires n <= |rs|
  {
    && PairsUpTo(rs, pairs, n) && gaps == Gaps(rs, n)
    && replaced == Count(Fates(rs, n), 3) && unpaired + |pairs| == Count(Fates(rs, n), 0)
    && Count(Fates(rs, n), 2) == |pairs| + Misplaced(rs, n) && Misplaced(rs, n) <= unpaired
  }

  /** Exit k takes an entry made at another pc. */
  ghost predicate MisplacedAt(rs: seq<Record>, k: nat)
    requires k < |rs|
  {
    exists j: nat :: j < k && FateOf(rs, j, k + 1) == Popped(k) && rs[j].pc != rs[k].pc
  }

  ghost function Misplaced(rs: seq<Record>, n: nat): (w: nat)
    requires n <= |rs|
  {
    if n == 0 then 0 else Misplaced(rs, n - 1) + if MisplacedAt(rs, n - 1) then 1 else 0
  }

  lemma NextMisplaced(rs: seq<Record>, n: nat, pending: map<U64, nat>, fs: seq<Fate>)
    requires n < |rs| && |fs| == n && fs == AfterGap(rs, n, Fates(rs, n)) && Holds(rs, pending, fs)
    ensures MisplacedAt(rs, n) <==> rs[n].exit && rs[n].context in pending && !Matches(rs, n, pending)
  {
    if rs[n].exit && rs[n].context in pending {
      PopsPending(rs, n, pending, fs, pending[rs[n].context]);
    }
    if MisplacedAt(rs, n) {
      var j: nat :| j < n && FateOf(rs, j, n + 1) == Popped(n) && rs[j].pc != rs[n].pc;
      PopsPending(rs, n, pending, fs, j);
    }
  }

  /** The check for a missing number. */
  lemma GapStep(rs: seq<Record>, n: nat, pending: map<U64, nat>)
    requires n < |rs| && Holds(rs, pending, Fates(rs, n))
    ensures var fs := AfterGap(rs, n, Fates(rs, n));
      && Holds(rs, if Gap(rs, n) then map[] else pending, fs)
      && Count(fs, 0) == Count(Fates(rs, n), 0) && Count(fs, 3) == Count(Fates(rs, n), 3)
      && Count(fs, 2) == Count(Fates(rs, n), 2)
  {
    CountClear(Fates(rs, n), n, 2);
    CountClear(Fates(rs, n), n, 0);
    CountClear(Fates(rs, n), n, 1);
    CountClear(Fates(rs, n), n, 3);
  }

  /** The exit read as record n has a partner in the dictionary. */
  predicate Matches(rs: seq<Record>, n: nat, pending: map<U64, nat>)
    requires n < |rs|
  {
    && rs[n].exit && rs[n].context in pending
    && pending[rs[n].context] < n && rs[pending[rs[n].context]].pc == rs[n].pc
  }

  lemma NextPairs(rs: seq<Record>, n: nat, pending: map<U64, nat>, fs: seq<Fate>, pairs: seq<(nat, nat)>)
    requires n < |rs| && |fs| == n && fs == AfterGap(rs, n, Fates(rs, n)) && Holds(rs, pending, fs)
    requires PairsUpTo(rs, pairs, n)
    ensures PairsUpTo(rs, if Matches(rs, n, pending) then pairs + [(pending[rs[n].context], n)] else pairs, n + 1)
  {
    var some := Matches(rs, n, pending);
    var e := if some then pending[rs[n].context] else 0;
    forall j: nat ensures IsPair(rs, j, n) <==> some && j == e {
      ExitPairs(rs, n, pending, fs, j);
    }
    PairsMore(rs, pairs, n, some, e);
  }

  /** Reading record n. */
  lemma Reads(rs: seq<Record>, n: nat, pending0: map<U64, nat>, pending: map<U64, nat>, pairs: seq<(nat, nat)>,
              replaced: nat, unpaired: nat, gaps: nat)
    requires n < |rs| && Holds(rs, pending0, Fates(rs, n)) && Analyzed(rs, n, pairs, replaced, unpaired, gaps)
    requires pending == if Gap(rs, n) then map[] else pending0
    ensures var c, m, g := rs[n].context, Matches(rs, n, pending), gaps + if Gap(rs, n) then 1 else 0;
      && Holds(rs, if rs[n].exit then pending - {c} else pending[c := n], Fates(rs, n + 1))
      && (!rs[n].exit ==> Analyzed(rs, n + 1, pairs, replaced + if c in pending then 1 else 0, unpaired, g))
      && (rs[n].exit ==>
            if m then Analyzed(rs, n + 1, pairs + [(pending[c], n)], replaced, unpaired, g)
            else Analyzed(rs, n + 1, pairs, replaced, unpaired + 1, g))
  {
    var fs := AfterGap(rs, n, Fates(rs, n));
    GapStep(rs, n, pending0);
    NextHolds(rs, n, pending, fs);
    NextCounts(rs, n, pending, fs);
    NextPairs(rs, n, pending, fs, pairs);
    NextMisplaced(rs, n, pending, fs);
  }

  // ---- the comparison ----

  /** What the analysis looks at in the captured states: whether the trace is of
      the block with the known chain, whether guest state changed across it,
      whether the operand is finite and in range, whether the result agrees. */
  datatype Measure = Measure(known: bool, changed: (Record, Record) -> bool, inRange: Record -> bool,
                             agrees: (Record, Record) -> bool)
  {
    /** Entry j and exit k bracket the whole chain of ten instructions. */
    predicate Whole(rs: seq<Record>, p: (nat, nat)) {
      p.0 < |rs| && p.1 < |rs| && known && rs[p.0].index == 0 && rs[p.1].index == 10
    }

    predicate Changed(rs: seq<Record>, p: (nat, nat)) {
      Whole(rs, p) && changed(rs[p.0], rs[p.1])
    }

    predicate Checked(rs: seq<Record>, p: (nat, nat)) {
      Whole(rs, p) && inRange(rs[p.0])
    }

    predicate Wrong(rs: seq<Record>, p: (nat, nat)) {
      Checked(rs, p) && !agrees(rs[p.0], rs[p.1])
    }
  }

  datatype Report = Report(checked: nat, mismatches: seq<(nat, nat)>, changes: seq<(nat, nat)>)

  /** Exactly the pairs that are to be reported are, and each once. */
  ghost predicate Reports(rs: seq<Record>, m: Measure, pairs: seq<(nat, nat)>, r: Report) {
    && r.checked == Number(rs, m, pairs)
    && (forall p :: p in r.mismatches <==> p in pairs && m.Wrong(rs, p))
    && (forall p :: p in r.changes <==> p in pairs && m.Changed(rs, p))
    && InOrder(r.mismatches) && InOrder(r.changes)
  }

  function Number(rs: seq<Record>, m: Measure, pairs: seq<(nat, nat)>): (n: nat) {
    if pairs == [] then 0
    else Number(rs, m, pairs[..|pairs| - 1]) + if m.Checked(rs, pairs[|pairs| - 1]) then 1 else 0
  }

  lemma InOrderMore(some: seq<(nat, nat)>, pairs: seq<(nat, nat)>, p: (nat, nat))
    requires InOrder(some) && InOrder(pairs + [p]) && forall q :: q in some ==> q in pairs
    ensures InOrder(some + [p])
  {
    forall i | 0 <= i < |some| ensures some[i].1 < p.1 {
      assert some[i] in pairs;
      var k :| 0 <= k < |pairs| && pairs[k] == some[i];
      assert (pairs + [p])[k] == pairs[k] && (pairs + [p])[|pairs|] == p;
    }
  }

  /** One more pair, with what the source does about it. */
  method Compare(rs: seq<Record>, m: Measure, ghost pairs: seq<(nat, nat)>, p: (nat, nat), r0: Report)
    returns (r: Report)
    requires Reports(rs, m, pairs, r0) && InOrder(pairs + [p])
    ensures Reports(rs, m, pairs + [p], r)
  {
    r := r0;
    assert (pairs + [p])[..|pairs|] == pairs;
    InOrderMore(r0.mismatches, pairs, p);
    InOrderMore(r0.changes, pairs, p);
    if !m.Whole(rs, p) {
      return;
    }
    if m.changed(rs[p.0], rs[p.1]) {
      r := r.(changes := r.changes + [p]);
    }
    if !m.inRange(rs[p.0]) {
      return;
    }
    r := r.(checked := r.checked + 1);
    if !m.agrees(rs[p.0], rs[p.1]) {
      r := r.(mismatches := r.mismatches + [p]);
    }
  }

  // ---- the loop ----

  /** The loop of the source.  The pairs are exactly the pairs there are, in
      order; the report is of exactly those that it should be; and every record
      is accounted for: the two of each pair, the exits without one, the entries
      of the misplaced among these, and the entries replaced, pending and
      cleared. */
  method Analyze(rs: seq<Record>, m: Measure)
    returns (pairs: seq<(nat, nat)>, replaced: nat, unpaired: nat, pendingEntries: nat, gapResets: nat, report: Report)
    ensures Analyzed(rs, |rs|, pairs, replaced, unpaired, gapResets)
    ensures pendingEntries == Count(Fates(rs, |rs|), 1) && Reports(rs, m, pairs, report)
    ensures |rs| == 2 * |pairs| + unpaired + Misplaced(rs, |rs|) + replaced + pendingEntries + Count(Fates(rs, |rs|), 4)
  {
    var pending: map<U64, nat> := map[];
    pairs, replaced, unpaired, gapResets := [], 0, 0, 0;
    report := Report(0, [], []);
    for n := 0 to |rs|
      invariant Holds(rs, pending, Fates(rs, n))
      invariant Analyzed(rs, n, pairs, replaced, unpaired, gapResets)
      invariant Reports(rs, m, pairs, report)
    {
      var before := pairs;
      pending, pairs, replaced, unpaired, gapResets := ReadRecord(rs, n, pending, pairs, replaced, unpaired, gapResets);
      if |pairs| > |before| {
        report := Compare(rs, m, before, pairs[|before|], report);
      }
    }
    pendingEntries := |pending|;
    KindsAddUp(Fates(rs, |rs|));
  }

  /** The body of the loop. */
  method ReadRecord(rs: seq<Record>, n: nat, pending0: map<U64, nat>, pairs0: seq<(nat, nat)>, replaced0: nat,
                    unpaired0: nat, gapResets0: nat)
    returns (pending: map<U64, nat>, pairs: seq<(nat, nat)>, replaced: nat, unpaired: nat, gapResets: nat)
    requires n < |rs| && Holds(rs, pending0, Fates(rs, n)) && Analyzed(rs, n, pairs0, replaced0, unpaired0, gapResets0)
    ensures Holds(rs, pending, Fates(rs, n + 1))
    ensures Analyzed(rs, n + 1, pairs, replaced, unpaired, gapResets)
    ensures pairs == pairs0 || (|pairs| == |pairs0| + 1 && pairs == pairs0 + [pairs[|pairs0|]])
  {
    pending, pairs, replaced, unpaired, gapResets := pending0, pairs0, replaced0, unpaired0, gapResets0;
    if n > 0 && rs[n].sequence != rs[n - 1].sequence + 1 {
      pending := map[];
      gapResets := gapResets + 1;
    }
    Reads(rs, n, pending0, pending, pairs, replaced, unpaired, gapResets0);
    var context := rs[n].context;
    assert context in pending ==> pending[context] < n;
    if !rs[n].exit {
      if context in pending {
        replaced := replaced + 1;
      }
      pending := pending[context := n];
      return;
    }
    if context !in pending || rs[pending[context]].pc != rs[n].pc {
      unpaired := unpaired + 1;
    } else {
      pairs := pairs + [(pending[context], n)];
    }
    pending := pending - {context};
  }

  /** In a pair the entry and the exit have one context and one pc, and every
      number between them is there. */
  lemma PairMeans(rs: seq<Record>, j: nat, k: nat)
    ensures IsPair(rs, j, k) <==> k < |rs| && Takes(rs, j, k) && rs[j].pc == rs[k].pc
  {
    if j < k < |rs| {
      PoppedIff(rs, j, k, k + 1);
    }
  }

  lemma {:induction false} NothingMissing(rs: seq<Record>, j: nat, k: nat, i: nat)
    requires IsPair(rs, j, k) && j <= i <= k
    ensures rs[i].sequence == rs[j].sequence + (i - j)
  {
    if i > j {
      NothingMissing(rs, j, k, i - 1);
      PairMeans(rs, j, k);
      assert !Gap(rs, i);
    }
  }
}
