/** Reading a captured boundary trace (read_trace in x87_trace_analyze.py): a ring
    of records, each published in the slot its sequence number leads to. */
module TraceRing {

  type U64 = x: nat | x < 0x1_0000_0000_0000_0000

  const MAGIC: U64 := 0x0031435254373858

  /** The number whose bytes, the lowest first, are the characters. */
  function Spelled(s: string): (n: nat) {
    if s == "" then 0 else s[0] as nat + 256 * Spelled(s[1..])
  }

  lemma MagicSpells()
    ensures MAGIC == Spelled("X87TRC1")
  {
    var s := "X87TRC1";
    assert Spelled(s[6..]) == '1' as nat;
    assert Spelled(s[5..]) == 'C' as nat + 256 * Spelled(s[6..]);
    assert Spelled(s[4..]) == 'R' as nat + 256 * Spelled(s[5..]);
    assert Spelled(s[3..]) == 'T' as nat + 256 * Spelled(s[4..]);
    assert Spelled(s[2..]) == '7' as nat + 256 * Spelled(s[3..]);
    assert Spelled(s[1..]) == '8' as nat + 256 * Spelled(s[2..]);
    assert Spelled(s) == 'X' as nat + 256 * Spelled(s[1..]);
  }

  const COUNT: nat := 65536

  /** Records are 256 bytes, 32 words. */
  const WORDS: nat := 32

  datatype Record = Record(sequence: U64, context: U64, pc: U64, index: U64, exit: bool, state: seq<U64>)

  datatype Error = MissingHeader | UnsupportedHeader | WrongLength | InvalidPublication(slot: nat) | WrongDropCount

  datatype Parsed<T> = Ok(value: T) | Err(error: Error)

  datatype Trace = Trace(events: nat, dropped: nat, records: seq<Record>)

  /** words[2 * slot ..] of the ring, after the header record. */
  function Word(words: seq<U64>, slot: nat, k: nat): (w: U64)
    requires |words| == WORDS * (COUNT + 1) && slot < COUNT && k < WORDS
  {
    words[WORDS * (slot + 1) + k]
  }

  function Sequence(words: seq<U64>, slot: nat): (q: U64)
    requires |words| == WORDS * (COUNT + 1) && slot < COUNT
  {
    Word(words, slot, 1)
  }

  function Decode(words: seq<U64>, slot: nat): (r: Record)
    requires |words| == WORDS * (COUNT + 1) && slot < COUNT
    ensures r.sequence == Sequence(words, slot)
  {
    var site := Word(words, slot, 3);
    Record(Word(words, slot, 1), Word(words, slot, 2), site / 0x1_0000_0000, site % 0x1_0000_0000 / 2, site % 2 == 1,
           words[WORDS * (slot + 1) + 4..WORDS * (slot + 2)])
  }

  /** The first sequence number still in the ring, less one. */
  function Floor(next: nat): (f: nat) {
    if next > COUNT then next - COUNT else 0
  }

  function Held(next: nat): (n: nat) {
    if next < COUNT then next else COUNT
  }

  predicate GoodSlot(words: seq<U64>, next: nat, slot: nat)
    requires |words| == WORDS * (COUNT + 1) && slot < COUNT
  {
    var q := Sequence(words, slot);
    q == 0 || (Word(words, slot, 0) == 0 && Floor(next) < q <= next && (q - 1) % COUNT == slot)
  }

  /** The records of the slots below n that are in use, in slot order. */
  function Collected(words: seq<U64>, n: nat): (rs: seq<Record>)
    requires |words| == WORDS * (COUNT + 1) && n <= COUNT
  {
    if n == 0 then []
    else Collected(words, n - 1) + if Sequence(words, n - 1) == 0 then [] else [Decode(words, n - 1)]
  }

  // ---- sorting by sequence number ----

  predicate Increasing(rs: seq<Record>) {
    forall i, j :: 0 <= i < j < |rs| ==> rs[i].sequence < rs[j].sequence
  }

  function Insert(rs: seq<Record>, r: Record): (s: seq<Record>)
    ensures |s| == |rs| + 1
  {
    if rs == [] || r.sequence < rs[0].sequence then [r] + rs else [rs[0]] + Insert(rs[1..], r)
  }

  /** list.sort(key=sequence); no two records here have the same number. */
  function Sort(rs: seq<Record>): (s: seq<Record>)
    ensures |s| == |rs|
  {
    if rs == [] then [] else Insert(Sort(rs[..|rs| - 1]), rs[|rs| - 1])
  }

  lemma {:induction false} InsertMembers(rs: seq<Record>, r: Record, x: Record)
    ensures x in Insert(rs, r) <==> x == r || x in rs
  {
    if rs != [] && r.sequence >= rs[0].sequence {
      InsertMembers(rs[1..], r, x);
      assert rs == [rs[0]] + rs[1..];
    }
  }

  lemma {:induction false} InsertIncreasing(rs: seq<Record>, r: Record)
    requires Increasing(rs) && forall x :: x in rs ==> x.sequence != r.sequence
    ensures Increasing(Insert(rs, r))
  {
    if rs != [] && r.sequence >= rs[0].sequence {
      var tail := rs[1..];
      assert Increasing(tail);
      InsertIncreasing(tail, r);
      var s := Insert(tail, r);
      forall j | 0 <= j < |s| ensures rs[0].sequence < s[j].sequence {
        InsertMembers(tail, r, s[j]);
        assert rs[0].sequence != r.sequence;
      }
    }
  }

  /** No two records with the same number. */
  predicate Distinct(rs: seq<Record>) {
    forall i, j :: 0 <= i < j < |rs| ==> rs[i].sequence != rs[j].sequence
  }

  lemma {:induction false} SortMembers(rs: seq<Record>, x: Record)
    ensures x in Sort(rs) <==> x in rs
  {
    if rs != [] {
      SortMembers(rs[..|rs| - 1], x);
      InsertMembers(Sort(rs[..|rs| - 1]), rs[|rs| - 1], x);
      assert rs == rs[..|rs| - 1] + [rs[|rs| - 1]];
    }
  }

  lemma {:induction false} SortIncreasing(rs: seq<Record>)
    requires Distinct(rs)
    ensures Increasing(Sort(rs))
  {
    if rs != [] {
      var init, last := rs[..|rs| - 1], rs[|rs| - 1];
      SortIncreasing(init);
      forall x | x in Sort(init) ensures x.sequence != last.sequence {
        SortMembers(init, x);
      }
      InsertIncreasing(Sort(init), last);
    }
  }

  // ---- what is accepted ----

  predicate HeaderOk(words: seq<U64>) {
    |words| >= WORDS && words[0] == MAGIC && words[1] == 1 && words[6] == COUNT
  }

  /** Everything a capture must satisfy; `tail` are stray bytes after the last
      whole word. */
  ghost predicate Accepted(words: seq<U64>, tail: nat) {
    && HeaderOk(words) && |words| == WORDS * (COUNT + 1) && tail == 0
    && (forall s :: 0 <= s < COUNT ==> GoodSlot(words, words[4], s))
    && |Collected(words, COUNT)| + words[7] == Held(words[4])
  }

  method CheckSlot(words: seq<U64>, next: nat, floor: nat, slot: nat) returns (good: bool)
    requires |words| == WORDS * (COUNT + 1) && slot < COUNT && floor == Floor(next) && Sequence(words, slot) != 0
    ensures good <==> GoodSlot(words, next, slot)
  {
    var locked, sequence := Word(words, slot, 0), Word(words, slot, 1);
    good := !(locked != 0 || !(floor < sequence <= next) || (sequence - 1) % COUNT != slot);
  }

  method ReadTrace(words: seq<U64>, tail: nat) returns (r: Parsed<Trace>)
    requires tail < 8
    ensures r.Ok? <==> Accepted(words, tail)
    ensures r.Ok? ==> r.value == Trace(words[4], words[7], Sort(Collected(words, COUNT)))
  {
    if |words| < WORDS {
      return Err(MissingHeader);
    }
    if words[0] != MAGIC || words[1] != 1 || words[6] != COUNT {
      return Err(UnsupportedHeader);
    }
    if 8 * |words| + tail != 8 * WORDS * (COUNT + 1) {
      return Err(WrongLength);
    }
    var next, dropped := words[4], words[7];
    var records := CollectRecords(words, next);
    if records.Err? {
      return Err(records.error);
    }
    var sorted := Sort(records.value);
    if (if next < COUNT then next else COUNT) - |records.value| != dropped {
      return Err(WrongDropCount);
    }
    return Ok(Trace(next, dropped, sorted));
  }

  method CollectRecords(words: seq<U64>, next: nat) returns (r: Parsed<seq<Record>>)
    requires |words| == WORDS * (COUNT + 1)
    ensures r.Ok? <==> forall s :: 0 <= s < COUNT ==> GoodSlot(words, next, s)
    ensures r.Ok? ==> r.value == Collected(words, COUNT)
  {
    var floor := if next > COUNT then next - COUNT else 0;
    var records := [];
    for slot := 0 to COUNT
      invariant records == Collected(words, slot)
      invariant forall s :: 0 <= s < slot ==> GoodSlot(words, next, s)
    {
      var sequence := Word(words, slot, 1);
      if sequence == 0 {
        continue;
      }
      var good := CheckSlot(words, next, floor, slot);
      if !good {
        return Err(InvalidPublication(slot));
      }
      records := records + [Decode(words, slot)];
    }
    return Ok(records);
  }

  // ---- what an accepted trace is like ----

  lemma {:induction false} CollectedFrom(words: seq<U64>, n: nat, x: Record)
    requires |words| == WORDS * (COUNT + 1) && n <= COUNT
    ensures x in Collected(words, n) <==> exists s :: 0 <= s < n && Sequence(words, s) != 0 && x == Decode(words, s)
  {
    if n > 0 {
      CollectedFrom(words, n - 1, x);
    }
  }

  /** Two numbers of the window that lead to one slot are the same. */
  lemma OneNumberPerSlot(next: nat, p: nat, q: nat)
    requires Floor(next) < p <= next && Floor(next) < q <= next && (p - 1) % COUNT == (q - 1) % COUNT
    ensures p == q
  {}

  lemma OtherSlot(words: seq<U64>, next: nat, s: nat, t: nat)
    requires |words| == WORDS * (COUNT + 1) && s < COUNT && t < COUNT && s != t
    requires GoodSlot(words, next, s) && GoodSlot(words, next, t) && Sequence(words, s) != 0
    ensures Sequence(words, s) != Sequence(words, t)
  {}

  lemma {:induction false} CollectedDistinct(words: seq<U64>, next: nat, n: nat)
    requires |words| == WORDS * (COUNT + 1) && n <= COUNT
    requires forall s :: 0 <= s < COUNT ==> GoodSlot(words, next, s)
    ensures Distinct(Collected(words, n))
  {
    if n > 0 {
      CollectedDistinct(words, next, n - 1);
      if Sequence(words, n - 1) != 0 {
        forall x | x in Collected(words, n - 1) ensures x.sequence != Sequence(words, n - 1) {
          CollectedFrom(words, n - 1, x);
          var s :| 0 <= s < n - 1 && Sequence(words, s) != 0 && x == Decode(words, s);
          OtherSlot(words, next, s, n - 1);
        }
      }
    }
  }

  /** What the 32 words of a slot say, word by word: the sequence number in word
      1, the context in word 2, in word 3 the pc above the index above the phase,
      and from word 4 on the captured state. */
  predicate Says(words: seq<U64>, slot: nat, r: Record)
    requires |words| == WORDS * (COUNT + 1) && slot < COUNT
  {
    var base := 32 * (slot + 1);
    && words[base + 1] == r.sequence && words[base + 2] == r.context
    && words[base + 3] == r.pc * 0x1_0000_0000 + 2 * r.index + (if r.exit then 1 else 0)
    && r.pc < 0x1_0000_0000 && r.index < 0x8000_0000
    && |r.state| == 28 && forall k :: 0 <= k < 28 ==> r.state[k] == words[base + 4 + k]
  }

  /** Word 1 of the slot's record is its sequence number; zero when it has none. */
  predicate InUse(words: seq<U64>, slot: nat)
    requires |words| == WORDS * (COUNT + 1) && slot < COUNT
  {
    words[32 * (slot + 1) + 1] != 0
  }

  /** What a slot in use must look like: not locked, one of the last 65536 numbers
      and in the slot that the number leads to. */
  predicate WellPlaced(words: seq<U64>, slot: nat)
    requires |words| == WORDS * (COUNT + 1) && slot < COUNT
  {
    var number: int, last: int := words[32 * (slot + 1) + 1], words[4];
    words[32 * (slot + 1)] == 0 && number <= last < number + 65536 && (number - 1) % 65536 == slot
  }

  function UsedBelow(words: seq<U64>, n: nat): (s: set<nat>)
    requires |words| == WORDS * (COUNT + 1) && n <= COUNT
  {
    set s: nat | s < n && InUse(words, s)
  }

  lemma {:induction false} CountUsed(words: seq<U64>, n: nat)
    requires |words| == WORDS * (COUNT + 1) && n <= COUNT
    ensures |Collected(words, n)| == |UsedBelow(words, n)|
  {
    if n > 0 {
      CountUsed(words, n - 1);
      var less := UsedBelow(words, n - 1);
      assert UsedBelow(words, n) == if InUse(words, n - 1) then less + {n - 1} else less;
    }
  }

  /** A capture is accepted exactly when its header is the known one, it has
      65537 records of 256 bytes, every slot in use is well placed, and the slots
      in use and the records dropped make up the window. */
  lemma AcceptedIff(words: seq<U64>, tail: nat)
    requires tail < 8
    ensures Accepted(words, tail) <==>
      && 8 * |words| + tail == 256 * 65537 && words[0] == MAGIC && words[1] == 1 && words[6] == 65536
      && (forall s :: 0 <= s < COUNT && InUse(words, s) ==> WellPlaced(words, s))
      && |UsedBelow(words, COUNT)| + words[7] == if words[4] < 65536 then words[4] else 65536
  {
    if |words| == WORDS * (COUNT + 1) {
      CountUsed(words, COUNT);
      forall s | 0 <= s < COUNT ensures GoodSlot(words, words[4], s) <==> InUse(words, s) ==> WellPlaced(words, s) {
        GoodIff(words, s);
      }
    }
  }

  lemma GoodIff(words: seq<U64>, s: nat)
    requires |words| == WORDS * (COUNT + 1) && s < COUNT
    ensures GoodSlot(words, words[4], s) <==> InUse(words, s) ==> WellPlaced(words, s)
  {}

  lemma DecodeSays(words: seq<U64>, slot: nat)
    requires |words| == WORDS * (COUNT + 1) && slot < COUNT
    ensures Says(words, slot, Decode(words, slot))
  {
    var r, site := Decode(words, slot), words[32 * (slot + 1) + 3];
    SiteParts(site, r.pc, r.index, r.exit);
  }

  lemma SiteParts(site: U64, pc: nat, index: nat, exit: bool)
    requires pc == site / 0x1_0000_0000 && index == site % 0x1_0000_0000 / 2 && exit == (site % 2 == 1)
    ensures site == pc * 0x1_0000_0000 + 2 * index + (if exit then 1 else 0)
    ensures pc < 0x1_0000_0000 && index < 0x8000_0000
  {
    SameParity(pc, site % 0x1_0000_0000);
  }

  lemma SameParity(pc: nat, low: nat)
    ensures (pc * 0x1_0000_0000 + low) % 2 == low % 2
    ensures low == 2 * (low / 2) + low % 2
  {}

  /** A slot says one thing only. */
  lemma SaysOne(words: seq<U64>, slot: nat, r: Record, r': Record)
    requires |words| == WORDS * (COUNT + 1) && slot < COUNT && Says(words, slot, r) && Says(words, slot, r')
    ensures r == r'
  {
    assert r.state == r'.state;
  }

  /** The numbers increase, lie in the window the header gives, and each is in
      the slot it leads to; retained and dropped records make up the window.  A
      slot is in use when word 1 of its record is not zero; each such slot has the
      record it says, and there is no other. */
  lemma AcceptedTrace(words: seq<U64>, tail: nat)
    requires Accepted(words, tail)
    ensures var next, rs := words[4], Sort(Collected(words, COUNT));
      && Increasing(rs) && |rs| + words[7] == Held(next)
      && (forall r :: r in rs ==> 0 < r.sequence && Placed(next, r) && Says(words, (r.sequence - 1) % COUNT, r))
      && (forall s :: 0 <= s < COUNT && InUse(words, s) ==> exists r :: r in rs && Says(words, s, r))
  {
    var next, cs := words[4], Collected(words, COUNT);
    CollectedDistinct(words, next, COUNT);
    SortIncreasing(cs);
    forall r | r in Sort(cs)
      ensures 0 < r.sequence && Placed(next, r) && Says(words, (r.sequence - 1) % COUNT, r)
    {
      SortMembers(cs, r);
      InPlace(words, next, r, COUNT);
      DecodeSays(words, (r.sequence - 1) % COUNT);
    }
    forall s | 0 <= s < COUNT && InUse(words, s) ensures exists r :: r in Sort(cs) && Says(words, s, r) {
      var r := Decode(words, s);
      CollectedFrom(words, COUNT, r);
      SortMembers(cs, r);
      DecodeSays(words, s);
    }
  }

  /** A record is in the window of the last 65536 numbers. */
  predicate Placed(next: nat, r: Record) {
    r.sequence <= next < r.sequence + COUNT
  }

  lemma {:induction false} InPlace(words: seq<U64>, next: nat, r: Record, n: nat)
    requires |words| == WORDS * (COUNT + 1) && n <= COUNT && r in Collected(words, n)
    requires forall s :: 0 <= s < COUNT ==> GoodSlot(words, next, s)
    ensures Placed(next, r) && r.sequence > 0 && r == Decode(words, (r.sequence - 1) % COUNT)
  {
    if Sequence(words, n - 1) != 0 && r == Decode(words, n - 1) {
      SlotOf(words, next, n - 1);
    } else {
      InPlace(words, next, r, n - 1);
    }
  }

  lemma SlotOf(words: seq<U64>, next: nat, s: nat)
    requires |words| == WORDS * (COUNT + 1) && s < COUNT && GoodSlot(words, next, s) && Sequence(words, s) != 0
    ensures var r := Decode(words, s); Placed(next, r) && (r.sequence - 1) % COUNT == s
  {}

  lemma {:induction false} AtLeast(rs: seq<Record>, low: nat, k: nat)
    requires Increasing(rs) && k < |rs| && rs[0].sequence > low
    ensures rs[k].sequence > low + k
  {
    if k > 0 {
      AtLeast(rs, low, k - 1);
    }
  }

  lemma {:induction false} AtMost(rs: seq<Record>, high: nat, k: nat)
    requires Increasing(rs) && k < |rs| && rs[|rs| - 1].sequence <= high
    ensures rs[k].sequence + (|rs| - 1 - k) <= high
    decreases |rs| - k
  {
    if k < |rs| - 1 {
      AtMost(rs, high, k + 1);
    }
  }

  /** Nothing dropped means nothing missing: the numbers are consecutive up to
      the last event, and the other way round. */
  lemma Complete(words: seq<U64>, tail: nat)
    requires Accepted(words, tail)
    ensures var next, rs := words[4], Sort(Collected(words, COUNT));
      words[7] == 0 <==> |rs| == Held(next) && forall k :: 0 <= k < |rs| ==> rs[k].sequence == Floor(next) + 1 + k
  {
    var next, rs := words[4], Sort(Collected(words, COUNT));
    AcceptedTrace(words, tail);
    if words[7] == 0 {
      forall k | 0 <= k < |rs| ensures rs[k].sequence == Floor(next) + 1 + k {
        assert rs[0] in rs && rs[|rs| - 1] in rs;
        AtLeast(rs, Floor(next), k);
        AtMost(rs, next, k);
      }
    }
  }
}
