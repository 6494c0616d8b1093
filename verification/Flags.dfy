/** What every emitter does to the flags of a run, as functions, and which
    operations the emitted code gets wrong from given flags. */
module Flags {
  import opened X87Stack
  import opened DeferredState
  import opened Guards

  /** A TOP or tag update is owed. */
  predicate Owes(c: Cache) {
    c.topDirty || c.tagPending || c.deferred > 0
  }

  /** The deferred pops after they are flushed, if there are any. */
  function Paid(n: int): (r: int) {
    if n > 0 then 0 else n
  }

  /** x87_begin: inside a run TOP is in its register from here on. */
  function Begun(c: Cache): (c': Cache) {
    if c.run > 0 then c.(gprsValid := true) else c
  }

  /** The permutation is flushed. */
  function Ordered(c: Cache): (c': Cache)
    ensures c'.perm == Identity() && Permutation(c'.perm)
  {
    c.(perm := Identity(), permDirty := false)
  }

  /** A deferred fxch. */
  function Exchanged(c: Cache, d: Index): (c': Cache)
    requires Permutation(c.perm)
    ensures Permutation(c'.perm)
  {
    SwapKeepsPermutation(c.perm, d);
    c.(perm := Swap(c.perm, 0, d), permDirty := true)
  }

  /** One operation, between x87_begin and x87_end. */
  function Flagged(c: Cache, defer: bool, op: Op): (c': Cache)
    requires Permutation(c.perm)
    ensures c'.run == c.run && c'.gprsValid == c.gprsValid && Permutation(c'.perm)
  {
    match op
    case Push =>
      if c.run == 0 then c else Ordered(c).(topDirty := true, tagPending := true, deferred := Paid(c.deferred))
    case Pop =>
      if c.run == 0 then c.(topDirty := false)
      else if c.tagPending then Ordered(c).(topDirty := false, tagPending := false)
      else Ordered(c).(topDirty := true, deferred := Int8(c.deferred + 1))
    case PopN(_) =>
      (if c.run > 0 then Ordered(c) else c).(topDirty := c.run > 0, tagPending := false, deferred := Paid(c.deferred))
    case Fxch(d) =>
      if d != 0 && c.run > 0 && defer then Exchanged(c, d) else c
    case Rotate(_) => Ordered(c).(topDirty := true, tagPending := false, deferred := Paid(c.deferred))
    case Free(_) => c.(tagPending := false, deferred := Paid(c.deferred))
    case FlushTop => c.(topDirty := false)
    case FlushTags => c.(tagPending := false, deferred := Paid(c.deferred))
    case ReadStatus => c.(topDirty := false)
    case Examine => if c.gprsValid then c.(topDirty := false, tagPending := false) else c
    case _ => c
  }

  /** The code for the operation is wrong on some machine with these flags; by
      the lemmas of Guards it is right on all of them otherwise. */
  predicate Misses(c: Cache, defer: bool, op: Op)
    requires Permutation(c.perm)
  {
    match op
    case Push => c.run == 0 && !Turns(c.perm, 1)
    case Pop => if c.run == 0 then !Turns(c.perm, 1) else !c.tagPending && c.deferred >= 127
    case PopN(n) => c.run == 0 && !Turns(c.perm, n)
    case Fxch(d) => d != 0 && !(c.run > 0 && defer) && !Pairs(c.perm, d)
    case Free(d) => c.perm[d] != d
    case Examine => c.deferred >= 8
    case _ => false
  }

  function FlaggedAll(c: Cache, defer: bool, ops: seq<Op>): (c': Cache)
    requires Permutation(c.perm)
    ensures c'.run == c.run && c'.gprsValid == c.gprsValid && Permutation(c'.perm)
    decreases |ops|
  {
    if ops == [] then c else Flagged(FlaggedAll(c, defer, ops[..|ops| - 1]), defer, ops[|ops| - 1])
  }

  predicate MissesAny(c: Cache, defer: bool, ops: seq<Op>)
    requires Permutation(c.perm)
    decreases |ops|
  {
    ops != [] &&
    var init := ops[..|ops| - 1];
    MissesAny(c, defer, init) || Misses(FlaggedAll(c, defer, init), defer, ops[|ops| - 1])
  }

  lemma FlaggedStep(c: Cache, defer: bool, ops: seq<Op>, op: Op)
    requires Permutation(c.perm)
    ensures FlaggedAll(c, defer, ops + [op]) == Flagged(FlaggedAll(c, defer, ops), defer, op)
    ensures MissesAny(c, defer, ops + [op]) <==>
      MissesAny(c, defer, ops) || Misses(FlaggedAll(c, defer, ops), defer, op)
  {
    assert (ops + [op])[..|ops + [op]| - 1] == ops;
  }

  /** x87_end: everything is paid when the run ends with this instruction. */
  function Ended(c: Cache, consumed: nat): (c': Cache) {
    if c.run <= consumed then Ordered(c).(topDirty := false, tagPending := false, deferred := Paid(c.deferred)) else c
  }

  /** The code that pays, one step for each debt. */
  function EndCode(c: Cache, consumed: nat, save: Reg, chain: Reg): (code: seq<Step>)
    requires Permutation(c.perm)
  {
    if c.run > consumed then []
    else
      OrderCode(c, save, chain) + TagsCode(c) + (if c.topDirty then [StoreTop] else [])
  }

  function TagsCode(c: Cache): (code: seq<Step>) {
    (if c.deferred > 0 then [TagEmptyBelow(c.deferred)] else []) + (if c.tagPending then [TagValidTop] else [])
  }

  function OrderCode(c: Cache, save: Reg, chain: Reg): (code: seq<Step>)
    requires Permutation(c.perm)
  {
    if c.permDirty then [Permute(c.perm, save, chain)] else []
  }

  /** The flags cleared with nothing emitted. */
  function Cleared(c: Cache): (c': Cache) {
    c.(run := 0, gprsValid := false, topDirty := false, tagPending := false, deferred := 0)
  }

  /** n ticks. */
  function Ticked(c: Cache, n: nat): (c': Cache) {
    if c.run == 0 then c else if c.run > n then c.(run := c.run - n) else Cleared(c)
  }

  /** fstsw, which calls neither x87_begin nor x87_end. */
  function Asked(c: Cache): (c': Cache) {
    if c.run > 0 && c.gprsValid then c.(topDirty := false, tagPending := false, deferred := Paid(c.deferred)) else c
  }

  /** An fxch taken in by a fusion. */
  function Absorbed(c: Cache, d: Index): (c': Cache)
    requires Permutation(c.perm)
    ensures Permutation(c'.perm)
  {
    var c1 := if d == 0 then c else Exchanged(c, d);
    if c1.run > 0 then c1.(run := c1.run - 1) else c1
  }

  /** A prefix lowered by the IR. */
  function Lowered(c: Cache, count: nat): (c': Cache) {
    Ticked(Ordered(c).(topDirty := false, tagPending := false, deferred := 0, gprsValid := true), count)
  }

  // ---- whole emitters ----

  /** One instruction or fusion in its frame. */
  function Framed(c: Cache, defer: bool, ops: seq<Op>, consumed: nat, ticks: nat): (c': Cache)
    requires Permutation(c.perm)
  {
    Ticked(Ended(FlaggedAll(Begun(c), defer, ops), consumed), ticks)
  }

  /** Its operations are wrong, or its last tick drops a debt. */
  predicate FrameMisses(c: Cache, defer: bool, ops: seq<Op>, consumed: nat, ticks: nat)
    requires Permutation(c.perm)
  {
    || MissesAny(Begun(c), defer, ops)
    || (c.run == ticks > consumed && Owes(FlaggedAll(Begun(c), defer, ops)))
  }

  /** Outside a run a permutation outlives an instruction only if its emitter
      calls no x87_end. */
  lemma FramePays(c: Cache, defer: bool, ops: seq<Op>, consumed: nat)
    requires Permutation(c.perm) && Framed(c, defer, ops, consumed, consumed).run == 0
    ensures var c' := Framed(c, defer, ops, consumed, consumed);
      c'.perm == Identity() && !c'.permDirty && !c'.topDirty && !c'.tagPending && c'.deferred <= 0
  {}

  /** With fxch not deferred no permutation comes about. */
  lemma {:induction false} NeverExchanged(c: Cache, ops: seq<Op>)
    requires Permutation(c.perm) && Orderly(c)
    ensures Orderly(FlaggedAll(c, false, ops))
    decreases |ops|
  {
    if ops != [] {
      NeverExchanged(c, ops[..|ops| - 1]);
      StaysOrderly(FlaggedAll(c, false, ops[..|ops| - 1]), ops[|ops| - 1]);
    }
  }

  predicate Orderly(c: Cache) {
    c.perm == Identity() && !c.permDirty
  }

  lemma StaysOrderly(c: Cache, op: Op)
    requires Permutation(c.perm) && Orderly(c)
    ensures Orderly(Flagged(c, false, op))
  {}
}
