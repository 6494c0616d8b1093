/** The places where the deferred form and the plain stack part company, each
    on one concrete state or run of the emitter.  The exact conditions are the
    equivalences of DeferredState and Guards. */
module Departures {
  import opened X87Stack
  import opened DeferredState
  import opened Guards
  import opened Flags
  import opened DeferredStack

  /** Eight registers in use, each holding its own number. */
  const FULL: Machine := Machine(0, seq(8, _ => Tag.Valid), Identity(), 0, seq(32, _ => 0), [])

  const IDLE := Cache(false, false, 0, Identity(), false, 9, true)

  /** A push on a full stack and the pop that undoes it: the register pushed
      over keeps its tag, where a pop would have emptied it. */
  lemma CancelledOverflow()
    ensures var c, m := IDLE.(topDirty := true, tagPending := true), Exec(AddTop(-1), FULL);
      && Coherent(c, m) && View(c, m) == Eager(Push, Memory(FULL))
      && View(IDLE, Exec(AddTop(1), m)) != Eager(Pop, View(c, m))
  {
    var c, m := IDLE.(topDirty := true, tagPending := true), Exec(AddTop(-1), FULL);
    CleanView(IDLE, FULL);
    PushView(IDLE, FULL);
    CancelPopView(c, m);
  }

  // ---- the emitter run ----

  /** No tag is written. */
  predicate NoTags(buf: seq<Step>) {
    forall k :: 0 <= k < |buf| ==> buf[k].LoadTop? || buf[k].AddTop? || buf[k].StoreTop?
  }

  lemma {:induction false} TagsStay(buf: seq<Step>, m: Machine)
    requires NoTags(buf)
    ensures Run(buf, m).tags == m.tags
    decreases |buf|
  {
    if buf != [] {
      TagsStay(buf[..|buf| - 1], m);
    }
  }

  lemma {:induction false} PopsEmpty(n: nat, x: X87)
    ensures EagerAll(Pops(n), x).tags == EmptyAbove(x.tags, x.top, n) && EagerAll(Pops(n), x).top == Slot(x.top, n)
  {
    if n > 0 {
      PopsEmpty(n - 1, x);
      OneMoreOp(Pops(n - 1), Op.Pop, x);
      EmptyAboveGrows(x.tags, x.top, n - 1);
      NextSlot(x.top, n - 1);
      var y := EagerAll(Pops(n - 1), x);
      assert Eager(Op.Pop, y).tags == y.tags[y.top := Tag.Empty];
    }
  }

  lemma NextSlot(top: nat, n: nat)
    ensures Slot(Slot(top, n), 1) == Slot(top, n + 1)
  {
    Wrapped(top + n + 1, (top + n) / 8);
  }

  lemma EmptyAboveGrows(tags: seq<Tag>, top: nat, n: nat)
    requires |tags| == 8 && top < 8
    ensures EmptyAbove(tags, top, n + 1) == EmptyAbove(tags, top, n)[Slot(top, n) := Tag.Empty]
  {
    var a, b := EmptyAbove(tags, top, n + 1), EmptyAbove(tags, top, n)[Slot(top, n) := Tag.Empty];
    forall s | 0 <= s < 8 ensures a[s] == b[s] {
      if Depth(top, s) == n {
        SlotDepth(top, s);
      }
    }
  }

  function Pops(n: nat): (ops: seq<Op>) {
    if n == 0 then [] else Pops(n - 1) + [Op.Pop]
  }

  /** A bare pop inside a run. */
  method PopOnce(e: Emitter)
    requires e.Between() && e.held == {} && e.cache.run > 0 && !e.cache.permDirty && !e.cache.tagPending
    requires NoTags(e.buf)
    requires e.cache.run == 1 ==> e.cache.deferred == 127
    modifies e
    ensures e.Between() && e.held == {} && e.ops == old(e.ops) + [Op.Pop] && NoTags(e.buf)
    ensures e.cache == Ticked(Ended(Flagged(Begun(old(e.cache)), e.deferFxch, Op.Pop), 1), 1)
  {
    e.Begin();
    e.Pop();
    e.EndAndTick(1, 1);
  }

  /** A run of 128 pops.  The last wraps the int8_t count, so the end of the run
      writes no tag at all: all eight registers still look to be in use. */
  method CountWraps() returns (e: Emitter)
    ensures fresh(e) && e.ops == Pops(128) && e.cache.run == 0 && !Owes(e.cache)
    ensures Memory(Run(e.buf, FULL)).tags == seq(8, _ => Tag.Valid)
    ensures EagerAll(e.ops, Memory(FULL)).tags == seq(8, _ => Tag.Empty)
  {
    e := new Emitter(true);
    e.SetRun(128);
    for k := 0 to 128
      invariant fresh(e) && e.Between() && e.held == {} && e.ops == Pops(k) && NoTags(e.buf)
      invariant e.cache.run == 128 - k && !e.cache.permDirty && !e.cache.tagPending
      invariant if k < 128 then e.cache.deferred == k else !Owes(e.cache)
    {
      PopOnce(e);
    }
    TagsStay(e.buf, FULL);
    PopsEmpty(128, Memory(FULL));
  }

  predicate NoTopStored(buf: seq<Step>) {
    forall k :: 0 <= k < |buf| ==> !buf[k].StoreTop? && !buf[k].Region?
  }

  lemma {:induction false} TopStays(buf: seq<Step>, m: Machine)
    requires NoTopStored(buf)
    ensures Run(buf, m).memTop == m.memTop
    decreases |buf|
  {
    if buf != [] {
      TopStays(buf[..|buf| - 1], m);
    }
  }

  /** The emitter of faddp st(1), inside a run. */
  method Faddp(e: Emitter, f: (Value, Value, Value) -> Value)
    requires e.Loaded() && e.held == {} && e.save == 0 && e.chain == 1
    requires e.cache.run > 0 && !e.cache.tagPending && NoTopStored(e.buf)
    modifies e
    ensures e.Loaded() && NoTopStored(e.buf) && e.cache == Flagged(old(e.cache), e.deferFxch, Op.Pop)
    ensures e.ops == old(e.ops) + [Load(0, 2)] + [Load(1, 3)] + [Alu(3, 3, 2, 2, f)] + [Store(1, 3)] + [Op.Pop]
  {
    e.Load(0, 2);
    e.Load(1, 3);
    e.Compute(Alu(3, 3, 2, 2, f));
    e.Store(1, 3);
    e.Pop();
  }

  /** fxch st(1) and faddp st(1) fused, the first two of three instructions.  The
      fusion counts the fxch off itself and is counted as two by the dispatcher,
      so the run is over before the pop is paid: TOP in memory stays behind. */
  method MiscountedFusion(f: (Value, Value, Value) -> Value) returns (e: Emitter)
    ensures fresh(e) && e.cache.run == 0 && !Owes(e.cache)
    ensures e.ops == [Fxch(1)] + [Load(0, 2)] + [Load(1, 3)] + [Alu(3, 3, 2, 2, f)] + [Store(1, 3)] + [Op.Pop]
    ensures Memory(Run(e.buf, FULL)).top == 0 && EagerAll(e.ops, Memory(FULL)).top == 1
  {
    e := Absorbed1();
    Faddp(e, f);
    e.EndAndTick(1, 2);
    TopStays(e.buf, FULL);
    SixOps(e.ops, FULL);
  }

  method Absorbed1() returns (e: Emitter)
    ensures fresh(e) && e.Loaded() && e.held == {} && e.save == 0 && e.chain == 1 && e.buf == [LoadTop]
    ensures e.ops == [Fxch(1)] && e.cache.run == 2 && !e.cache.tagPending && e.cache.deferred == 0
  {
    e := new Emitter(true);
    e.Prepare(0, 1);
    e.SetRun(3);
    e.Absorb(1);
    e.Begin();
  }

  lemma SixOps(ops: seq<Op>, m: Machine)
    requires |ops| == 6 && ops[5] == Op.Pop
    requires forall k :: 0 <= k < 5 ==> ops[k].Fxch? || ops[k].Load? || ops[k].Alu? || ops[k].Store?
    ensures EagerAll(ops, Memory(m)).top == Slot(m.memTop, 1)
  {
    SameTopFor(ops[..5], Memory(m));
  }

  lemma {:induction false} SameTopFor(ops: seq<Op>, x: X87)
    requires forall k :: 0 <= k < |ops| ==> ops[k].Fxch? || ops[k].Load? || ops[k].Alu? || ops[k].Store?
    ensures EagerAll(ops, x).top == x.top
    decreases |ops|
  {
    if ops != [] {
      SameTopFor(ops[..|ops| - 1], x);
    }
  }

  /** A fusion that takes in an fxch with one instruction of the run left ends the
      run without clearing the flags.  The next run believes TOP still in its
      register, after stock's code has had the registers. */
  method StaleRegister() returns (e: Emitter)
    ensures fresh(e) && e.cache.run == 2 && e.cache.gprsValid && !Track(e.buf).loaded
  {
    e := OneLeft();
    e.Absorb(1);
    PopOutside(e);
    Reopen(e);
  }

  method PopOutside(e: Emitter)
    requires e.Between() && e.held == {} && e.cache.run == 0
    modifies e
    ensures e.Between() && e.held == {} && e.cache.run == 0 && e.cache.gprsValid == old(e.cache.gprsValid)
  {
    e.Begin();
    e.Pop();
    e.EndAndTick(1, 2);
  }

  /** The reply ends, and another run begins. */
  method Reopen(e: Emitter)
    requires e.Between() && e.held == {} && e.cache.run == 0 && e.cache.gprsValid
    modifies e
    ensures e.cache.run == 2 && e.cache.gprsValid && !Track(e.buf).loaded
  {
    TrackAppend(e.buf, Leave);
    e.Leave();
    e.SetRun(2);
    e.Begin();
  }

  /** A run of two after its first instruction. */
  method OneLeft() returns (e: Emitter)
    ensures fresh(e) && e.Between() && e.held == {} && e.save == 0 && e.chain == 1
    ensures e.cache == Cache(false, false, 0, Identity(), false, 1, true)
  {
    e := new Emitter(true);
    e.Prepare(0, 1);
    e.SetRun(2);
    e.Begin();
    e.EndAndTick(1, 1);
  }

  // ---- single states ----

  /** fxch st(1) then ffree st(1) empties the tag of st(0). */
  lemma FreeThroughExchange()
    ensures var c := IDLE.(perm := Swap(Identity(), 0, 1), permDirty := true);
      && Coherent(c, FULL)
      && View(c, Exec(TagEmptyAt(c.perm[1]), FULL)) != Eager(Free(1), View(c, FULL))
  {
    FreeView(IDLE.(perm := Swap(Identity(), 0, 1), permDirty := true), FULL, 1);
  }

  /** After eight deferred pops fxam still sees the tag the first one freed. */
  lemma ExamineBehindPops()
    ensures var c := IDLE.(topDirty := true, deferred := 8);
      Coherent(c, FULL) && View(c, Exec(StoreTag, FULL)) != Eager(Examine, View(c, FULL))
  {
    ExamineView(IDLE.(topDirty := true, deferred := 8), FULL);
  }

  /** fxch st(1) then fstsw at the end of a run: memory keeps the old order. */
  lemma ExchangeLeftBehind()
    ensures Coherent(LEFT, FULL) && View(LEFT, FULL) == Eager(Fxch(1), Memory(FULL)) && View(LEFT, FULL) != Memory(FULL)
  {
    CleanView(IDLE, FULL);
    FxchView(IDLE, FULL, 1);
    assert View(LEFT, FULL) == View(IDLE.(perm := LEFT.perm, permDirty := true), FULL);
    PermutedAt(LEFT.perm, 0, FULL.st, 0);
    assert View(LEFT, FULL).st[0] == 1;
  }

  /** Seven registers in use; register 7 is free. */
  const SEVEN: Machine := FULL.(tags := FULL.tags[7 := Tag.Empty])

  /** The fxch and fstsw of the run before left ST(0) and ST(1) to be exchanged. */
  const LEFT := IDLE.(perm := Swap(Identity(), 0, 1), permDirty := true, run := 0, gprsValid := false)

  /** What a lone fldz emits then: the push, the store at the depth the
      permutation names, and the permutation at the end, now from the new TOP. */
  const LONE_FLDZ: seq<Step> :=
    [LoadTop] + [Fetch(2, 42)] + [AddTop(-1)] + [StoreTop] + [TagValidTop] + [StoreSt(1, 2)]
    + [Permute(Swap(Identity(), 0, 1), 0, 1)]

  lemma LoneFldzRun()
    ensures var m := Run(LONE_FLDZ, SEVEN);
      m.memTop == 7 && m.tags[0] == Tag.Valid && m.st == [7, 1, 2, 3, 4, 5, 6, 42]
  {
    var b1 := [LoadTop];
    assert b1[..0] == [];
    var b2 := b1 + [Fetch(2, 42)];
    var b3 := b2 + [AddTop(-1)];
    var b4 := b3 + [StoreTop];
    var b5 := b4 + [TagValidTop];
    var b6 := b5 + [StoreSt(1, 2)];
    RunStep(b1, Fetch(2, 42), SEVEN);
    RunStep(b2, AddTop(-1), SEVEN);
    RunStep(b3, StoreTop, SEVEN);
    RunStep(b4, TagValidTop, SEVEN);
    RunStep(b5, StoreSt(1, 2), SEVEN);
    RunStep(b6, Permute(Swap(Identity(), 0, 1), 0, 1), SEVEN);
    LoneFldzState(Run(b1, SEVEN));
  }

  lemma LoneFldzState(m: Machine)
    requires m == SEVEN
    ensures var m5 := Exec(TagValidTop, Exec(StoreTop, Exec(AddTop(-1), Exec(Fetch(2, 42), m))));
      var m7 := Exec(Permute(Swap(Identity(), 0, 1), 0, 1), Exec(StoreSt(1, 2), m5));
      m7.memTop == 7 && m7.tags[0] == Tag.Valid && m7.st == [7, 1, 2, 3, 4, 5, 6, 42]
  {
    var m3 := Exec(AddTop(-1), Exec(Fetch(2, 42), m));
    assert m3.regTop == 7 && m3.st == [0, 1, 2, 3, 4, 5, 6, 7] && m3.fpr[2] == 42 && m3.tags[0] == Tag.Valid;
    var m6 := Exec(StoreSt(1, 2), Exec(TagValidTop, Exec(StoreTop, m3)));
    assert m6.st == [42, 1, 2, 3, 4, 5, 6, 7] && m6.regTop == 7;
    SwapFromSeven(m6.st);
  }

  lemma SwapFromSeven(st: seq<Value>)
    requires st == [42, 1, 2, 3, 4, 5, 6, 7]
    ensures Permuted(Swap(Identity(), 0, 1), 7, st) == [7, 1, 2, 3, 4, 5, 6, 42]
  {
    var p := Swap(Identity(), 0, 1);
    assert p == [1, 0, 2, 3, 4, 5, 6, 7];
    var q := Permuted(p, 7, st);
    forall s: nat | s < 8 ensures q[s] == [7, 1, 2, 3, 4, 5, 6, 42][s] {
      AtSeven(p, st, s);
    }
  }

  lemma AtSeven(p: Perm, st: seq<Value>, s: nat)
    requires p == [1, 0, 2, 3, 4, 5, 6, 7] && st == [42, 1, 2, 3, 4, 5, 6, 7] && s < 8
    ensures Permuted(p, 7, st)[s] == [7, 1, 2, 3, 4, 5, 6, 42][s]
  {
    PermutedAt(p, 7, st, s);
    FromSeven(p, s);
  }

  lemma FromSeven(p: seq<nat>, s: nat)
    requires p == [1, 0, 2, 3, 4, 5, 6, 7] && s < 8
    ensures Slot(7, p[Depth(7, s)]) == if s == 7 then 0 else if s == 0 then 7 else s
  {
    assert Depth(7, s) == if s == 7 then 0 else s + 1;
  }

  /** fxch st(1), fstsw, and in the next reply fldz: the exchange should leave 1
      in ST(1) and 0 in ST(2); instead ST(1) holds what the free register held
      and the 0 is lost. */
  lemma LeftoverThenPush()
    ensures var x, m := Eager(Store(0, 2), Eager(Push, Eager(Const(2, 42), View(LEFT, SEVEN)))), Run(LONE_FLDZ, SEVEN);
      && Memory(m).top == x.top == 7 && x.st[0] == 1 && x.st[1] == 0
      && Memory(m).st[0] == 7 && 0 !in Memory(m).st
  {
    LoneFldzRun();
    var p := Swap(Identity(), 0, 1);
    assert p == [1, 0, 2, 3, 4, 5, 6, 7];
    PermutedAt(p, 0, SEVEN.st, 0);
    PermutedAt(p, 0, SEVEN.st, 1);
  }
}
