/** How the slot tracker of a reply follows the operations that the emitters are
    asked for, and what its TOP and its formats say then. */
module SlotNotes {
  import opened X87Stack
  import opened DeferredState
  import opened SlotFormat
  import opened Flags

  /** A pending permutation is flushed. */
  function Reordered(t: Tracker, c: Cache): (u: Tracker)
    requires Permutation(c.perm)
  {
    if c.permDirty then t.NotePermFlush(c.perm) else t
  }

  /** Two slots are swapped in memory: as ten-byte images if one of them holds an
      80-bit value, and as binary64 values otherwise. */
  function Swapped(t: Tracker, d: Index): (u: Tracker) {
    if HoldsF80(t.fmt[Slot(t.topRel, 0)]) || HoldsF80(t.fmt[Slot(t.topRel, d)])
    then t.NoteSwap(d) else t.NoteWrite(d).NoteWrite(0)
  }

  /** The tracker after one operation, with the flags its emitter finds. */
  function Noted(t: Tracker, c: Cache, defer: bool, op: Op): (u: Tracker)
    requires Permutation(c.perm)
  {
    match op
    case Push => Unordered(t, c).NotePush()
    case Pop => Unordered(t, c).NotePop(1)
    case PopN(n) => Unordered(t, c).NotePop(n)
    case Fxch(d) => if d == 0 || (c.run > 0 && defer) then t else Swapped(t, d)
    case Store(d, _) => t.NoteWrite(c.perm[d])
    case Rotate(delta) => Reordered(t, c).NoteRotate(delta)
    case Free(d) => t.NoteFree(c.perm[d])
    case _ => t
  }

  /** Only inside a run is a permutation flushed before TOP moves. */
  function Unordered(t: Tracker, c: Cache): (u: Tracker)
    requires Permutation(c.perm)
  {
    if c.run > 0 then Reordered(t, c) else t
  }

  // ---- TOP ----

  /** How far the plain stack moves TOP. */
  function Moves(op: Op): (n: int) {
    match op case Push => -1 case Pop => 1 case PopN(n) => n case Rotate(delta) => delta case _ => 0
  }

  function MovesAll(ops: seq<Op>): (n: int)
    decreases |ops|
  {
    if ops == [] then 0 else MovesAll(ops[..|ops| - 1]) + Moves(ops[|ops| - 1])
  }

  lemma SlotTwice(top: nat, a: int, b: int)
    ensures Slot(Slot(top, a), b) == Slot(top, a + b)
  {}

  lemma {:induction false} EagerTop(ops: seq<Op>, x: X87)
    ensures EagerAll(ops, x).top == Slot(x.top, MovesAll(ops))
    decreases |ops|
  {
    if ops != [] {
      var init, op := ops[..|ops| - 1], ops[|ops| - 1];
      EagerTop(init, x);
      SlotTwice(x.top, MovesAll(init), Moves(op));
    }
  }

  lemma {:induction false} MovesConcat(a: seq<Op>, b: seq<Op>)
    ensures MovesAll(a + b) == MovesAll(a) + MovesAll(b)
    decreases |b|
  {
    if b == [] {
      assert a + b == a;
    } else {
      MovesConcat(a, b[..|b| - 1]);
      assert (a + b)[..|a + b| - 1] == a + b[..|b| - 1];
    }
  }

  /** The tracker's TOP moves as the plain stack's does, whatever the flags. */
  lemma {:induction false} NotedTop(t: Tracker, c: Cache, defer: bool, op: Op)
    requires Permutation(c.perm)
    ensures Noted(t, c, defer, op).topRel == Slot(t.topRel, Moves(op))
  {
    match op
    case Pop => PopsTop(Unordered(t, c), 1);
    case PopN(n) => PopsTop(Unordered(t, c), n);
    case _ =>
  }

  // ---- formats ----

  lemma KilledTwice(f: Fmt)
    ensures Killed(Killed(f)) == Killed(f)
  {}

  lemma {:induction false} PopsTop(t: Tracker, n: nat)
    ensures t.NotePop(n).topRel == Slot(t.topRel, n)
    decreases n
  {
    if n > 0 {
      PopsTop(Tracker(Slot(t.topRel, 1), t.fmt[t.topRel := Killed(t.fmt[t.topRel])]), n - 1);
      SlotTwice(t.topRel, 1, n - 1);
    }
  }

  lemma DepthNext(top: nat, r: nat)
    requires top < 8 && r < 8
    ensures Depth(Slot(top, 1), r) == if r == top then 7 else Depth(top, r) - 1
  {}

  /** n pops kill the formats from TOP upwards, each once. */
  lemma {:induction false} PopsAt(t: Tracker, n: nat, r: nat)
    requires r < 8
    ensures t.NotePop(n).fmt[r] == if Depth(t.topRel, r) < n then Killed(t.fmt[r]) else t.fmt[r]
    decreases n
  {
    if n > 0 {
      PopsAt(Tracker(Slot(t.topRel, 1), t.fmt[t.topRel := Killed(t.fmt[t.topRel])]), n - 1, r);
      DepthNext(t.topRel, r);
      KilledTwice(t.fmt[r]);
    }
  }

  /** The format of the slot at depth d once the pending permutation is flushed:
      if any slot that moves holds 80 bits every slot takes its format along;
      otherwise every slot that moves is written as binary64. */
  lemma ReorderedAt(t: Tracker, c: Cache, d: Index)
    requires Permutation(c.perm) && c.permDirty
    ensures var u := Reordered(t, c);
      u.topRel == t.topRel &&
      u.fmt[Slot(t.topRel, d)] ==
        if (exists k: Index :: c.perm[k] != k && HoldsF80(t.fmt[Slot(t.topRel, k)])) then
          t.fmt[Slot(t.topRel, c.perm[d])]
        else if c.perm[d] == d then t.fmt[Slot(t.topRel, d)] else F64
  {
    DepthSlot(t.topRel, d);
    var r := Slot(t.topRel, d);
    assert Depth(t.topRel, r) == d;
    if t.MovesF80(c.perm) {
      var k :| 0 <= k < 8 && c.perm[k] != k && HoldsF80(t.fmt[Slot(t.topRel, k)]);
      var i: Index := k;
      assert c.perm[i] != i && HoldsF80(t.fmt[Slot(t.topRel, i)]);
    }
  }

  /** What one operation does to the formats of the slots. */
  lemma {:induction false} NotedFormats(t: Tracker, c: Cache, defer: bool, op: Op, r: nat)
    requires Permutation(c.perm) && r < 8
    ensures var was := if c.permDirty && (c.run > 0 || op.Rotate?) then Reordered(t, c).fmt else t.fmt;
      var top := t.topRel;
      Noted(t, c, defer, op).fmt[r] ==
        match op
        case Push => if r == Slot(top, -1) then F64 else was[r]
        case Pop => if r == top then Killed(was[r]) else was[r]
        case PopN(n) => if Depth(top, r) < n then Killed(was[r]) else was[r]
        case Fxch(d) =>
          if d == 0 || (c.run > 0 && defer) || (r != top && r != Slot(top, d)) then t.fmt[r]
          else if HoldsF80(t.fmt[top]) || HoldsF80(t.fmt[Slot(top, d)]) then
            t.fmt[if r == top then Slot(top, d) else top]
          else F64
        case Store(d, _) => if r == Slot(top, c.perm[d]) then F64 else t.fmt[r]
        case Rotate(_) => was[r]
        case Free(d) => if r == Slot(top, c.perm[d]) then Killed(t.fmt[r]) else t.fmt[r]
        case _ => t.fmt[r]
  {
    match op
    case Pop => PopsAt(Unordered(t, c), 1, r);
    case PopN(n) => PopsAt(Unordered(t, c), n, r);
    case _ =>
  }

  // ---- instructions and regions ----

  lemma TopOn(top: nat, t: Tracker, c: Cache, defer: bool, op: Op, moved: int)
    requires Permutation(c.perm) && t.topRel == Slot(top, moved)
    ensures Noted(t, c, defer, op).topRel == Slot(top, moved + Moves(op))
  {
    NotedTop(t, c, defer, op);
    SlotTwice(top, moved, Moves(op));
  }

  /** The tracker's TOP has moved as the plain stack's. */
  function NotedAll(t: Tracker, c: Cache, defer: bool, ops: seq<Op>): (u: Tracker)
    requires Permutation(c.perm)
    ensures u.topRel == Slot(t.topRel, MovesAll(ops))
    decreases |ops|
  {
    if ops == [] then t
    else
      var init := ops[..|ops| - 1];
      TopOn(t.topRel, NotedAll(t, c, defer, init), FlaggedAll(c, defer, init), defer, ops[|ops| - 1], MovesAll(init));
      Noted(NotedAll(t, c, defer, init), FlaggedAll(c, defer, init), defer, ops[|ops| - 1])
  }

  lemma NotedStep(t: Tracker, c: Cache, defer: bool, ops: seq<Op>, op: Op)
    requires Permutation(c.perm)
    ensures NotedAll(t, c, defer, ops + [op]) == Noted(NotedAll(t, c, defer, ops), FlaggedAll(c, defer, ops), defer, op)
  {
    assert (ops + [op])[..|ops + [op]| - 1] == ops;
  }

  /** x87_end flushes the permutation when the run ends. */
  function NotedEnd(t: Tracker, c: Cache, consumed: nat): (u: Tracker)
    requires Permutation(c.perm)
  {
    if c.run <= consumed then Reordered(t, c) else t
  }

  /** One instruction or fusion in its frame. */
  function NotedFrame(t: Tracker, c: Cache, defer: bool, ops: seq<Op>, consumed: nat): (u: Tracker)
    requires Permutation(c.perm)
  {
    NotedEnd(NotedAll(t, Begun(c), defer, ops), FlaggedAll(Begun(c), defer, ops), consumed)
  }

  /** A region moves TOP at once, and then stores at the depths it has changed. */
  function NotedRegion(t: Tracker, c: Cache, delta: int, writes: set<nat>): (u: Tracker)
    requires Permutation(c.perm)
  {
    NotedWrites(NotedMove(Reordered(t, c), delta), writes, 8)
  }

  function NotedMove(t: Tracker, delta: int): (u: Tracker)
    decreases if delta < 0 then 0 - delta else 0
  {
    if delta >= 0 then t.NotePop(delta) else NotedMove(t, delta + 1).NotePush()
  }

  /** The stores below depth n. */
  function NotedWrites(t: Tracker, writes: set<nat>, n: nat): (u: Tracker) {
    if n == 0 then t
    else
      var u := NotedWrites(t, writes, n - 1);
      if n - 1 in writes then u.NoteWrite(n - 1) else u
  }

  lemma {:induction false} WritesTop(t: Tracker, writes: set<nat>, n: nat)
    ensures NotedWrites(t, writes, n).topRel == t.topRel
  {
    if n > 0 {
      WritesTop(t, writes, n - 1);
    }
  }

  lemma {:induction false} MoveTop(t: Tracker, delta: int)
    ensures NotedMove(t, delta).topRel == Slot(t.topRel, delta)
    decreases if delta < 0 then 0 - delta else 0
  {
    if delta >= 0 {
      PopsTop(t, delta);
    } else {
      MoveTop(t, delta + 1);
      SlotTwice(t.topRel, delta + 1, -1);
    }
  }

  lemma RegionTop(t: Tracker, c: Cache, delta: int, writes: set<nat>)
    requires Permutation(c.perm)
    ensures NotedRegion(t, c, delta, writes).topRel == Slot(t.topRel, delta)
  {
    MoveTop(Reordered(t, c), delta);
    WritesTop(NotedMove(Reordered(t, c), delta), writes, 8);
  }

  /** A region leaves binary64 where it has stored or pushed and kills what it
      has popped; the other slots keep what the flushed permutation left. */
  lemma RegionFormats(t: Tracker, c: Cache, delta: int, writes: set<nat>, r: nat)
    requires Permutation(c.perm) && r < 8
    ensures var top := t.topRel;
      NotedRegion(t, c, delta, writes).fmt[r] ==
        if Depth(Slot(top, delta), r) in writes then F64
        else if Depth(top, r) < delta then Killed(Reordered(t, c).fmt[r])
        else if Depth(Slot(top, delta), r) < 0 - delta then F64
        else Reordered(t, c).fmt[r]
  {
    var u := Reordered(t, c);
    MoveTop(u, delta);
    MoveFormats(u, delta, r);
    WritesFormats(NotedMove(u, delta), writes, 8, r);
  }

  lemma {:induction false} MoveFormats(t: Tracker, delta: int, r: nat)
    requires r < 8
    ensures NotedMove(t, delta).fmt[r] ==
      if Depth(t.topRel, r) < delta then Killed(t.fmt[r])
      else if Depth(Slot(t.topRel, delta), r) < 0 - delta then F64
      else t.fmt[r]
    decreases if delta < 0 then 0 - delta else 0
  {
    if delta >= 0 {
      PopsAt(t, delta, r);
    } else {
      MoveFormats(t, delta + 1, r);
      MoveTop(t, delta + 1);
      MoveTop(t, delta);
      DepthBack(t.topRel, delta, r);
    }
  }

  lemma {:induction false} DepthBack(top: nat, delta: int, r: nat)
    requires top < 8 && r < 8
    ensures Depth(Slot(top, delta), r)
            == if r == Slot(top, delta) then 0 else Depth(Slot(top, delta + 1), r) + 1
    ensures Slot(top, delta) == Slot(Slot(top, delta + 1), -1)
  {
    SlotTwice(top, delta, 1);
    NextBack(Slot(top, delta), r);
  }

  lemma NextBack(top: nat, r: nat)
    requires top < 8 && r < 8
    ensures Depth(top, r) == (if r == top then 0 else Depth(Slot(top, 1), r) + 1) && Slot(Slot(top, 1), -1) == top
  {}

  lemma {:induction false} WritesFormats(t: Tracker, writes: set<nat>, n: nat, r: nat)
    requires n <= 8 && r < 8
    ensures NotedWrites(t, writes, n).fmt[r]
            == if Depth(t.topRel, r) < n && Depth(t.topRel, r) in writes then F64 else t.fmt[r]
  {
    if n > 0 {
      WritesFormats(t, writes, n - 1, r);
      WritesTop(t, writes, n - 1);
      DepthSlot(t.topRel, n - 1);
      SlotDepth(t.topRel, r);
    }
  }
}
