/** What each physical slot holds in a reply that keeps its binary64 working
    values inside the native 80-bit slots, and how the tracker follows it
    (X87Cache::slot_fmt and top_rel).  Positions are relative to TOP at the
    start of the reply. */
module SlotFormat {
  import opened X87Stack

  datatype Fmt = Native | F64 | Dead | DeadNative

  predicate HoldsF80(f: Fmt) {
    f.Native? || f.DeadNative?
  }

  /** The format a slot takes when it is popped or freed. */
  function Killed(f: Fmt): (r: Fmt)
    ensures !r.Native? && !r.F64?
    ensures HoldsF80(r) == HoldsF80(f)
  {
    if HoldsF80(f) then DeadNative else Dead
  }

  type Tracker = t: RawTracker | t.topRel < 8 && |t.fmt| == 8 witness Tracker(0, seq(8, _ => Native))

  /** The tracker when a reply begins: TOP where the reply finds it, and stock's
      80-bit value in every slot. */
  const STOCK: Tracker := Tracker(0, [Native, Native, Native, Native, Native, Native, Native, Native])

  datatype RawTracker = Tracker(topRel: nat, fmt: seq<Fmt>)
  {
    predicate Valid() {
      topRel < 8 && |fmt| == 8
    }

    function NotePush(): (t: Tracker)
      requires Valid()
    {
      Tracker(Slot(topRel, -1), fmt[Slot(topRel, -1) := F64])
    }

    function NotePop(n: nat): (t: Tracker)
      requires Valid()
      decreases n
    {
      if n == 0 then this
      else Tracker(Slot(topRel, 1), fmt[topRel := Killed(fmt[topRel])]).NotePop(n - 1)
    }

    function NoteRotate(delta: int): (t: Tracker)
      requires Valid()
    {
      this.(topRel := Slot(topRel, delta))
    }

    function NoteFree(d: nat): (t: Tracker)
      requires Valid()
    {
      this.(fmt := fmt[Slot(topRel, d) := Killed(fmt[Slot(topRel, d)])])
    }

    function NoteWrite(d: nat): (t: Tracker)
      requires Valid()
    {
      this.(fmt := fmt[Slot(topRel, d) := F64])
    }

    function NoteSwap(d: nat): (t: Tracker)
      requires Valid()
    {
      this.(fmt := Swap(fmt, Slot(topRel, 0), Slot(topRel, d)))
    }

    /** A permutation moves ten-byte images when it moves an 80-bit slot, and
        then the formats travel with the slots; otherwise it rewrites every
        slot it moves as binary64. */
    predicate MovesF80(perm: seq<nat>)
      requires Valid() && |perm| == 8
    {
      exists d :: 0 <= d < 8 && perm[d] != d && HoldsF80(fmt[Slot(topRel, d)])
    }

    function NotePermFlush(perm: seq<nat>): (t: Tracker)
      requires Valid() && |perm| == 8 && forall d :: 0 <= d < 8 ==> perm[d] < 8
    {
      if MovesF80(perm) then
        this.(fmt := seq(8, r requires 0 <= r < 8 => fmt[Slot(topRel, perm[Depth(topRel, r)])]))
      else
        this.(fmt := seq(8, r requires 0 <= r < 8 =>
                              if perm[Depth(topRel, r)] != Depth(topRel, r) then F64 else fmt[r]))
    }
  }
}
