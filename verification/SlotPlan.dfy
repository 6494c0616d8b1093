/** Which slots a reply must convert before its next instructions run
    (plan_slots in Translator.cpp).  The planner simulates the window slot by
    slot; here every value also carries its origin, the slot it sat in when
    the window began, so that what the plan names can be compared with what
    has to be converted. */
module SlotPlan {
  import opened X87Stack
  import opened SlotFormat
  import opened DeferredState

  /** The smallest steps of an instruction's effect on the slots. */
  datatype Micro =
    | Read(d: Index, soft: bool, toF64: bool)
    | Write(d: Index)
    | Exchange(d: Index)
    | Free(d: Index)
    | Flush
    | Turn(delta: int)
    | Drop
    | Push
    | PushNative
    | Save
    | Restore

  /** `from` gives each slot's value its identity: the slots of the window's
      start are 0 to 7, later 80-bit values are numbered from `next`.  `mark`
      is the value pushed natively last. */
  datatype RawSim = Sim(top: nat, perm: seq<nat>, fmt: seq<Fmt>, from: seq<nat>, next: nat, mark: int)

  type Sim = s: RawSim |
      s.top < 8 && Permutation(s.perm) && |s.fmt| == 8 && |s.from| == 8
    witness Sim(0, [0, 1, 2, 3, 4, 5, 6, 7], seq(8, _ => Native), [0, 1, 2, 3, 4, 5, 6, 7], 8, -1)

  function Start(top: nat, perm: seq<nat>, fmt: seq<Fmt>): (s: Sim)
    requires top < 8 && Permutation(perm) && |fmt| == 8
  {
    Sim(top, perm, fmt, Identity(), 8, -1)
  }

  /** Distinct values have distinct identities. */
  ghost predicate Distinct(s: Sim) {
    && (forall i, j :: 0 <= i < j < 8 ==> s.from[i] != s.from[j])
    && (forall i :: 0 <= i < 8 ==> s.from[i] < s.next)
  }

  /** The slots after the permutation is flushed: they move as they are. */
  function Moved<T>(perm: seq<nat>, top: nat, slots: seq<T>): (r: seq<T>)
    requires Permutation(perm) && top < 8 && |slots| == 8
    ensures |r| == 8
  {
    seq(8, r requires 0 <= r < 8 => slots[Slot(top, perm[Depth(top, r)])])
  }

  function At(s: Sim, d: Index): (r: Index) {
    Slot(s.top, s.perm[d])
  }

  /** One step, converting nothing. */
  function Step(m: Micro, s: Sim): (s': Sim)
  {
    match m
    case Read(_, _, _) => s
    case Write(d) => s.(fmt := s.fmt[At(s, d) := F64])
    case Exchange(d) => s.(perm := Swap(s.perm, 0, d))
    case Free(d) => s.(fmt := s.fmt[At(s, d) := Killed(s.fmt[At(s, d)])])
    case Flush => s.(fmt := Moved(s.perm, s.top, s.fmt), from := Moved(s.perm, s.top, s.from), perm := Identity())
    case Turn(delta) => s.(top := Slot(s.top, delta))
    case Drop => s.(fmt := s.fmt[s.top := Killed(s.fmt[s.top])], top := Slot(s.top, 1))
    case Push => s.(fmt := s.fmt[Slot(s.top, -1) := F64], top := Slot(s.top, -1))
    case PushNative =>
      var t := Slot(s.top, -1);
      s.(fmt := s.fmt[t := Native], from := s.from[t := s.next], top := t, next := s.next + 1, mark := s.next)
    case Save => s.(perm := Identity(), fmt := seq(8, _ => Dead), top := 0, mark := -1)
    case Restore =>
      s.(perm := Identity(), fmt := seq(8, _ => Native), from := seq(8, r requires 0 <= r < 8 => s.next + r),
         next := s.next + 8, top := 0, mark := -1)
  }

  function After(ms: seq<Micro>, s: Sim): (s': Sim)
    decreases |ms|
  {
    if ms == [] then s else Step(ms[|ms| - 1], After(ms[..|ms| - 1], s))
  }

  predicate Hard(m: Micro) {
    m.Read? && !m.soft
  }

  /** The planner's step: a hard read of an 80-bit slot plans its conversion
      and goes on as if it were done. */
  function PlanStep(m: Micro, s: Sim): (s': Sim) {
    if Hard(m) && s.fmt[At(s, m.d)].Native? then s.(fmt := s.fmt[At(s, m.d) := F64]) else Step(m, s)
  }

  function PlanAfter(ms: seq<Micro>, s: Sim): (s': Sim)
    decreases |ms|
  {
    if ms == [] then s else PlanStep(ms[|ms| - 1], PlanAfter(ms[..|ms| - 1], s))
  }

  /** The positions the planner names. */
  function Converted(ms: seq<Micro>, s: Sim): (c: set<nat>)
    decreases |ms|
  {
    if ms == [] then {}
    else Converted(ms[..|ms| - 1], s) + Named(ms[|ms| - 1], PlanAfter(ms[..|ms| - 1], s))
  }

  function Named(m: Micro, p: Sim): (c: set<nat>) {
    if Hard(m) && p.fmt[At(p, m.d)].Native? then {At(p, m.d)} else {}
  }

  /** The values that a hard read meets in 80-bit form. */
  function Origins(ms: seq<Micro>, s: Sim): (o: set<nat>)
    decreases |ms|
  {
    if ms == [] then {}
    else Origins(ms[..|ms| - 1], s) + Met(ms[|ms| - 1], After(ms[..|ms| - 1], s))
  }

  function Met(m: Micro, u: Sim): (o: set<nat>) {
    if Hard(m) && u.fmt[At(u, m.d)].Native? then {u.from[At(u, m.d)]} else {}
  }

  /** A read of the given kind meets an 80-bit slot. */
  predicate Meets(soft: bool, ms: seq<Micro>, s: Sim)
    decreases |ms|
  {
    ms != [] &&
    var init, m := ms[..|ms| - 1], ms[|ms| - 1];
    var u := After(init, s);
    Meets(soft, init, s) || (m.Read? && m.soft == soft && u.fmt[At(u, m.d)].Native?)
  }

  /** A soft read meets an 80-bit slot in the planner's own simulation. */
  predicate PlanSoft(ms: seq<Micro>, s: Sim)
    decreases |ms|
  {
    ms != [] &&
    var init, m := ms[..|ms| - 1], ms[|ms| - 1];
    var p := PlanAfter(init, s);
    PlanSoft(init, s) || (m.Read? && m.soft && p.fmt[At(p, m.d)].Native?)
  }

  /** The natively pushed value is read as binary64. */
  predicate PlanPushRead(ms: seq<Micro>, s: Sim)
    decreases |ms|
  {
    ms != [] &&
    var init, m := ms[..|ms| - 1], ms[|ms| - 1];
    var p := PlanAfter(init, s);
    PlanPushRead(init, s) ||
      (m.Read? && (!m.soft || m.toF64) && p.fmt[At(p, m.d)].Native? && p.from[At(p, m.d)] == p.mark)
  }

  /** emit_slot_conversions: the slots of c hold binary64. */
  function Convert(s: Sim, c: set<nat>): (s': Sim) {
    s.(fmt := seq(8, r requires 0 <= r < 8 => if r in c then F64 else s.fmt[r]))
  }

  // ---- the three simulations side by side ----

  ghost predicate SameShape(a: Sim, b: Sim) {
    a.top == b.top && a.perm == b.perm && a.from == b.from && a.next == b.next && a.mark == b.mark
  }

  /** b is a with the 80-bit values of o converted. */
  ghost predicate Less(a: Sim, b: Sim, o: set<nat>) {
    && SameShape(a, b)
    && forall r :: 0 <= r < 8 ==> (b.fmt[r].Native? <==> a.fmt[r].Native? && a.from[r] !in o)
  }

  lemma StepDistinct(m: Micro, s: Sim)
    requires Distinct(s)
    ensures Distinct(Step(m, s))
  {
    if m.Flush? {
      var t := Step(m, s);
      forall i, j | 0 <= i < j < 8 ensures t.from[i] != t.from[j] {
        SlotDepth(s.top, i);
        SlotDepth(s.top, j);
        DepthSlot(s.top, s.perm[Depth(s.top, i)]);
        DepthSlot(s.top, s.perm[Depth(s.top, j)]);
      }
    }
  }

  lemma {:induction false} AfterDistinct(ms: seq<Micro>, s: Sim)
    requires Distinct(s)
    ensures Distinct(After(ms, s))
    decreases |ms|
  {
    if ms != [] {
      AfterDistinct(ms[..|ms| - 1], s);
      StepDistinct(ms[|ms| - 1], After(ms[..|ms| - 1], s));
    }
  }

  /** A step that is no hard read treats both alike.  New values are outside o. */
  lemma StepLess(m: Micro, a: Sim, b: Sim, o: set<nat>)
    requires Less(a, b, o) && forall x :: x in o ==> x < a.next
    ensures Less(Step(m, a), Step(m, b), o)
  {
    if m.Restore? {
      assert forall r :: 0 <= r < 8 ==> Step(m, a).from[r] !in o;
    }
  }

  lemma {:induction false} ConvertedAfter(ms: seq<Micro>, s: Sim, c: set<nat>)
    requires s.from == Identity() && s.next == 8 && forall x :: x in c ==> x < 8
    ensures Less(After(ms, s), After(ms, Convert(s, c)), c) && After(ms, s).next >= 8
    decreases |ms|
  {
    if ms != [] {
      var init := ms[..|ms| - 1];
      ConvertedAfter(init, s, c);
      StepLess(ms[|ms| - 1], After(init, s), After(init, Convert(s, c)), c);
    }
  }

  lemma OriginsBounded(ms: seq<Micro>, s: Sim)
    requires Distinct(s)
    ensures forall x :: x in Origins(ms, s) ==> x < After(ms, s).next
    decreases |ms|
  {
    if ms != [] {
      OriginsBounded(ms[..|ms| - 1], s);
      AfterDistinct(ms[..|ms| - 1], s);
    }
  }

  lemma {:induction false} PlanAfterLess(ms: seq<Micro>, s: Sim)
    requires Distinct(s)
    ensures Less(After(ms, s), PlanAfter(ms, s), Origins(ms, s))
    decreases |ms|
  {
    if ms != [] {
      var init, m := ms[..|ms| - 1], ms[|ms| - 1];
      PlanAfterLess(init, s);
      AfterDistinct(init, s);
      OriginsBounded(init, s);
      var a, b, o := After(init, s), PlanAfter(init, s), Origins(init, s);
      if Hard(m) {
        assert Less(a, PlanStep(m, b), Origins(ms, s));
      } else {
        StepLess(m, a, b, o);
      }
    }
  }

  /** Converting the slots of c serves the window exactly when c holds every
      value that a hard read meets in 80-bit form. */
  lemma {:induction false} ServesIff(ms: seq<Micro>, s: Sim, c: set<nat>)
    requires s.from == Identity() && s.next == 8 && forall x :: x in c ==> x < 8
    ensures Meets(false, ms, Convert(s, c)) <==> !(Origins(ms, s) <= c)
    decreases |ms|
  {
    if ms != [] {
      ServesIff(ms[..|ms| - 1], s, c);
      ConvertedAfter(ms[..|ms| - 1], s, c);
    }
  }

  /** With every such value converted, a soft read meets an 80-bit slot only if
      the planner saw one. */
  lemma {:induction false} SoftSeen(ms: seq<Micro>, s: Sim, c: set<nat>)
    requires s.from == Identity() && s.next == 8 && forall x :: x in c ==> x < 8
    requires Origins(ms, s) <= c && Meets(true, ms, Convert(s, c))
    ensures PlanSoft(ms, s)
    decreases |ms|
  {
    if ms != [] {
      var init := ms[..|ms| - 1];
      if Meets(true, init, Convert(s, c)) {
        SoftSeen(init, s, c);
      } else {
        ConvertedAfter(init, s, c);
        PlanAfterLess(init, s);
      }
    }
  }

  // ---- windows in which no value moves ----

  /** Every flush finds the permutation already the identity, and nothing comes
      from memory or is pushed natively. */
  predicate Still(ms: seq<Micro>, s: Sim)
    decreases |ms|
  {
    ms == [] ||
    var init, m := ms[..|ms| - 1], ms[|ms| - 1];
    Still(init, s) && StillStep(m, After(init, s))
  }

  predicate NoHardRead(ms: seq<Micro>) {
    forall i :: 0 <= i < |ms| ==> !Hard(ms[i])
  }

  predicate StillStep(m: Micro, s: Sim) {
    !m.Restore? && !m.PushNative? && (m.Flush? ==> s.perm == Identity())
  }

  lemma StepInPlace(m: Micro, s: Sim)
    requires StillStep(m, s)
    ensures Step(m, s).from == s.from
    ensures forall r :: 0 <= r < 8 && Step(m, s).fmt[r].Native? ==> s.fmt[r].Native?
  {
    if m.Flush? {
      MovedIdentity(s.top, s.from);
      MovedIdentity(s.top, s.fmt);
    }
  }

  lemma {:induction false} StillFrom(ms: seq<Micro>, s: Sim)
    requires Still(ms, s)
    ensures After(ms, s).from == s.from
    ensures forall r :: 0 <= r < 8 && After(ms, s).fmt[r].Native? ==> s.fmt[r].Native?
    decreases |ms|
  {
    if ms != [] {
      StillFrom(ms[..|ms| - 1], s);
      StepInPlace(ms[|ms| - 1], After(ms[..|ms| - 1], s));
    }
  }

  lemma MovedIdentity<T>(top: nat, slots: seq<T>)
    requires top < 8 && |slots| == 8
    ensures Moved(Identity(), top, slots) == slots
  {
    forall r | 0 <= r < 8 ensures Moved(Identity(), top, slots)[r] == slots[r] {
      SlotDepth(top, r);
    }
  }

  lemma SameAddition(m: Micro, u: Sim, p: Sim, o: set<nat>)
    requires Less(u, p, o) && u.from == Identity()
    ensures o + Named(m, p) == o + Met(m, u)
    ensures forall r :: r in Named(m, p) ==> r < 8 && u.fmt[r].Native?
  {
    if Hard(m) {
      assert u.from[At(u, m.d)] == At(u, m.d);
    }
  }

  /** While nothing moves, positions are identities. */
  lemma {:induction false} StillConverted(ms: seq<Micro>, s: Sim)
    requires Still(ms, s) && s.from == Identity() && Distinct(s)
    ensures Converted(ms, s) == Origins(ms, s)
    ensures forall r :: r in Converted(ms, s) ==> r < 8 && s.fmt[r].Native?
    decreases |ms|
  {
    if ms != [] {
      var init := ms[..|ms| - 1];
      StillConverted(init, s);
      StillFrom(init, s);
      PlanAfterLess(init, s);
      SameAddition(ms[|ms| - 1], After(init, s), PlanAfter(init, s), Origins(init, s));
    }
  }

  lemma {:induction false} QuietTail(a: seq<Micro>, b: seq<Micro>, s: Sim)
    requires NoHardRead(b)
    ensures Converted(a + b, s) == Converted(a, s) && Origins(a + b, s) == Origins(a, s)
    decreases |b|
  {
    if b == [] {
      assert a + b == a;
    } else {
      assert (a + b)[..|a + b| - 1] == a + b[..|b| - 1];
      QuietTail(a, b[..|b| - 1], s);
    }
  }

  /** The plan is sound when nothing moves up to the last hard read: no hard
      read meets an 80-bit slot once the named slots are converted, each of
      them was 80-bit at the start, and a window planned without soft reads
      has none. */
  lemma PlanSound(a: seq<Micro>, b: seq<Micro>, s: Sim)
    requires s.from == Identity() && s.next == 8
    requires Still(a, s) && NoHardRead(b)
    ensures var c := Converted(a + b, s);
      && !Meets(false, a + b, Convert(s, c))
      && (forall r :: r in c ==> r < 8 && s.fmt[r].Native?)
      && (!PlanSoft(a + b, s) ==> !Meets(true, a + b, Convert(s, c)))
  {
    QuietTail(a, b, s);
    assert Distinct(s);
    StillConverted(a, s);
    var c := Converted(a + b, s);
    ServesIff(a + b, s, c);
    if Meets(true, a + b, Convert(s, c)) {
      SoftSeen(a + b, s, c);
    }
  }

  // ---- the planner ----

  datatype Kind = Plain | Swaps(d: Index) | Frees(d: Index) | TopUp | TopDown | Saves | Restores

  /** X87Cache::SlotEffect, and whether the instruction is an fst or fstp to
      m32 or m64. */
  datatype Effect = Effect(loads: set<nat>, softly: set<nat>, toF64: bool, stores: set<nat>, pops: nat, pushes: nat,
                           kind: Kind)

  /** The reads and writes of depths below n, in order. */
  function Accesses(e: Effect, n: nat): (ms: seq<Micro>)
    requires n <= 8
    decreases e, n
  {
    if n == 0 then []
    else Accesses(e, n - 1) + (if n - 1 in e.loads then [Read(n - 1, n - 1 in e.softly, e.toF64)] else [])
                            + (if n - 1 in e.stores then [Write(n - 1)] else [])
  }

  function KindMicros(k: Kind): (ms: seq<Micro>) {
    match k
    case Plain => []
    case Swaps(d) => [Exchange(d)]
    case Frees(d) => [Micro.Free(d)]
    case TopUp => [Flush, Turn(1)]
    case TopDown => [Flush, Turn(-1)]
    case Saves => [Save]
    case Restores => [Restore]
  }

  function Times(m: Micro, n: nat): (ms: seq<Micro>) {
    if n == 0 then [] else Times(m, n - 1) + [m]
  }

  function EffectMicros(e: Effect, native: bool): (ms: seq<Micro>) {
    Accesses(e, 8) + KindMicros(e.kind) + (if e.pushes != 0 || e.pops != 0 then [Flush] else [])
    + Times(Drop, e.pops) + Times(if native then PushNative else Micro.Push, e.pushes)
  }

  function WindowMicros(es: seq<Effect>, native: bool): (ms: seq<Micro>)
    decreases |es|
  {
    if es == [] then []
    else WindowMicros(es[..|es| - 1], native) + EffectMicros(es[|es| - 1], native && |es| == 1)
  }

  predicate SoftHit(m: Micro, p: Sim) {
    m.Read? && m.soft && p.fmt[At(p, m.d)].Native?
  }

  predicate PushHit(m: Micro, p: Sim) {
    m.Read? && (!m.soft || m.toF64) && p.fmt[At(p, m.d)].Native? && p.from[At(p, m.d)] == p.mark
  }

  /** The planner's simulation and what it has found so far. */
  datatype Plan = Plan(sim: Sim, convert: set<nat>, soft: bool, pushRead: bool)

  function PlanOne(m: Micro, p: Plan): (p': Plan) {
    Plan(PlanStep(m, p.sim), p.convert + Named(m, p.sim), p.soft || SoftHit(m, p.sim), p.pushRead || PushHit(m, p.sim))
  }

  function PlanAll(ms: seq<Micro>, p: Plan): (p': Plan)
    decreases |ms|
  {
    if ms == [] then p else PlanOne(ms[|ms| - 1], PlanAll(ms[..|ms| - 1], p))
  }

  lemma PlanAllStep(ms: seq<Micro>, m: Micro, p: Plan)
    ensures PlanAll(ms + [m], p) == PlanOne(m, PlanAll(ms, p))
  {
    assert (ms + [m])[..|ms + [m]| - 1] == ms;
  }

  lemma {:induction false} PlanAllConcat(a: seq<Micro>, b: seq<Micro>, p: Plan)
    ensures PlanAll(a + b, p) == PlanAll(b, PlanAll(a, p))
    decreases |b|
  {
    if b == [] {
      assert a + b == a;
    } else {
      var b' := b[..|b| - 1];
      PlanAllConcat(a, b', p);
      assert (a + b)[..|a + b| - 1] == a + b';
    }
  }

  function Fresh(s: Sim): (p: Plan) {
    Plan(s, {}, false, false)
  }

  /** The whole simulation at once is its four readings. */
  lemma {:induction false} PlanAllIs(ms: seq<Micro>, s: Sim)
    ensures PlanAll(ms, Fresh(s)) == Plan(PlanAfter(ms, s), Converted(ms, s), PlanSoft(ms, s), PlanPushRead(ms, s))
    decreases |ms|
  {
    if ms != [] {
      PlanAllIs(ms[..|ms| - 1], s);
    }
  }

  /** The slot the natively pushed value is in, or -1. */
  ghost predicate Tracks(pushed: int, p: Sim) {
    && -1 <= pushed < 8 && p.mark >= -1
    && (pushed >= 0 ==> p.from[pushed] == p.mark)
    && (forall r :: 0 <= r < 8 && p.fmt[r].Native? && p.from[r] == p.mark ==> r == pushed)
  }

  class Planner {
    var top: nat
    var perm: seq<nat>
    var fmt: seq<Fmt>
    var pushed: int
    var convert: set<nat>
    var soft: bool
    var pushReadHard: bool

    /** The same simulation with the values' identities. */
    ghost var plan: Plan

    ghost predicate Valid()
      reads this
    {
      && top == plan.sim.top && perm == plan.sim.perm && fmt == plan.sim.fmt
      && convert == plan.convert && soft == plan.soft && pushReadHard == plan.pushRead
      && Distinct(plan.sim) && Tracks(pushed, plan.sim)
    }

    constructor (top: nat, perm: seq<nat>, fmt: seq<Fmt>)
      requires top < 8 && Permutation(perm) && |fmt| == 8
      ensures Valid() && plan == Fresh(Start(top, perm, fmt))
    {
      this.top, this.perm, this.fmt := top, perm, fmt;
      pushed, convert, soft, pushReadHard := -1, {}, false, false;
      plan := Fresh(Start(top, perm, fmt));
    }

    method ReadSlot(d: Index, isSoft: bool, toF64: bool)
      requires Valid()
      modifies this
      ensures Valid() && plan == PlanOne(Read(d, isSoft, toF64), old(plan))
    {
      var r := Slot(top, perm[d]);
      plan := PlanOne(Read(d, isSoft, toF64), plan);
      if !fmt[r].Native? {
        return;
      }
      if r == pushed && (!isSoft || toF64) {
        pushReadHard := true;
      }
      if isSoft {
        soft := true;
        return;
      }
      convert := convert + {r};
      fmt := fmt[r := F64];
    }

    method WriteSlot(d: Index)
      requires Valid()
      modifies this`fmt, this`plan
      ensures Valid() && plan == PlanOne(Write(d), old(plan))
    {
      plan := PlanOne(Write(d), plan);
      fmt := fmt[Slot(top, perm[d]) := F64];
    }

    method FlushPerm()
      requires Valid()
      modifies this`fmt, this`perm, this`pushed, this`plan
      ensures Valid() && plan == PlanOne(Flush, old(plan))
    {
      StepDistinct(Flush, plan.sim);
      if pushed >= 0 {
        pushed := Follow(top, perm, pushed);
      }
      MovedTracks(plan.sim, old(pushed), pushed);
      plan := PlanOne(Flush, plan);
      fmt := Moved(perm, top, fmt);
      perm := Identity();
    }

    method SwapDepths(d: Index)
      requires Valid()
      modifies this`perm, this`plan
      ensures Valid() && plan == PlanOne(Exchange(d), old(plan))
    {
      plan := PlanOne(Exchange(d), plan);
      perm := Swap(perm, 0, d);
    }

    method FreeSlot(d: Index)
      requires Valid()
      modifies this`fmt, this`plan
      ensures Valid() && plan == PlanOne(Micro.Free(d), old(plan))
    {
      plan := PlanOne(Micro.Free(d), plan);
      var r := Slot(top, perm[d]);
      fmt := fmt[r := Killed(fmt[r])];
    }

    method TurnTop(delta: int)
      requires Valid()
      modifies this`top, this`plan
      ensures Valid() && plan == PlanOne(Turn(delta), old(plan))
    {
      plan := PlanOne(Turn(delta), plan);
      top := Slot(top, delta);
    }

    /** fsave leaves an empty stack. */
    method SaveAll()
      requires Valid()
      modifies this
      ensures Valid() && plan == PlanOne(Save, old(plan))
    {
      StepDistinct(Save, plan.sim);
      plan := PlanOne(Save, plan);
      perm, fmt, top, pushed := Identity(), seq(8, _ => Dead), 0, -1;
    }

    /** frstor fills every slot from memory. */
    method RestoreAll()
      requires Valid()
      modifies this
      ensures Valid() && plan == PlanOne(Restore, old(plan))
    {
      StepDistinct(Restore, plan.sim);
      plan := PlanOne(Restore, plan);
      perm, fmt, top, pushed := Identity(), seq(8, _ => Native), 0, -1;
    }

    method PopSlots(n: nat)
      requires Valid()
      modifies this`fmt, this`top, this`pushed, this`plan
      ensures Valid() && plan == PlanAll(Times(Drop, n), old(plan))
    {
      for i := 0 to n
        invariant Valid() && plan == PlanAll(Times(Drop, i), old(plan))
      {
        PlanAllStep(Times(Drop, i), Drop, old(plan));
        PopSlot();
      }
    }

    method PopSlot()
      requires Valid()
      modifies this`fmt, this`top, this`pushed, this`plan
      ensures Valid() && plan == PlanOne(Drop, old(plan))
    {
      plan := PlanOne(Drop, plan);
      fmt := fmt[top := Killed(fmt[top])];
      if top == pushed {
        pushed := -1;
      }
      top := Slot(top, 1);
    }

    method PushSlots(n: nat, native: bool)
      requires Valid()
      modifies this`fmt, this`top, this`pushed, this`plan
      ensures Valid() && plan == PlanAll(Times(if native then PushNative else Micro.Push, n), old(plan))
    {
      for i := 0 to n
        invariant Valid() && plan == PlanAll(Times(if native then PushNative else Micro.Push, i), old(plan))
      {
        PlanAllStep(Times(if native then PushNative else Micro.Push, i), if native then PushNative else Micro.Push,
                    old(plan));
        PushSlot(native);
      }
    }

    method PushSlot(native: bool)
      requires Valid()
      modifies this`fmt, this`top, this`pushed, this`plan
      ensures Valid() && plan == PlanOne(if native then PushNative else Micro.Push, old(plan))
    {
      plan := PlanOne(if native then PushNative else Micro.Push, plan);
      top := Slot(top, -1);
      fmt := fmt[top := F64];
      if native {
        fmt := fmt[top := Native];
        pushed := top;
      }
    }

    method PlanKind(k: Kind)
      requires Valid()
      modifies this
      ensures Valid() && plan == PlanAll(KindMicros(k), old(plan))
    {
      PlanKindMicros(k, plan);
      match k
      case Plain =>
      case Swaps(d) => SwapDepths(d);
      case Frees(d) => FreeSlot(d);
      case TopUp => FlushPerm(); TurnTop(1);
      case TopDown => FlushPerm(); TurnTop(-1);
      case Saves => SaveAll();
      case Restores => RestoreAll();
    }

    method PlanAccesses(e: Effect)
      requires Valid()
      modifies this
      ensures Valid() && plan == PlanAll(Accesses(e, 8), old(plan))
    {
      for d := 0 to 8
        invariant Valid() && plan == PlanAll(Accesses(e, d), old(plan))
      {
        PlanAccess(e, d, old(plan));
        if d in e.loads {
          ReadSlot(d, d in e.softly, e.toF64);
        }
        if d in e.stores {
          WriteSlot(d);
        }
      }
    }

    method PlanEffect(e: Effect, native: bool)
      requires Valid()
      modifies this
      ensures Valid() && plan == PlanAll(EffectMicros(e, native), old(plan))
    {
      PlanWhole(e, native, plan);
      PlanAccesses(e);
      PlanKind(e.kind);
      if e.pushes != 0 || e.pops != 0 {
        FlushPerm();
      }
      PopSlots(e.pops);
      PushSlots(e.pushes, native);
    }
  }

  lemma PlanTwo(a: Micro, b: Micro, p: Plan)
    ensures PlanAll([], p) == p && PlanAll([a], p) == PlanOne(a, p) && PlanAll([a, b], p) == PlanOne(b, PlanOne(a, p))
  {
    assert [a, b][..1] == [a] && [a][..0] == [];
  }

  function KindPlan(k: Kind, p: Plan): (p': Plan) {
    match k
    case Plain => p
    case Swaps(d) => PlanOne(Exchange(d), p)
    case Frees(d) => PlanOne(Micro.Free(d), p)
    case TopUp => PlanOne(Turn(1), PlanOne(Flush, p))
    case TopDown => PlanOne(Turn(-1), PlanOne(Flush, p))
    case Saves => PlanOne(Save, p)
    case Restores => PlanOne(Restore, p)
  }

  lemma PlanKindMicros(k: Kind, p: Plan)
    ensures PlanAll(KindMicros(k), p) == KindPlan(k, p)
  {
    match k
    case Plain =>
    case Swaps(d) => PlanTwo(Exchange(d), Flush, p);
    case Frees(d) => PlanTwo(Micro.Free(d), Flush, p);
    case TopUp => PlanTwo(Flush, Turn(1), p);
    case TopDown => PlanTwo(Flush, Turn(-1), p);
    case Saves => PlanTwo(Save, Flush, p);
    case Restores => PlanTwo(Restore, Flush, p);
  }

  lemma PlanAccess(e: Effect, d: Index, p: Plan)
    ensures var q := PlanAll(Accesses(e, d), p);
      var q' := if d in e.loads then PlanOne(Read(d, d in e.softly, e.toF64), q) else q;
      PlanAll(Accesses(e, d + 1), p) == if d in e.stores then PlanOne(Write(d), q') else q'
  {
    var init := Accesses(e, d);
    var a := if d in e.loads then [Read(d, d in e.softly, e.toF64)] else [];
    var b := if d in e.stores then [Write(d)] else [];
    PlanAllConcat(init, a, p);
    PlanAllConcat(init + a, b, p);
    PlanTwo(Read(d, d in e.softly, e.toF64), Flush, PlanAll(init, p));
    PlanTwo(Write(d), Flush, PlanAll(init + a, p));
  }

  lemma PlanWhole(e: Effect, native: bool, p: Plan)
    ensures var p1 := PlanAll(KindMicros(e.kind), PlanAll(Accesses(e, 8), p));
      var p2 := if e.pushes != 0 || e.pops != 0 then PlanOne(Flush, p1) else p1;
      PlanAll(EffectMicros(e, native), p) ==
        PlanAll(Times(if native then PushNative else Micro.Push, e.pushes), PlanAll(Times(Drop, e.pops), p2))
  {
    var a, b := Accesses(e, 8), KindMicros(e.kind);
    var c := if e.pushes != 0 || e.pops != 0 then [Flush] else [];
    var d, f := Times(Drop, e.pops), Times(if native then PushNative else Micro.Push, e.pushes);
    PlanAllConcat(a, b, p);
    PlanAllConcat(a + b, c, p);
    PlanAllConcat(a + b + c, d, p);
    PlanAllConcat(a + b + c + d, f, p);
    PlanTwo(Flush, Flush, PlanAll(a + b, p));
  }

  /** Where a deferred permutation takes slot r when it is flushed. */
  method Follow(top: nat, perm: seq<nat>, r: nat) returns (r': nat)
    requires top < 8 && Permutation(perm) && r < 8
    ensures r' < 8 && Slot(top, perm[Depth(top, r')]) == r
  {
    var i := 0;
    OntoSlot(top, perm, r);
    while i < 8 && Slot(top, perm[i]) != r
      invariant i <= 8 && forall j :: 0 <= j < i ==> Slot(top, perm[j]) != r
    {
      i := i + 1;
    }
    DepthSlot(top, i);
    r' := Slot(top, i);
  }

  /** A permutation of eight depths reaches every slot. */
  lemma OntoSlot(top: nat, perm: seq<nat>, r: nat)
    requires top < 8 && Permutation(perm) && r < 8
    ensures exists i :: 0 <= i < 8 && Slot(top, perm[i]) == r
  {
    var d := Depth(top, r);
    SlotDepth(top, r);
    var i := OntoDepth(perm, d);
  }

  lemma OntoDepth(perm: seq<nat>, d: nat) returns (i: nat)
    requires Permutation(perm) && d < 8
    ensures i < 8 && perm[i] == d
  {
    if forall j :: 0 <= j < 8 ==> perm[j] != d {
      Pigeons(perm, 8);
      ImageMisses(perm, 8, d);
      Numbers(8);
      Smaller(Image(perm, 8), Below(8) - {d});
      assert false;
    }
    i :| 0 <= i < 8 && perm[i] == d;
  }

  function Image(perm: seq<nat>, n: nat): (s: set<nat>)
    requires n <= |perm|
    ensures forall x :: x in s ==> exists i :: 0 <= i < n && perm[i] == x
  {
    if n == 0 then {} else Image(perm, n - 1) + {perm[n - 1]}
  }

  lemma {:induction false} ImageMisses(perm: seq<nat>, n: nat, d: nat)
    requires n <= |perm| && forall j :: 0 <= j < |perm| ==> perm[j] < 8 && perm[j] != d
    ensures Image(perm, n) <= Below(8) - {d}
  {
    if n > 0 {
      ImageMisses(perm, n - 1, d);
    }
  }

  function Below(n: nat): (s: set<nat>)
    ensures forall x: nat :: x in s <==> x < n
  {
    if n == 0 then {} else Below(n - 1) + {n - 1}
  }

  lemma {:induction false} Pigeons(perm: seq<nat>, n: nat)
    requires n <= |perm| && forall i, j :: 0 <= i < j < |perm| ==> perm[i] != perm[j]
    ensures |Image(perm, n)| == n
  {
    if n > 0 {
      Pigeons(perm, n - 1);
    }
  }

  lemma {:induction false} Numbers(n: nat)
    ensures |Below(n)| == n
  {
    if n > 0 {
      Numbers(n - 1);
    }
  }

  lemma {:induction false} Smaller(a: set<nat>, b: set<nat>)
    requires a <= b
    ensures |a| <= |b|
    decreases a
  {
    if a != {} {
      var x :| x in a;
      Smaller(a - {x}, b - {x});
    }
  }

  lemma MovedTracks(p: Sim, pushed: int, pushed': int)
    requires Distinct(p) && Tracks(pushed, p)
    requires if pushed < 0 then pushed' == pushed
      else 0 <= pushed' < 8 && Slot(p.top, p.perm[Depth(p.top, pushed')]) == pushed
    ensures Tracks(pushed', Step(Flush, p))
  {
    var q := Step(Flush, p);
    forall r | 0 <= r < 8 && q.fmt[r].Native? && q.from[r] == q.mark ensures r == pushed' {
      var o := Slot(p.top, p.perm[Depth(p.top, r)]);
      assert p.fmt[o].Native? && p.from[o] == p.mark && o == pushed;
      SlotDepth(p.top, r);
      SlotDepth(p.top, pushed');
      DepthSlot(p.top, p.perm[Depth(p.top, r)]);
      DepthSlot(p.top, p.perm[Depth(p.top, pushed')]);
    }
  }

  /** plan_slots over the effects of a window. */
  method PlanSlots(top: nat, perm: seq<nat>, fmt: seq<Fmt>, effects: seq<Effect>, toRunEnd: bool, firstPushNative: bool)
    returns (convert: set<nat>, soft: bool, pushReadHard: bool)
    requires top < 8 && Permutation(perm) && |fmt| == 8
    ensures var s := Start(top, perm, fmt);
      var ms := WindowMicros(effects, firstPushNative) + if toRunEnd then [Flush] else [];
      && convert == Converted(ms, s) && soft == PlanSoft(ms, s) && pushReadHard == PlanPushRead(ms, s)
  {
    var planner := new Planner(top, perm, fmt);
    ghost var p := Fresh(Start(top, perm, fmt));
    for k := 0 to |effects|
      invariant fresh(planner) && planner.Valid()
      invariant planner.plan == PlanAll(WindowMicros(effects[..k], firstPushNative), p)
    {
      WindowStep(effects, k, firstPushNative, p);
      planner.PlanEffect(effects[k], k == 0 && firstPushNative);
    }
    assert effects[..|effects|] == effects;
    ghost var ms := WindowMicros(effects, firstPushNative);
    PlanAllConcat(ms, if toRunEnd then [Flush] else [], p);
    PlanTwo(Flush, Flush, PlanAll(ms, p));
    if toRunEnd {
      planner.FlushPerm();
    }
    PlanAllIs(ms + if toRunEnd then [Flush] else [], Start(top, perm, fmt));
    return planner.convert, planner.soft, planner.pushReadHard;
  }

  // ---- a flushed permutation ----

  /** fincstp, and an instruction that reads ST(0) as binary64. */
  const FINCSTP := Effect({}, {}, false, {}, 0, 0, TopUp)

  const READS_TOP := Effect({0}, {}, false, {}, 0, 0, Plain)

  lemma {:induction false} NoAccesses(n: nat)
    requires n <= 8
    ensures Accesses(FINCSTP, n) == []
    ensures Accesses(READS_TOP, n) == if n == 0 then [] else [Read(0, false, false)]
  {
    if n > 0 {
      NoAccesses(n - 1);
    }
  }

  lemma ExchangeWindow()
    ensures WindowMicros([FINCSTP, READS_TOP], false) == [Flush] + [Turn(1)] + [Read(0, false, false)]
  {
    NoAccesses(8);
    assert [FINCSTP, READS_TOP][..1] == [FINCSTP] && [FINCSTP][..0] == [];
    assert EffectMicros(FINCSTP, false) == [Flush, Turn(1)];
    assert EffectMicros(READS_TOP, false) == [Read(0, false, false)];
    assert WindowMicros([FINCSTP], false) == [] + [Flush, Turn(1)];
  }

  /** The compact registers behind fxch st(1), as fincstp finds and leaves them. */
  function Exchanged(): (s: Sim) {
    Start(0, Swap(Identity(), 0, 1), seq(8, _ => Native))
  }

  lemma FlushMovesValue() returns (u: Sim)
    ensures u == Step(Turn(1), Step(Flush, Exchanged()))
    ensures At(u, 0) == 1 && u.from[1] == 0 && u.fmt[1] == Native
  {
    var s := Exchanged();
    assert Depth(0, 1) == 1 && Slot(0, s.perm[1]) == 0;
    u := Step(Turn(1), Step(Flush, s));
  }

  lemma OneMore(ms: seq<Micro>, m: Micro, s: Sim)
    ensures After(ms + [m], s) == Step(m, After(ms, s)) && PlanAfter(ms + [m], s) == PlanStep(m, PlanAfter(ms, s))
    ensures Converted(ms + [m], s) == Converted(ms, s) + Named(m, PlanAfter(ms, s))
    ensures Origins(ms + [m], s) == Origins(ms, s) + Met(m, After(ms, s))
  {
    assert (ms + [m])[..|ms|] == ms;
  }

  lemma FlushPlansNothing(s: Sim)
    ensures var ms := [Flush] + [Turn(1)];
      && After(ms, s) == PlanAfter(ms, s) == Step(Turn(1), Step(Flush, s))
      && Converted(ms, s) == {} && Origins(ms, s) == {}
  {
    assert [Flush][..0] == [];
    OneMore([Flush], Turn(1), s);
  }

  /** It is not sound for a flushed permutation: with fxch st(1) deferred, the
      window fincstp and a read of ST(0).  The plan names the slot the value moved
      to; the value, still in the other slot when the conversions are made, is
      never converted. */
  lemma FlushedExchange()
    ensures var s, ms := Exchanged(), WindowMicros([FINCSTP, READS_TOP], false);
      && Converted(ms, s) == {1} && Origins(ms, s) == {0}
      && Meets(false, ms, Convert(s, Converted(ms, s)))
  {
    var s := Exchanged();
    var u := FlushMovesValue();
    assert Named(Read(0, false, false), u) == {1} && Met(Read(0, false, false), u) == {0};
    FlushPlansNothing(s);
    OneMore([Flush] + [Turn(1)], Read(0, false, false), s);
    ExchangeWindow();
    ServesIff(WindowMicros([FINCSTP, READS_TOP], false), s, {1});
  }

  lemma WindowStep(es: seq<Effect>, k: nat, native: bool, p: Plan)
    requires k < |es|
    ensures PlanAll(WindowMicros(es[..k + 1], native), p) ==
      PlanAll(EffectMicros(es[k], k == 0 && native), PlanAll(WindowMicros(es[..k], native), p))
  {
    assert es[..k + 1][..k] == es[..k];
    PlanAllConcat(WindowMicros(es[..k], native), EffectMicros(es[k], k == 0 && native), p);
  }
}
