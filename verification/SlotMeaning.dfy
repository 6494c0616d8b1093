/** What the planner's simulation means: its TOP, its permutation and the origins
    of its values are those of the plain stack, and its formats those of the
    tracker that the emitters keep. */
module SlotMeaning {
  import opened X87Stack
  import opened SlotFormat
  import opened DeferredState
  import opened SlotPlan

  /** The register at every depth of the plain stack holds the value that the
      simulation has there. */
  ghost predicate Shows(s: Sim, x: X87) {
    x.top == s.top && x.st == Permuted(s.perm, s.top, s.from)
  }

  /** The plain stack after a step; a value pushed natively is a new one. */
  function Plainly(m: Micro, x: X87, next: nat): (y: X87) {
    match m
    case Exchange(d) => Eager(Fxch(d), x)
    case Turn(delta) => x.(top := Slot(x.top, delta))
    case Drop => Eager(Pop, x)
    case Push => Eager(Op.Push, x)
    case PushNative => var y := Eager(Op.Push, x); y.(st := y.st[y.top := next])
    case _ => x
  }

  /** A step of which the plain stack knows, and that changes TOP only when no
      permutation is pending. */
  predicate Orderly(m: Micro, s: Sim) {
    && !m.Save? && !m.Restore?
    && (m.Turn? || m.Drop? || m.Push? || m.PushNative? ==> s.perm == Identity())
  }

  /** A load of ST(d) gets the value of the slot that the simulation reads. */
  lemma ReadsThere(s: Sim, x: X87, d: Index, r: Reg)
    requires Shows(s, x)
    ensures Eager(Load(d, r), x).fpr[r] == s.from[At(s, d)]
  {
    AtDepth(s.perm, s.top, s.from, d);
  }

  lemma StepShows(m: Micro, s: Sim, x: X87)
    requires Shows(s, x) && Orderly(m, s)
    ensures Shows(SlotPlan.Step(m, s), Plainly(m, x, s.next))
  {
    match m
    case Exchange(d) => PermutedSwap(s.perm, s.top, s.from, d);
    case Flush => FlushShows(s, x);
    case _ =>
  }

  lemma FlushShows(s: Sim, x: X87)
    requires Shows(s, x)
    ensures Shows(SlotPlan.Step(Flush, s), x)
  {
    var from := Moved(s.perm, s.top, s.from);
    forall r: nat | r < 8 ensures from[r] == x.st[r] {
      PermutedAt(s.perm, s.top, s.from, r);
    }
  }

  // ---- instructions ----

  /** What the instruction does on the plain stack beside its reads and writes. */
  function KindMeant(k: Kind, x: X87): (y: X87) {
    match k
    case Swaps(d) => Eager(Fxch(d), x)
    case TopUp => Eager(Rotate(1), x)
    case TopDown => Eager(Rotate(-1), x)
    case _ => x
  }

  function KindMove(k: Kind): (n: int) {
    if k.TopUp? then 1 else if k.TopDown? then -1 else 0
  }

  /** TOP moves by the turn, up by the pops and down by the pushes. */
  function TopMove(e: Effect): (n: int) {
    KindMove(e.kind) + e.pops - e.pushes
  }

  predicate Moving(e: Effect) {
    !e.kind.Saves? && !e.kind.Restores?
  }

  // ---- the simulation of an instruction, without its list of steps ----

  function Accessed(e: Effect, n: nat, s: Sim): (t: Sim)
    requires n <= 8
  {
    if n == 0 then s
    else
      var t := Accessed(e, n - 1, s);
      if n - 1 in e.stores then SlotPlan.Step(Write(n - 1), t) else t
  }

  function Kinded(k: Kind, s: Sim): (t: Sim) {
    match k
    case Plain => s
    case Swaps(d) => SlotPlan.Step(Exchange(d), s)
    case Frees(d) => SlotPlan.Step(Micro.Free(d), s)
    case TopUp => SlotPlan.Step(Turn(1), SlotPlan.Step(Flush, s))
    case TopDown => SlotPlan.Step(Turn(-1), SlotPlan.Step(Flush, s))
    case Saves => SlotPlan.Step(Save, s)
    case Restores => SlotPlan.Step(Restore, s)
  }

  function Repeated(m: Micro, n: nat, s: Sim): (t: Sim) {
    if n == 0 then s else SlotPlan.Step(m, Repeated(m, n - 1, s))
  }

  function AfterMoves(e: Effect, native: bool, b: Sim): (t: Sim) {
    var c := if e.pushes != 0 || e.pops != 0 then SlotPlan.Step(Flush, b) else b;
    Repeated(if native then PushNative else Micro.Push, e.pushes, Repeated(Drop, e.pops, c))
  }

  function AfterEffect(e: Effect, native: bool, s: Sim): (t: Sim) {
    AfterMoves(e, native, Kinded(e.kind, Accessed(e, 8, s)))
  }

  lemma {:induction false} AccessedIs(e: Effect, n: nat, s: Sim)
    requires n <= 8
    ensures After(Accesses(e, n), s) == Accessed(e, n, s)
  {
    if n > 0 {
      AccessedIs(e, n - 1, s);
      var init := Accesses(e, n - 1);
      var a := if n - 1 in e.loads then [Read(n - 1, n - 1 in e.softly, e.toF64)] else [];
      var b := if n - 1 in e.stores then [Write(n - 1)] else [];
      AfterConcat(init, a, s);
      AfterConcat(init + a, b, s);
      AfterUpToOne(a, After(init, s));
      AfterUpToOne(b, After(init + a, s));
    }
  }

  lemma {:induction false} RepeatedIs(m: Micro, n: nat, s: Sim)
    ensures After(Times(m, n), s) == Repeated(m, n, s)
  {
    if n > 0 {
      RepeatedIs(m, n - 1, s);
      AfterMore(Times(m, n - 1), m, s);
    }
  }

  lemma KindedIs(k: Kind, s: Sim)
    ensures After(KindMicros(k), s) == Kinded(k, s)
  {
    if k.TopUp? || k.TopDown? {
      var delta := if k.TopUp? then 1 else -1;
      assert [Flush, Turn(delta)] == [Flush] + [Turn(delta)];
      AfterMore([Flush], Turn(delta), s);
      AfterUpToOne([Flush], s);
    } else {
      AfterUpToOne(KindMicros(k), s);
    }
  }

  lemma EffectParts(e: Effect, native: bool, s: Sim)
    ensures After(EffectMicros(e, native), s) == AfterEffect(e, native, s)
  {
    var a, b := Accesses(e, 8), KindMicros(e.kind);
    var c := if e.pushes != 0 || e.pops != 0 then [Flush] else [];
    var push := if native then PushNative else Micro.Push;
    var d, f := Times(Drop, e.pops), Times(push, e.pushes);
    AfterConcat(a, b, s);
    AfterConcat(a + b, c, s);
    AfterConcat(a + b + c, d, s);
    AfterConcat(a + b + c + d, f, s);
    AccessedIs(e, 8, s);
    KindedIs(e.kind, After(a, s));
    AfterUpToOne(c, After(a + b, s));
    RepeatedIs(Drop, e.pops, After(a + b + c, s));
    RepeatedIs(push, e.pushes, After(a + b + c + d, s));
  }

  lemma AfterUpToOne(ms: seq<Micro>, s: Sim)
    requires |ms| <= 1
    ensures After(ms, s) == if ms == [] then s else SlotPlan.Step(ms[0], s)
  {
    if ms != [] {
      assert ms[..0] == [];
    }
  }

  lemma {:induction false} AfterConcat(a: seq<Micro>, b: seq<Micro>, s: Sim)
    ensures After(a + b, s) == After(b, After(a, s))
    decreases |b|
  {
    if b == [] {
      assert a + b == a;
    } else {
      AfterConcat(a, b[..|b| - 1], s);
      assert (a + b)[..|a + b| - 1] == a + b[..|b| - 1];
    }
  }

  /** The plain stack after n pops, and after n pushes. */
  function Popped(n: nat, x: X87): (y: X87) {
    if n == 0 then x else Eager(Pop, Popped(n - 1, x))
  }

  function Pushed(n: nat, native: bool, x: X87, next: nat): (y: X87) {
    if n == 0 then x
    else
      var z := Pushed(n - 1, native, x, next);
      if native then Plainly(PushNative, z, next + n - 1) else Eager(Op.Push, z)
  }

  lemma AfterMore(ms: seq<Micro>, m: Micro, s: Sim)
    ensures After(ms + [m], s) == SlotPlan.Step(m, After(ms, s))
  {
    assert (ms + [m])[..|ms + [m]| - 1] == ms;
  }

  /** Simulation and plain stack show the same. */
  ghost predicate Agreed(s: Sim, x: X87, next: nat) {
    Pictured(s) == Picture(x.top, x.st, next)
  }

  datatype Picture = Picture(top: nat, st: seq<Value>, next: nat)

  function Pictured(s: Sim): (p: Picture) {
    Picture(s.top, Permuted(s.perm, s.top, s.from), s.next)
  }

  ghost predicate Settled(s: Sim, x: X87, next: nat) {
    Agreed(s, x, next) && s.perm == Identity()
  }

  lemma {:induction false} MoveSettled(m: Micro, s: Sim, x: X87, next: nat)
    requires Settled(s, x, next) && (m.Drop? || m.Push? || m.PushNative?)
    ensures Settled(SlotPlan.Step(m, s), Plainly(m, x, next), if m.PushNative? then next + 1 else next)
  {
    StepShows(m, s, x);
  }

  lemma {:induction false} PoppedShows(n: nat, s: Sim, x: X87, next: nat)
    requires Settled(s, x, next)
    ensures Settled(Repeated(Drop, n, s), Popped(n, x), next)
  {
    if n > 0 {
      PoppedShows(n - 1, s, x, next);
      MoveSettled(Drop, Repeated(Drop, n - 1, s), Popped(n - 1, x), next);
    }
  }

  lemma {:induction false} PushedShows(n: nat, native: bool, s: Sim, x: X87, next: nat)
    requires Settled(s, x, next)
    ensures Settled(Repeated(if native then PushNative else Micro.Push, n, s), Pushed(n, native, x, next),
                    if native then next + n else next)
  {
    if n > 0 {
      PushedShows(n - 1, native, s, x, next);
      var m := if native then PushNative else Micro.Push;
      MoveSettled(m, Repeated(m, n - 1, s), Pushed(n - 1, native, x, next), if native then next + n - 1 else next);
    }
  }

  /** The plain stack after the instruction: the exchange or the turn, the pops,
      the pushes. */
  function Meant(e: Effect, native: bool, x: X87, next: nat): (y: X87) {
    Pushed(e.pushes, native, Popped(e.pops, KindMeant(e.kind, x)), next)
  }

  lemma {:induction false} KindShows(k: Kind, s: Sim, x: X87, next: nat)
    requires Agreed(s, x, next) && !k.Saves? && !k.Restores?
    ensures Agreed(Kinded(k, s), KindMeant(k, x), next)
  {
    match k
    case Plain | Frees(_) =>
    case Swaps(d) => StepShows(Exchange(d), s, x);
    case TopUp => TurnShows(1, s, x);
    case TopDown => TurnShows(-1, s, x);
  }

  lemma {:induction false} TurnShows(delta: Turn, s: Sim, x: X87)
    requires Shows(s, x)
    ensures Agreed(SlotPlan.Step(Turn(delta), SlotPlan.Step(Flush, s)), Eager(Rotate(delta), x), s.next)
  {
    FlushShows(s, x);
    StepShows(Turn(delta), SlotPlan.Step(Flush, s), x);
  }

  lemma {:induction false} AccessesStay(e: Effect, n: nat, s: Sim)
    requires n <= 8
    ensures SameShape(Accessed(e, n, s), s)
  {
    if n > 0 {
      AccessesStay(e, n - 1, s);
    }
  }

  /** The simulation of an instruction is the instruction on the plain stack. */
  lemma {:induction false} EffectShows(e: Effect, native: bool, s: Sim, x: X87, next: nat)
    requires Agreed(s, x, next) && Moving(e)
    ensures Agreed(AfterEffect(e, native, s), Meant(e, native, x, next), if native then next + e.pushes else next)
  {
    var a, y := Accessed(e, 8, s), KindMeant(e.kind, x);
    assert Agreed(a, x, next) by { AccessesStay(e, 8, s); }
    var b := Kinded(e.kind, a);
    assert Agreed(b, y, next) by { KindShows(e.kind, a, x, next); }
    MovesShow(e, native, b, y, next);
  }

  /** Its pops and pushes, behind a flush. */
  lemma {:induction false} MovesShow(e: Effect, native: bool, b: Sim, y: X87, next: nat)
    requires Agreed(b, y, next)
    ensures Agreed(AfterMoves(e, native, b), Pushed(e.pushes, native, Popped(e.pops, y), next),
                   if native then next + e.pushes else next)
  {
    if e.pushes != 0 || e.pops != 0 {
      var c := SlotPlan.Step(Flush, b);
      FlushShows(b, y);
      PoppedShows(e.pops, c, y, next);
      PushedShows(e.pushes, native, Repeated(Drop, e.pops, c), Popped(e.pops, y), next);
    }
  }

  lemma {:induction false} PoppedTop(n: nat, x: X87)
    ensures Popped(n, x).top == Slot(x.top, n)
  {
    if n > 0 {
      PoppedTop(n - 1, x);
      SlotTwice(x.top, n - 1, 1);
    }
  }

  lemma {:induction false} PushedTop(n: nat, native: bool, x: X87, next: nat)
    ensures Pushed(n, native, x, next).top == Slot(x.top, 0 - n)
  {
    if n > 0 {
      PushedTop(n - 1, native, x, next);
      SlotTwice(x.top, 1 - n, -1);
    }
  }

  lemma {:induction false} MeantTop(e: Effect, native: bool, x: X87, next: nat)
    ensures Meant(e, native, x, next).top == Slot(x.top, TopMove(e))
  {
    var y := KindMeant(e.kind, x);
    PoppedTop(e.pops, y);
    PushedTop(e.pushes, native, Popped(e.pops, y), next);
    SlotTwice(x.top, KindMove(e.kind), e.pops);
    SlotTwice(x.top, KindMove(e.kind) + e.pops, 0 - e.pushes);
  }

  lemma SlotTwice(top: nat, a: int, b: int)
    ensures Slot(Slot(top, a), b) == Slot(top, a + b)
  {}

  /** What an instruction reads as binary64 are the registers of the plain stack
      at the depths its effect names, before it moves anything. */
  lemma ReadsBefore(e: Effect, d: Index, n: nat, s: Sim, x: X87, r: Reg)
    requires Shows(s, x) && n <= 8
    ensures Eager(Load(d, r), x).fpr[r] == After(Accesses(e, n), s).from[At(After(Accesses(e, n), s), d)]
  {
    AccessedIs(e, n, s);
    AccessesStay(e, n, s);
    ReadsThere(s, x, d, r);
  }

  /** The instruction reads depth d as binary64, softly or not, and finds an
      80-bit value there. */
  predicate ReadsNative(e: Effect, soft: bool, d: Index, s: Sim) {
    d in e.loads && (d in e.softly) == soft && s.fmt[At(s, d)].Native?
  }

  lemma AtDiffers(s: Sim, d: Index, k: Index)
    requires d != k
    ensures At(s, d) != At(s, k)
  {
    DepthSlot(s.top, s.perm[d]);
    DepthSlot(s.top, s.perm[k]);
  }

  /** The stores leave binary64 at their depths, and no other slot changes. */
  lemma {:induction false} AccessFormats(e: Effect, n: nat, s: Sim, d: Index)
    requires n <= 8
    ensures Accessed(e, n, s).fmt[At(s, d)] == if d < n && d in e.stores then F64 else s.fmt[At(s, d)]
  {
    if n > 0 {
      AccessFormats(e, n - 1, s, d);
      AccessesStay(e, n - 1, s);
      if d != n - 1 {
        AtDiffers(s, d, n - 1);
      }
    }
  }

  /** What a list of steps meets, as one value. */
  datatype Meeting = Meeting(soft: bool, hard: bool, origins: set<nat>)

  function Met1(m: Micro, s: Sim, before: Meeting): (after: Meeting) {
    if m.Read? && s.fmt[At(s, m.d)].Native? then
      Meeting(before.soft || m.soft, before.hard || !m.soft,
              before.origins + if m.soft then {} else {s.from[At(s, m.d)]})
    else before
  }

  function Meetings(ms: seq<Micro>, s: Sim): (r: Meeting) {
    Meeting(Meets(true, ms, s), Meets(false, ms, s), Origins(ms, s))
  }

  lemma MeetMore(ms: seq<Micro>, m: Micro, s: Sim)
    ensures Meetings(ms + [m], s) == Met1(m, After(ms, s), Meetings(ms, s))
  {
    assert (ms + [m])[..|ms + [m]| - 1] == ms;
  }

  /** The accesses below depth n, one after the other. */
  function AccessMeetings(e: Effect, n: nat, s: Sim): (r: Meeting)
    requires n <= 8
  {
    if n == 0 then Meeting(false, false, {})
    else
      var r := AccessMeetings(e, n - 1, s);
      if n - 1 in e.loads then Met1(Read(n - 1, n - 1 in e.softly, e.toF64), Accessed(e, n - 1, s), r) else r
  }

  lemma MeetTwo(init: seq<Micro>, load: bool, read: Micro, store: bool, d: Index, s: Sim)
    requires read.Read?
    ensures Meetings(init + (if load then [read] else []) + (if store then [Write(d)] else []), s)
            == if load then Met1(read, After(init, s), Meetings(init, s)) else Meetings(init, s)
  {
    var a := init + if load then [read] else [];
    assert load || a == init;
    assert store || a + [] == a;
    MeetMore(init, read, s);
    MeetMore(a, Write(d), s);
  }

  lemma {:induction false} AccessMeetingsAre(e: Effect, n: nat, s: Sim)
    requires n <= 8
    ensures Meetings(Accesses(e, n), s) == AccessMeetings(e, n, s)
  {
    if n > 0 {
      AccessMeetingsAre(e, n - 1, s);
      AccessedIs(e, n - 1, s);
      MeetTwo(Accesses(e, n - 1), n - 1 in e.loads, Read(n - 1, n - 1 in e.softly, e.toF64), n - 1 in e.stores, n - 1,
              s);
    }
  }

  lemma FindNext(e: Effect, k: Index, s: Sim, r: Meeting)
    ensures (if k in e.loads then Met1(Read(k, k in e.softly, e.toF64), Accessed(e, k, s), r) else r)
            == Meeting(r.soft || ReadsNative(e, true, k, s), r.hard || ReadsNative(e, false, k, s),
                       r.origins + if ReadsNative(e, false, k, s) then {s.from[At(s, k)]} else {})
  {
    AccessesStay(e, k, s);
    AccessFormats(e, k, s, k);
  }

  /** The depths below n at which the instruction meets an 80-bit value. */
  function Found(e: Effect, soft: bool, n: nat, s: Sim): (ds: set<Index>) {
    set d: Index | d < n && ReadsNative(e, soft, d, s)
  }

  lemma FoundNext(e: Effect, soft: bool, k: Index, s: Sim)
    ensures Found(e, soft, k + 1, s) == Found(e, soft, k, s) + if ReadsNative(e, soft, k, s) then {k} else {}
  {}

  function OriginsAt(ds: set<Index>, s: Sim): (o: set<nat>) {
    set d | d in ds :: s.from[At(s, d)]
  }

  lemma {:induction false} AccessesFind(e: Effect, n: nat, s: Sim)
    requires n <= 8
    ensures AccessMeetings(e, n, s)
            == Meeting(Found(e, true, n, s) != {}, Found(e, false, n, s) != {}, OriginsAt(Found(e, false, n, s), s))
  {
    if n > 0 {
      AccessesFind(e, n - 1, s);
      FindNext(e, n - 1, s, AccessMeetings(e, n - 1, s));
      FoundNext(e, true, n - 1, s);
      FoundNext(e, false, n - 1, s);
    }
  }

  /** What the accesses meet in 80-bit form are the loads of the effect at the
      depths where such a value was when the instruction began. */
  lemma AccessesMeet(e: Effect, soft: bool, s: Sim)
    ensures Meets(soft, Accesses(e, 8), s) <==> exists d: Index :: ReadsNative(e, soft, d, s)
    ensures Origins(Accesses(e, 8), s) == set d: Index | ReadsNative(e, false, d, s) :: s.from[At(s, d)]
  {
    AccessMeetingsAre(e, 8, s);
    AccessesFind(e, 8, s);
    assert forall d: Index :: ReadsNative(e, soft, d, s) ==> d in Found(e, soft, 8, s);
  }

  // ---- what the planner finds in one instruction ----

  /** The instruction reads the value pushed natively last as binary64. */
  predicate ReadsPushed(e: Effect, d: Index, s: Sim) {
    d in e.loads && (d !in e.softly || e.toF64) && s.fmt[At(s, d)].Native? && s.from[At(s, d)] == s.mark
  }

  function FoundPushed(e: Effect, n: nat, s: Sim): (ds: set<Index>) {
    set d: Index | d < n && ReadsPushed(e, d, s)
  }

  function SlotsAt(ds: set<Index>, s: Sim): (rs: set<nat>) {
    set d | d in ds :: At(s, d)
  }

  /** The accesses at depth k, of which none before touched the slot. */
  function AccessPlan(e: Effect, k: Index, p: Plan): (q: Plan) {
    var r := if k in e.loads then PlanOne(Read(k, k in e.softly, e.toF64), p) else p;
    if k in e.stores then PlanOne(Write(k), r) else r
  }

  lemma AccessPlanned(e: Effect, k: Index, s: Sim, p: Plan)
    requires SameShape(p.sim, s) && p.sim.fmt[At(s, k)] == s.fmt[At(s, k)]
    ensures var q := AccessPlan(e, k, p);
      && SameShape(q.sim, s)
      && q.sim.fmt == (if k in e.stores || ReadsNative(e, false, k, s) then p.sim.fmt[At(s, k) := F64] else p.sim.fmt)
      && q.convert == p.convert + (if ReadsNative(e, false, k, s) then {At(s, k)} else {})
      && q.soft == (p.soft || ReadsNative(e, true, k, s))
      && q.pushRead == (p.pushRead || ReadsPushed(e, k, s))
  {}

  ghost predicate PlannedTo(e: Effect, n: nat, s: Sim, p: Plan, q: Plan) {
    && SameShape(q.sim, s)
    && q.convert == p.convert + SlotsAt(Found(e, false, n, s), s)
    && q.soft == (p.soft || Found(e, true, n, s) != {})
    && q.pushRead == (p.pushRead || FoundPushed(e, n, s) != {})
  }

  function AccessPlans(e: Effect, n: nat, p: Plan): (q: Plan)
    requires n <= 8
  {
    if n == 0 then p else AccessPlan(e, n - 1, AccessPlans(e, n - 1, p))
  }

  lemma {:induction false} AccessPlansAre(e: Effect, n: nat, p: Plan)
    requires n <= 8
    ensures PlanAll(Accesses(e, n), p) == AccessPlans(e, n, p)
  {
    if n > 0 {
      AccessPlansAre(e, n - 1, p);
      PlanAccess(e, n - 1, p);
    }
  }

  ghost predicate FormatAfter(e: Effect, n: nat, s: Sim, d: Index, q: Plan) {
    && SameShape(q.sim, s)
    && q.sim.fmt[At(s, d)] == if d < n && (d in e.stores || ReadsNative(e, false, d, s)) then F64 else s.fmt[At(s, d)]
  }

  lemma {:induction false} PlanFormats(e: Effect, n: nat, p: Plan, d: Index)
    requires n <= 8
    ensures FormatAfter(e, n, p.sim, d, AccessPlans(e, n, p))
  {
    if n > 0 {
      PlanFormats(e, n - 1, p, d);
      PlanFormats(e, n - 1, p, n - 1);
      FormatNext(e, n - 1, p.sim, d, AccessPlans(e, n - 1, p));
    }
  }

  lemma {:induction false} FormatNext(e: Effect, k: Index, s: Sim, d: Index, q: Plan)
    requires FormatAfter(e, k, s, d, q) && FormatAfter(e, k, s, k, q)
    ensures FormatAfter(e, k + 1, s, d, AccessPlan(e, k, q))
  {
    AccessPlanned(e, k, s, q);
    if d != k {
      AtDiffers(s, d, k);
    }
  }

  lemma PlansNext(e: Effect, k: Index, s: Sim)
    ensures SlotsAt(Found(e, false, k + 1, s), s)
            == SlotsAt(Found(e, false, k, s), s) + if ReadsNative(e, false, k, s) then {At(s, k)} else {}
    ensures Found(e, true, k + 1, s) != {} <==> Found(e, true, k, s) != {} || ReadsNative(e, true, k, s)
    ensures FoundPushed(e, k + 1, s) != {} <==> FoundPushed(e, k, s) != {} || ReadsPushed(e, k, s)
  {
    FoundNext(e, true, k, s);
    FoundNext(e, false, k, s);
    assert FoundPushed(e, k + 1, s) == FoundPushed(e, k, s) + if ReadsPushed(e, k, s) then {k} else {};
  }

  lemma {:induction false} FindsNext(e: Effect, k: Index, s: Sim, p: Plan, q: Plan)
    requires PlannedTo(e, k, s, p, q) && FormatAfter(e, k, s, k, q)
    ensures PlannedTo(e, k + 1, s, p, AccessPlan(e, k, q))
  {
    var r := AccessPlan(e, k, q);
    AccessPlanned(e, k, s, q);
    PlansNext(e, k, s);
    var a, b := SlotsAt(Found(e, false, k, s), s), if ReadsNative(e, false, k, s) then {At(s, k)} else {};
    assert r.convert == p.convert + a + b;
    assert p.convert + a + b == p.convert + (a + b);
  }

  lemma {:induction false} PlanFinds(e: Effect, n: nat, p: Plan)
    requires n <= 8
    ensures PlannedTo(e, n, p.sim, p, AccessPlans(e, n, p))
  {
    if n > 0 {
      PlanFinds(e, n - 1, p);
      PlanFormats(e, n - 1, p, n - 1);
      FindsNext(e, n - 1, p.sim, p, AccessPlans(e, n - 1, p));
    }
  }

  /** One instruction plans exactly the slots that it loads for good in 80-bit
      form, and reports exactly what it loads softly and what it loads of the
      value pushed natively. */
  lemma InstructionPlans(e: Effect, p: Plan)
    ensures var q := PlanAll(Accesses(e, 8), p);
      && q.convert == p.convert + (set d: Index | ReadsNative(e, false, d, p.sim) :: At(p.sim, d))
      && (q.soft <==> p.soft || exists d: Index :: ReadsNative(e, true, d, p.sim))
      && (q.pushRead <==> p.pushRead || exists d: Index :: ReadsPushed(e, d, p.sim))
  {
    AccessPlansAre(e, 8, p);
    PlanFinds(e, 8, p);
    assert forall d: Index :: ReadsNative(e, true, d, p.sim) ==> d in Found(e, true, 8, p.sim);
    assert forall d: Index :: ReadsPushed(e, d, p.sim) ==> d in FoundPushed(e, 8, p.sim);
  }

  // ---- windows ----

  function Fold<S>(f: (nat, S) -> S, k: nat, s: S): (r: S) {
    if k == 0 then s else f(k - 1, Fold(f, k - 1, s))
  }

  lemma {:induction false} FoldRelated<S, T>(f: (nat, S) -> S, g: (nat, T) -> T, related: (nat, S, T) -> bool, k: nat,
                                             s: S, t: T)
    requires related(0, s, t)
    requires forall i: nat, a, b {:trigger f(i, a), g(i, b)} :: i < k && related(i, a, b) ==>
      related(i + 1, f(i, a), g(i, b))
    ensures related(k, Fold(f, k, s), Fold(g, k, t))
  {
    if k > 0 {
      FoldRelated(f, g, related, k - 1, s, t);
    }
  }

  /** The i-th instruction of a window; only the first one pushes natively. */
  function MeantAt(es: seq<Effect>, native: bool, next: nat, i: nat, x: X87): (y: X87) {
    if i < |es| then Meant(es[i], native && i == 0, x, next + Fresh1(es, i, native)) else x
  }

  function AfterAt(es: seq<Effect>, native: bool, i: nat, s: Sim): (t: Sim) {
    if i < |es| then AfterEffect(es[i], native && i == 0, s) else s
  }

  /** The plain stack after the instructions of a window. */
  function MeantAll(es: seq<Effect>, native: bool, x: X87, next: nat): (y: X87) {
    Fold((i, y) => MeantAt(es, native, next, i, y), |es|, x)
  }

  function AfterAll(es: seq<Effect>, native: bool, s: Sim): (t: Sim) {
    Fold((i, t) => AfterAt(es, native, i, t), |es|, s)
  }

  /** The values pushed natively by the first instruction of a window. */
  function Fresh1(es: seq<Effect>, k: nat, native: bool): (n: nat)
    requires k <= |es|
  {
    if native && k > 0 then es[0].pushes else 0
  }

  function TopMoves(es: seq<Effect>, k: nat): (n: int)
    requires k <= |es|
  {
    if k == 0 then 0 else TopMoves(es, k - 1) + TopMove(es[k - 1])
  }

  function MicrosAt(es: seq<Effect>, native: bool, i: nat, ms: seq<Micro>): (ns: seq<Micro>) {
    if i < |es| then ms + EffectMicros(es[i], native && i == 0) else ms
  }

  lemma {:induction false} WindowFolds(es: seq<Effect>, k: nat, native: bool)
    requires k <= |es|
    ensures WindowMicros(es[..k], native) == Fold((i, ms) => MicrosAt(es, native, i, ms), k, [])
  {
    if k > 0 {
      WindowFolds(es, k - 1, native);
      assert es[..k][..k - 1] == es[..k - 1];
    }
  }

  lemma {:induction false} WindowParts(es: seq<Effect>, native: bool, s: Sim)
    ensures After(WindowMicros(es, native), s) == AfterAll(es, native, s)
  {
    WindowFolds(es, |es|, native);
    assert es[..|es|] == es;
    forall i: nat, ms, t: Sim | i < |es| && After(ms, s) == t
      ensures After(MicrosAt(es, native, i, ms), s) == AfterAt(es, native, i, t)
    {
      AfterConcat(ms, EffectMicros(es[i], native && i == 0), s);
      EffectParts(es[i], native && i == 0, t);
    }
    FoldRelated((i, ms) => MicrosAt(es, native, i, ms), (i, t) => AfterAt(es, native, i, t),
                (i: nat, ms, t: Sim) => After(ms, s) == t, |es|, [], s);
  }

  ghost predicate AgreedAt(es: seq<Effect>, native: bool, next: nat, i: nat, s: Sim, x: X87) {
    i <= |es| && Agreed(s, x, next + Fresh1(es, i, native))
  }

  lemma {:induction false} NextAgreed(es: seq<Effect>, native: bool, next: nat, i: nat, s: Sim, x: X87)
    requires i < |es| && Moving(es[i]) && AgreedAt(es, native, next, i, s, x)
    ensures AgreedAt(es, native, next, i + 1, AfterAt(es, native, i, s), MeantAt(es, native, next, i, x))
  {
    EffectShows(es[i], native && i == 0, s, x, next + Fresh1(es, i, native));
  }

  lemma {:induction false} AllShow(es: seq<Effect>, native: bool, s: Sim, x: X87, next: nat)
    requires Agreed(s, x, next) && forall i :: 0 <= i < |es| ==> Moving(es[i])
    ensures Agreed(AfterAll(es, native, s), MeantAll(es, native, x, next), next + Fresh1(es, |es|, native))
  {
    forall i: nat, t: Sim, y: X87 {:trigger AfterAt(es, native, i, t), MeantAt(es, native, next, i, y)}
      | i < |es| && AgreedAt(es, native, next, i, t, y)
      ensures AgreedAt(es, native, next, i + 1, AfterAt(es, native, i, t), MeantAt(es, native, next, i, y))
    {
      NextAgreed(es, native, next, i, t, y);
    }
    FoldRelated((i, t) => AfterAt(es, native, i, t), (i, y) => MeantAt(es, native, next, i, y),
                (i: nat, t: Sim, y: X87) => AgreedAt(es, native, next, i, t, y), |es|, s, x);
  }

  predicate TopAt(es: seq<Effect>, top: nat, i: nat, x: X87) {
    i <= |es| && x.top == Slot(top, TopMoves(es, i))
  }

  lemma {:induction false} NextTop(es: seq<Effect>, native: bool, next: nat, top: nat, i: nat, x: X87)
    requires i < |es| && TopAt(es, top, i, x)
    ensures TopAt(es, top, i + 1, MeantAt(es, native, next, i, x))
  {
    MeantTop(es[i], native && i == 0, x, next + Fresh1(es, i, native));
    SlotTwice(top, TopMoves(es, i), TopMove(es[i]));
  }

  /** TOP after a window is the start plus what its instructions move it by. */
  lemma {:induction false} WindowTop(es: seq<Effect>, native: bool, x: X87, next: nat)
    ensures MeantAll(es, native, x, next).top == Slot(x.top, TopMoves(es, |es|))
  {
    forall i: nat, a: X87, b: X87 {:trigger MeantAt(es, native, next, i, a), MeantAt(es, native, next, i, b)}
      | i < |es| && TopAt(es, x.top, i, b)
      ensures TopAt(es, x.top, i + 1, MeantAt(es, native, next, i, b))
    {
      NextTop(es, native, next, x.top, i, b);
    }
    FoldRelated((i, y) => MeantAt(es, native, next, i, y), (i, y) => MeantAt(es, native, next, i, y),
                (i: nat, a: X87, b: X87) => TopAt(es, x.top, i, b), |es|, x, x);
  }

  /** The simulation of a window is its instructions on the plain stack. */
  lemma WindowShows(es: seq<Effect>, native: bool, s: Sim, x: X87)
    requires Shows(s, x) && forall k :: 0 <= k < |es| ==> Moving(es[k])
    ensures Agreed(After(WindowMicros(es, native), s), MeantAll(es, native, x, s.next),
                   s.next + Fresh1(es, |es|, native))
    ensures After(WindowMicros(es, native), s).top == Slot(s.top, TopMoves(es, |es|))
  {
    WindowParts(es, native, s);
    AllShow(es, native, s, x, s.next);
    WindowTop(es, native, x, s.next);
  }

  // ---- formats ----

  function Tracked(s: Sim): (t: Tracker) {
    Tracker(s.top, s.fmt)
  }

  /** The formats change as the tracker's do behind the emitters. */
  lemma StepFormats(m: Micro, s: Sim)
    ensures var t := Tracked(s);
      match m
      case Read(_, _, _) => Tracked(SlotPlan.Step(m, s)) == t
      case Write(d) => Tracked(SlotPlan.Step(m, s)) == t.NoteWrite(s.perm[d])
      case Exchange(_) => Tracked(SlotPlan.Step(m, s)) == t
      case Free(d) => Tracked(SlotPlan.Step(m, s)) == t.NoteFree(s.perm[d])
      case Flush => t.MovesF80(s.perm) ==> Tracked(SlotPlan.Step(m, s)) == t.NotePermFlush(s.perm)
      case Turn(delta) => Tracked(SlotPlan.Step(m, s)) == t.NoteRotate(delta)
      case Drop => Tracked(SlotPlan.Step(m, s)) == t.NotePop(1)
      case Push => Tracked(SlotPlan.Step(m, s)) == t.NotePush()
      case PushNative => var p := t.NotePush(); Tracked(SlotPlan.Step(m, s)) == p.(fmt := p.fmt[p.topRel := Native])
      case Save => forall r :: 0 <= r < 8 ==> !HoldsF80(SlotPlan.Step(m, s).fmt[r]) && !SlotPlan.Step(m, s).fmt[r].F64?
      case Restore => forall r ::
        0 <= r < 8 ==> SlotPlan.Step(m, s).fmt[r].Native? && SlotPlan.Step(m, s).from[r] >= s.next
  {}

  /** A flush that moves no 80-bit slot: the tracker calls what it moved binary64,
      the planner leaves it at what it was; no slot is 80-bit to one and not to
      the other. */
  lemma FlushFormats(s: Sim)
    requires !Tracked(s).MovesF80(s.perm)
    ensures forall r :: 0 <= r < 8 ==>
      (SlotPlan.Step(Flush, s).fmt[r].Native? <==> Tracked(s).NotePermFlush(s.perm).fmt[r].Native?)
  {
    forall r | 0 <= r < 8
      ensures SlotPlan.Step(Flush, s).fmt[r].Native? <==> Tracked(s).NotePermFlush(s.perm).fmt[r].Native?
    {
      var d := Depth(s.top, r);
      SlotDepth(s.top, r);
      if s.perm[d] != d {
        NotFixed(s.perm, d);
        assert !HoldsF80(s.fmt[Slot(s.top, s.perm[d])]);
      }
    }
  }

  /** A depth that moves comes from one that moves. */
  lemma NotFixed(perm: Perm, d: Index)
    requires perm[d] != d
    ensures perm[perm[d]] != perm[d]
  {}
}
