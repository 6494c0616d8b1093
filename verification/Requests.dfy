/** A translation request as a transaction (Translator.cpp): what a request may
    change before it is known to succeed, how a request that runs out of
    registers is undone and remembered, and what becomes of stock's register
    mask. */
module Requests {
  import opened Opcodes

  /** The eight scratch registers of kGprScratchMask (0x3FC00000). */
  const SCRATCH: set<nat> := set r: nat | 22 <= r < 30

  /** The FP registers that free_fpr takes back (kFprScratchMaskExt). */
  const UPPER: set<nat> := set r: nat | 16 <= r < 32

  /** A 32-bit register mask. */
  type Mask = m: set<nat> | forall r :: r in m ==> r < 32

  type Lists = l: seq<seq<nat>> | |l| == 6 witness seq(6, _ => [])

  datatype Declined = Nowhere | At(block: nat, idx: nat, num: nat, pc: nat)

  datatype Block = NoBlock | InBlock(id: nat)

  /** The fields of X87Cache a request reads or leaves behind. */
  datatype Cache = Cache(prevBlock: Block, lastInsn: int, lastNext: int, declined: Declined,
                         stockMask: set<nat>, run: nat, pins: set<nat>)
  {
    /** invalidate(): the run is over and nothing is pinned. */
    function Released(): (c: Cache) {
      this.(run := 0, pins := {})
    }
  }

  /** The block, its length and first pc, the index asked for, and stock's
      register mask at that point. */
  datatype Request = Request(block: nat, num: nat, pc: nat, idx: nat, arpl: bool, native: bool, stock: Mask)
  {
    /** The rest of a block in which a request failed goes to stock. */
    predicate Follows(d: Declined) {
      d.At? && block == d.block && idx > d.idx && num == d.num && pc == d.pc
    }
  }

  datatype Reply = Consumed(next: nat) | ToStock | Abort

  /** One thing an emitter does to the result. */
  datatype Act =
    | Word(w: nat)
    | Fixup(list: nat, f: nat)
    | TakeLowest
    | TakePool(reg: nat)
    | Give(reg: nat)
    | TakeFpr
    | GiveFpr(reg: nat)
    | Pin(n: nat)

  /** What the translator finds at one instruction: its opcode, the counter bump
      at a block change, the run it may start, its emitters, how much they consume
      (nothing when the dispatch has no emitter) and whether the run loses one
      more, for an fxch that a fusion took in. */
  datatype Work = Work(op: nat, bump: seq<Act>, run: nat, acts: seq<Act>, pins: set<nat>, consumed: nat, absorbs: bool)
  {
    function Ticks(): (n: nat) {
      consumed + if absorbs then 1 else 0
    }

    /** The reply when nothing fails. */
    function Answer(idx: nat): (r: Reply) {
      if op == ARPL then Consumed(idx + 1) else if consumed == 0 then ToStock else Consumed(idx + consumed)
    }
  }

  /** Everything a request may do, instruction by instruction. */
  datatype Plan = Plan(probe: seq<Act>, enter: seq<Act>, work: seq<Work>, leave: seq<Act>)

  const ARPL: nat := 0x29C

  predicate Possible(q: Request, p: Plan) {
    && q.idx < q.num == |p.work| && (q.arpl <==> p.work[q.idx].op == ARPL)
    && (forall i :: 0 <= i < q.num ==> Fits(p.work, i))
  }

  /** The lookahead counts opcodes, and an instruction is consumed when the
      dispatch has an emitter for it, or it is ARPL. */
  predicate Fits(work: seq<Work>, i: nat)
    requires i < |work|
  {
    && i + work[i].run <= |work| && i + work[i].consumed <= |work| && InRun(work, i, work[i].run)
    && (work[i].op != ARPL ==>
          (work[i].consumed == 0 <==> Dispatch(work[i].op).Stock?) && (work[i].consumed == 0 ==> work[i].acts == []))
  }

  /** The dispatch has an emitter, or the opcode is the one stock cannot do. */
  predicate Emits(op: nat) {
    op == ARPL || !Dispatch(op).Stock?
  }

  /** The next `run` instructions from i are counted ones. */
  predicate InRun(work: seq<Work>, i: nat, run: nat) {
    i + run <= |work| && forall k :: i <= k < i + run ==> Counted(work[k].op)
  }

  /** Nothing counted is declined, so a run is never left open by stock. */
  lemma RunsAreEmitted(work: seq<Work>, i: nat)
    requires i < |work| && Fits(work, i)
    ensures work[i].op == ARPL ==> !Counted(work[i].op)
    ensures work[i].run > 0 ==> Counted(work[i].op)
    ensures Counted(work[i].op) ==> work[i].consumed > 0
    ensures work[i].run > 0 ==> work[i].consumed > 0 && work[i].op != ARPL
  {
    CountedIsEmitted(work[i].op);
    CountedIsEmitted(ARPL);
  }

  predicate Grown(a: Lists, b: Lists) {
    forall i :: 0 <= i < 6 ==> a[i] <= b[i]
  }

  function Counts(l: Lists): (n: seq<nat>)
    ensures |n| == 6
  {
    seq(6, i requires 0 <= i < 6 => |l[i]|)
  }

  /** list.end = list.begin + count, for each list. */
  function Cut(l: Lists, n: seq<nat>): (r: Lists)
    requires |n| == 6 && forall i :: 0 <= i < 6 ==> n[i] <= |l[i]|
  {
    seq(6, i requires 0 <= i < 6 => l[i][..n[i]])
  }

  lemma CutGrown(a: Lists, b: Lists)
    requires Grown(a, b)
    ensures forall i :: 0 <= i < 6 ==> Counts(a)[i] <= |b[i]|
    ensures Cut(b, Counts(a)) == a
  {
    forall i | 0 <= i < 6 ensures Counts(a)[i] <= |b[i]| {
      assert a[i] <= b[i];
    }
    var c := Cut(b, Counts(a));
    forall i | 0 <= i < 6 ensures c[i] == a[i] {
      assert a[i] <= b[i];
    }
  }

  /** ctz of a register mask. */
  function Lowest(mask: set<nat>, start: nat := 0): (r: nat)
    requires exists m :: m in mask && start <= m < 32
    ensures r in mask && r < 32
    decreases 32 - start
  {
    if start in mask then start else Lowest(mask, start + 1)
  }

  /** A failed request that is asked again is tried again; the next index of the
      block is declined, unless stock sees another block there. */
  lemma AskedAgain(q: Request, later: Request)
    ensures !q.Follows(At(q.block, q.idx, q.num, q.pc))
    ensures later.idx == q.idx + 1 ==>
      (later.Follows(At(q.block, q.idx, q.num, q.pc)) <==> later == q.(idx := later.idx, arpl := later.arpl,
                                                                      native := later.native, stock := later.stock))
  {}

  /** The scratch registers are the bits of kGprScratchMask, the FP registers that
      are taken back those of kFprScratchMaskExt. */
  lemma ScratchMasks(r: nat)
    requires r < 32
    ensures r in SCRATCH <==> 0x3FC0_0000 as bv32 & (1 << r) != 0
    ensures r in UPPER <==> 0xFFFF_0000 as bv32 & (1 << r) != 0
  {
  }

  // ---- what a list of acts does to registers, words and fixups ----

  /** The registers that are free, the pins noted, and whether an allocation has
      found none. */
  datatype Pool = Pool(gpr: set<nat>, fpr: set<nat>, pinned: nat, out: bool)

  predicate Fair(p: Pool) {
    p.gpr <= SCRATCH && forall r :: r in p.fpr ==> r < 32
  }

  /** The allocation finds no register that would do. */
  predicate Starves(act: Act, p: Pool) {
    match act
    case TakeLowest => p.gpr == {}
    case TakePool(reg) => reg !in p.gpr
    case TakeFpr => p.fpr == {}
    case _ => false
  }

  function Act1(act: Act, p: Pool): (q: Pool)
    requires Fair(p)
    ensures Fair(q)
  {
    if Starves(act, p) then p.(out := true)
    else
      match act
      case TakeLowest => p.(gpr := p.gpr - {Least1(p.gpr)})
      case TakePool(reg) => p.(gpr := p.gpr - {reg})
      case Give(reg) => if reg in SCRATCH then p.(gpr := p.gpr + {reg}) else p
      case TakeFpr => p.(fpr := p.fpr - {Least1(p.fpr)})
      case GiveFpr(reg) => if reg in UPPER then p.(fpr := p.fpr + {reg}) else p
      case Pin(n) => p.(pinned := n)
      case _ => p
  }

  /** The least register of a mask. */
  function Least1(mask: set<nat>): (r: nat)
    requires mask != {} && forall r :: r in mask ==> r < 32
    ensures r in mask && forall m :: m in mask ==> r <= m
  {
    assert exists m :: m in mask && 0 <= m < 32 by {
      var m :| m in mask;
      assert 0 <= m < 32;
    }
    Least(mask, 0);
    Lowest(mask)
  }

  function ActAll(acts: seq<Act>, p: Pool): (q: Pool)
    requires Fair(p)
    ensures Fair(q)
    decreases |acts|
  {
    if acts == [] then p else Act1(acts[|acts| - 1], ActAll(acts[..|acts| - 1], p))
  }

  function WordsIn(acts: seq<Act>): (w: seq<nat>)
    decreases |acts|
  {
    if acts == [] then []
    else
      var a := acts[|acts| - 1];
      WordsIn(acts[..|acts| - 1]) + if a.Word? then [a.w] else []
  }

  function FixupsIn(acts: seq<Act>, list: nat): (f: seq<nat>)
    decreases |acts|
  {
    if acts == [] then []
    else
      var a := acts[|acts| - 1];
      FixupsIn(acts[..|acts| - 1], list) + if a.Fixup? && a.list == list then [a.f] else []
  }

  function Appended(l: Lists, acts: seq<Act>): (r: Lists)
    ensures Grown(l, r)
  {
    seq(6, i requires 0 <= i < 6 => l[i] + FixupsIn(acts, i))
  }

  lemma {:induction false} ActsConcat(a: seq<Act>, b: seq<Act>, p: Pool)
    requires Fair(p)
    ensures ActAll(a + b, p) == ActAll(b, ActAll(a, p)) && WordsIn(a + b) == WordsIn(a) + WordsIn(b)
    ensures forall i :: FixupsIn(a + b, i) == FixupsIn(a, i) + FixupsIn(b, i)
    decreases |b|
  {
    if b == [] {
      assert a + b == a;
    } else {
      ActsConcat(a, b[..|b| - 1], p);
      assert (a + b)[..|a + b| - 1] == a + b[..|b| - 1];
    }
  }

  lemma AppendedConcat(l: Lists, a: seq<Act>, b: seq<Act>)
    ensures Appended(Appended(l, a), b) == Appended(l, a + b)
  {
    ActsConcat(a, b, Pool({}, {}, 0, false));
    var r, m := Appended(Appended(l, a), b), Appended(l, a + b);
    forall i | 0 <= i < 6 ensures r[i] == m[i] {
      assert l[i] + FixupsIn(a, i) + FixupsIn(b, i) == l[i] + (FixupsIn(a, i) + FixupsIn(b, i));
    }
  }

  lemma ActsMore(acts: seq<Act>, act: Act, p: Pool)
    requires Fair(p)
    ensures ActAll(acts + [act], p) == Act1(act, ActAll(acts, p))
    ensures WordsIn(acts + [act]) == WordsIn(acts) + if act.Word? then [act.w] else []
    ensures forall i ::
      FixupsIn(acts + [act], i) == FixupsIn(acts, i) + if act.Fixup? && act.list == i then [act.f] else []
  {
    assert (acts + [act])[..|acts + [act]| - 1] == acts;
  }

  lemma NoActs(l: Lists)
    ensures Appended(l, []) == l
  {
    forall i | 0 <= i < 6 ensures Appended(l, [])[i] == l[i] {}
  }

  lemma AppendedMore(acts: seq<Act>, act: Act, l: Lists)
    ensures Appended(l, acts + [act])
            == if act.Fixup? && act.list < 6
               then Appended(l, acts)[act.list := Appended(l, acts)[act.list] + [act.f]]
               else Appended(l, acts)
  {
    ActsMore(acts, act, Pool({}, {}, 0, false));
    var m, r := Appended(l, acts), Appended(l, acts + [act]);
    forall i | 0 <= i < 6
      ensures r[i] == if act.Fixup? && act.list == i then m[i] + [act.f] else m[i]
    {
      var one := if act.Fixup? && act.list == i then [act.f] else [];
      assert l[i] + FixupsIn(acts, i) + one == l[i] + (FixupsIn(acts, i) + one);
    }
  }

  /** A list of acts runs out exactly when one of them wants a register and, after
      those before it, none that would do is free. */
  lemma {:induction false} OutIff(acts: seq<Act>, k: nat, p: Pool)
    requires Fair(p) && k <= |acts|
    ensures ActAll(acts[..k], p).out <==> p.out || exists i :: 0 <= i < k && StarvesAt(acts, i, p)
  {
    if k > 0 {
      OutIff(acts, k - 1, p);
      assert acts[..k] == acts[..k - 1] + [acts[k - 1]];
      ActsMore(acts[..k - 1], acts[k - 1], p);
      assert ActAll(acts[..k], p).out <==> ActAll(acts[..k - 1], p).out || StarvesAt(acts, k - 1, p);
    }
  }

  /** Act i wants a register, and none that would do is left. */
  predicate StarvesAt(acts: seq<Act>, i: nat, p: Pool)
    requires i < |acts| && Fair(p)
  {
    Starves(acts[i], ActAll(acts[..i], p))
  }

  function Takes(n: nat): (acts: seq<Act>) {
    if n == 0 then [] else Takes(n - 1) + [TakeLowest]
  }

  /** Registers taken one after another are the least that are free, and run out
      exactly when there are fewer than are wanted: from stock's pool of eight the
      ninth fails. */
  lemma {:induction false} TakesRunOut(n: nat, p: Pool)
    requires Fair(p) && !p.out
    ensures ActAll(Takes(n), p).out <==> n > |p.gpr|
    ensures LeastTaken(p.gpr, ActAll(Takes(n), p).gpr, n)
  {
    if n > 0 {
      TakesRunOut(n - 1, p);
      ActsMore(Takes(n - 1), TakeLowest, p);
      OneMoreTaken(p.gpr, ActAll(Takes(n - 1), p), n - 1);
    } else {
      assert p.gpr - p.gpr == {};
    }
  }

  lemma OneMoreTaken(free: set<nat>, q: Pool, n: nat)
    requires Fair(q) && (q.out <==> n > |free|) && LeastTaken(free, q.gpr, n)
    ensures var r := Act1(TakeLowest, q); (r.out <==> n + 1 > |free|) && LeastTaken(free, r.gpr, n + 1)
  {
    if q.gpr == {} {
      assert |q.gpr| == 0;
    } else {
      TakeOneMore(free, q.gpr, n);
    }
  }

  /** Of `free`, `left` are left when the n least are gone. */
  predicate LeastTaken(free: set<nat>, left: set<nat>, n: nat) {
    && left <= free && |left| == (if n > |free| then 0 else |free| - n)
    && forall r, m :: r in free && r !in left && m in left ==> r < m
  }

  lemma TakeOneMore(free: set<nat>, left: set<nat>, n: nat)
    requires LeastTaken(free, left, n) && left != {} && forall r :: r in left ==> r < 32
    ensures LeastTaken(free, left - {Least1(left)}, n + 1)
  {
    var r := Least1(left);
    var after := left - {r};
    assert |after| == |left| - 1;
    forall x, m | x in free && x !in after && m in after ensures x < m {
      assert m in left && m != r;
    }
  }

  /** A register taken and given back is free again. */
  lemma TakenGivenBack(p: Pool, reg: nat)
    requires Fair(p) && reg in p.gpr
    ensures ActAll([TakePool(reg), Give(reg)], p) == p
  {
    var acts := [TakePool(reg), Give(reg)];
    assert acts[..1] == [TakePool(reg)] && acts[..1][..0] == [];
    assert ActAll(acts[..1], p) == Act1(TakePool(reg), p);
    assert p.gpr - {reg} + {reg} == p.gpr;
  }

  /** An FP register taken and given back is free again exactly if it is one of
      the sixteen upper ones. */
  lemma FprGivenBack(p: Pool)
    requires Fair(p) && p.fpr != {}
    ensures ActAll([TakeFpr, GiveFpr(Least1(p.fpr))], p) == p <==> 16 <= Least1(p.fpr)
  {
    var acts := [TakeFpr, GiveFpr(Least1(p.fpr))];
    assert acts[..1] == [TakeFpr] && acts[..1][..0] == [];
    assert ActAll(acts[..1], p) == Act1(TakeFpr, p);
    assert p.fpr - {Least1(p.fpr)} + {Least1(p.fpr)} == p.fpr;
  }

  lemma {:induction false} StaysOut(acts: seq<Act>, p: Pool)
    requires Fair(p) && p.out
    ensures ActAll(acts, p).out
    decreases |acts|
  {
    if acts != [] {
      StaysOut(acts[..|acts| - 1], p);
    }
  }

  // ---- the phases of a request ----

  /** Acts that are played one after another, the general registers they start
      with, and whether they start with stock's FP registers and no pins noted
      or with what the phase before left. */
  datatype Phase = Phase(acts: seq<Act>, gpr: set<nat>, anew: bool)

  function Start(ph: Phase, unoccupied: Mask, p: Pool): (q: Pool)
    requires Fair(p)
    ensures Fair(q)
  {
    Pool(ph.gpr * SCRATCH, if ph.anew then unoccupied else p.fpr, if ph.anew then 0 else p.pinned, p.out)
  }

  function Played(phs: seq<Phase>, unoccupied: Mask, p: Pool): (q: Pool)
    requires Fair(p)
    ensures Fair(q)
    decreases |phs|
  {
    if phs == [] then p
    else ActAll(phs[|phs| - 1].acts, Start(phs[|phs| - 1], unoccupied, Played(phs[..|phs| - 1], unoccupied, p)))
  }

  function Acts(phs: seq<Phase>): (acts: seq<Act>)
    decreases |phs|
  {
    if phs == [] then [] else Acts(phs[..|phs| - 1]) + phs[|phs| - 1].acts
  }

  lemma PlayedMore(phs: seq<Phase>, ph: Phase, unoccupied: Mask, p: Pool)
    requires Fair(p)
    ensures Played(phs + [ph], unoccupied, p) == ActAll(ph.acts, Start(ph, unoccupied, Played(phs, unoccupied, p)))
    ensures Acts(phs + [ph]) == Acts(phs) + ph.acts
  {
    assert (phs + [ph])[..|phs + [ph]| - 1] == phs;
  }

  /** A request in which a phase has run out has run out. */
  lemma {:induction false} PrefixOut(phs: seq<Phase>, k: nat, unoccupied: Mask, p: Pool)
    requires Fair(p) && k <= |phs| && Played(phs[..k], unoccupied, p).out
    ensures Played(phs, unoccupied, p).out
    decreases |phs| - k
  {
    if k < |phs| {
      assert phs[..k + 1] == phs[..k] + [phs[k]];
      PlayedMore(phs[..k], phs[k], unoccupied, p);
      StaysOut(phs[k].acts, Start(phs[k], unoccupied, Played(phs[..k], unoccupied, p)));
      PrefixOut(phs, k + 1, unoccupied, p);
    } else {
      assert phs[..k] == phs;
    }
  }

  /** What is left of a run. */
  function Left(run: nat, n: nat): (r: nat) {
    if run > n then run - n else 0
  }

  /** A request at idx begins anew: another block, an index not past the last one,
      or not the one the open run goes on with. */
  predicate Restarts(block: nat, idx: nat, c: Cache) {
    || c.prevBlock != InBlock(block) || idx <= c.lastInsn
    || (c.run > 0 && c.lastNext >= 0 && idx != c.lastNext)
  }

  /** The run that is open when the dispatch at idx begins. */
  function RunAt(block: nat, idx: nat, w: Work, c: Cache): (run: nat) {
    if !Restarts(block, idx, c) && c.run > 0 then c.run else if w.run >= 2 then w.run else 0
  }

  /** A request goes on where the last one ended: in the same block, past the last
      index, and in an open run only at its frontier. */
  lemma GoesOn(block: nat, idx: nat, w: Work, c: Cache)
    ensures !Restarts(block, idx, c) <==>
      c.prevBlock == InBlock(block) && idx > c.lastInsn && (c.run > 0 && c.lastNext >= 0 ==> idx == c.lastNext)
    ensures c.run == 0 ==> if w.run in {0, 1} then RunAt(block, idx, w, c) == 0 else RunAt(block, idx, w, c) == w.run
  {}

  function ActsAt(block: nat, idx: nat, w: Work, c: Cache): (acts: seq<Act>) {
    (if Restarts(block, idx, c) then w.bump else []) + w.acts
  }

  /** The dispatches that follow in the same reply, from index i on: each finds
      stock's registers less those the one before has pinned. */
  function Tail(work: seq<Work>, stock: set<nat>, i: nat, run: nat, pins: set<nat>): (phs: seq<Phase>)
    decreases |work| - i
  {
    if run == 0 || i >= |work| || work[i].consumed == 0 then []
    else
      [Phase(work[i].acts, stock - pins, true)]
      + Tail(work, stock, i + work[i].consumed, Left(run, work[i].Ticks()), work[i].pins)
  }

  /** The index they come to. */
  function TailEnd(work: seq<Work>, i: nat, run: nat): (next: nat)
    decreases |work| - i
  {
    if run == 0 || i >= |work| || work[i].consumed == 0 then i
    else TailEnd(work, i + work[i].consumed, Left(run, work[i].Ticks()))
  }

  /** The indices dispatched. */
  function Visits(work: seq<Work>, i: nat, run: nat): (v: seq<nat>)
    decreases |work| - i
  {
    if run == 0 || i >= |work| || work[i].consumed == 0 then []
    else [i] + Visits(work, i + work[i].consumed, Left(run, work[i].Ticks()))
  }

  /** How many of them took in an fxch. */
  function Absorbs(work: seq<Work>, v: seq<nat>): (n: nat) {
    if v == [] then 0
    else (if v[0] < |work| && work[v[0]].absorbs then 1 else 0) + Absorbs(work, v[1..])
  }

  /** Each dispatch begins where the one before ended, with its own emitter's acts
      and without the registers that the one before has pinned. */
  predicate VisitAt(work: seq<Work>, stock: set<nat>, pins: set<nat>, v: seq<nat>, phs: seq<Phase>, next: nat, k: nat)
    requires k < |v| == |phs|
  {
    && v[k] < |work| && (k > 0 ==> v[k - 1] < |work|)
    && (if k + 1 < |v| then v[k + 1] else next) == v[k] + work[v[k]].consumed
    && phs[k] == Phase(work[v[k]].acts, stock - (if k == 0 then pins else work[v[k - 1]].pins), true)
  }

  lemma {:induction false} TailVisits(work: seq<Work>, stock: set<nat>, i: nat, run: nat, pins: set<nat>)
    ensures var v, phs := Visits(work, i, run), Tail(work, stock, i, run, pins);
      && |v| == |phs| && (if v == [] then TailEnd(work, i, run) else v[0]) == i
      && forall k :: 0 <= k < |v| ==> VisitAt(work, stock, pins, v, phs, TailEnd(work, i, run), k)
    decreases |work| - i
  {
    if run > 0 && i < |work| && work[i].consumed > 0 {
      var j, left := i + work[i].consumed, Left(run, work[i].Ticks());
      TailVisits(work, stock, j, left, work[i].pins);
      var v, phs := Visits(work, i, run), Tail(work, stock, i, run, pins);
      var w, qhs := Visits(work, j, left), Tail(work, stock, j, left, work[i].pins);
      forall k | 0 <= k < |v| ensures VisitAt(work, stock, pins, v, phs, TailEnd(work, i, run), k) {
        if k > 0 {
          assert VisitAt(work, stock, work[i].pins, w, qhs, TailEnd(work, j, left), k - 1);
          assert v[k] == w[k - 1] && phs[k] == qhs[k - 1];
        }
      }
    }
  }

  /** They go on to the end of the run, an instruction short for every fxch taken
      in, and none begins past it. */
  lemma {:induction false} TailReaches(work: seq<Work>, i: nat, run: nat)
    requires InRun(work, i, run) && forall k :: 0 <= k < |work| ==> Fits(work, k)
    ensures var v := Visits(work, i, run);
      && i <= TailEnd(work, i, run) <= |work| && i + run <= TailEnd(work, i, run) + Absorbs(work, v)
      && forall k :: 0 <= k < |v| ==> v[k] + Absorbs(work, v[..k]) < i + run
    decreases |work| - i
  {
    if run > 0 {
      RunsAreEmitted(work, i);
      var j, left := i + work[i].consumed, Left(run, work[i].Ticks());
      TailReaches(work, j, left);
      var v, w := Visits(work, i, run), Visits(work, j, left);
      assert v[1..] == w;
      forall k | 0 <= k < |v| ensures v[k] + Absorbs(work, v[..k]) < i + run {
        if k > 0 {
          assert v[..k][1..] == w[..k - 1];
          assert w[k - 1] + Absorbs(work, w[..k - 1]) < j + left;
        }
      }
    }
  }

  /** The first dispatch, and those that follow. */
  function Dispatches(q: Request, p: Plan, c: Cache): (phs: seq<Phase>)
    requires q.idx < |p.work|
  {
    var w := p.work[q.idx];
    [Phase(ActsAt(q.block, q.idx, w, c), q.stock, false)]
    + if w.op == ARPL || w.consumed == 0 then []
      else Tail(p.work, q.stock, q.idx + w.consumed, Left(RunAt(q.block, q.idx, w, c), w.Ticks()), w.pins)
  }

  function End(q: Request, p: Plan, c: Cache): (next: nat)
    requires q.idx < |p.work|
  {
    var w := p.work[q.idx];
    if w.op == ARPL then q.idx + 1
    else TailEnd(p.work, q.idx + w.consumed, Left(RunAt(q.block, q.idx, w, c), w.Ticks()))
  }

  function LastOf(v: seq<nat>, none: nat): (i: nat) {
    if v == [] then none else v[|v| - 1]
  }

  /** The last index dispatched. */
  function Latest(q: Request, p: Plan, c: Cache): (i: nat)
    requires q.idx < |p.work|
  {
    var w := p.work[q.idx];
    if w.op == ARPL || w.consumed == 0 then q.idx
    else LastOf(Visits(p.work, q.idx + w.consumed, Left(RunAt(q.block, q.idx, w, c), w.Ticks())), q.idx)
  }

  /** Everything a request emits when nothing fails: probe and entry conversion,
      the dispatches, the exit conversion. */
  function Phases(q: Request, p: Plan, precise: bool, c: Cache): (phs: seq<Phase>)
    requires q.idx < |p.work|
  {
    Before(q, p, precise) + Dispatches(q, p, c)
    + if q.native && p.work[q.idx].Answer(q.idx).Consumed? then [Phase(p.leave, q.stock, true)] else []
  }

  function Before(q: Request, p: Plan, precise: bool): (phs: seq<Phase>) {
    (if q.native && precise then [Phase(p.probe, q.stock, false)] else [])
    + if q.native then [Phase(p.enter, q.stock, false)] else []
  }

  lemma FailedPrefix(done: seq<Phase>, phs: seq<Phase>, unoccupied: Mask, p: Pool)
    requires Fair(p) && done <= phs && Played(done, unoccupied, p).out
    ensures Played(phs, unoccupied, p).out
  {
    assert phs[..|done|] == done;
    PrefixOut(phs, |done|, unoccupied, p);
  }

  /** After a failure no later index of the block begins anew, unless the failed
      one did; what is asked of another block, or from the failed index back, does. */
  ghost predicate Undone(c: Cache, after: Cache, q: Request) {
    forall block: nat, idx: nat :: Restarts(block, idx, after) <==>
      if block == q.block then c.prevBlock != InBlock(block) || q.idx <= c.lastInsn || idx <= q.idx
      else c.prevBlock != InBlock(block) || idx <= c.lastInsn
  }

  lemma OnePhase(phs: seq<Phase>, ph: Phase, unoccupied: Mask, p: Pool, buf0: seq<nat>, fixups0: Lists)
    requires Fair(p)
    ensures Played(phs + [ph], unoccupied, p) == ActAll(ph.acts, Start(ph, unoccupied, Played(phs, unoccupied, p)))
    ensures buf0 + WordsIn(Acts(phs + [ph])) == buf0 + WordsIn(Acts(phs)) + WordsIn(ph.acts)
    ensures Appended(fixups0, Acts(phs + [ph])) == Appended(Appended(fixups0, Acts(phs)), ph.acts)
  {
    PlayedMore(phs, ph, unoccupied, p);
    ActsConcat(Acts(phs), ph.acts, p);
    AppendedConcat(fixups0, Acts(phs), ph.acts);
  }

  /** The phases of the dispatches, the run being what the first one left of it. */
  lemma DispatchesAre(q: Request, p: Plan, c: Cache, before: seq<Phase>)
    requires Possible(q, p) && c.run == 0
    ensures var w := p.work[q.idx];
      var ph := Phase(ActsAt(q.block, q.idx, w, c), q.stock, false);
      var run := Left(RunAt(q.block, q.idx, w, c), w.Ticks());
      && (w.Answer(q.idx).Consumed? <==> Emits(w.op))
      && (w.op == ARPL || !Emits(w.op) ==> before + Dispatches(q, p, c) == before + [ph])
      && (w.op != ARPL && Emits(w.op) ==>
            forall pins {:trigger Tail(p.work, q.stock, q.idx + w.consumed, run, pins)} ::
              (run > 0 ==> pins == w.pins) ==>
              before + Dispatches(q, p, c) == before + [ph] + Tail(p.work, q.stock, q.idx + w.consumed, run, pins))
  {
    RunsAreEmitted(p.work, q.idx);
  }

  /** What is still to come after the first dispatch, by the run it has left. */
  lemma AfterFirst(q: Request, p: Plan, c: Cache, before: seq<Phase>, reply: Reply, run: nat, pins: set<nat>)
    requires Possible(q, p) && c.run == 0 && reply == p.work[q.idx].Answer(q.idx)
    requires var w := p.work[q.idx];
      if reply.Consumed? && w.op != ARPL
      then run == Left(RunAt(q.block, q.idx, w, c), w.Ticks()) && (run > 0 ==> pins == w.pins)
      else run == 0
    ensures var done := before + [Phase(ActsAt(q.block, q.idx, p.work[q.idx], c), q.stock, false)];
      && (reply.Consumed? <==> Emits(p.work[q.idx].op))
      && (reply.ToStock? ==> done == before + Dispatches(q, p, c) && Latest(q, p, c) == q.idx)
      && (reply.Consumed? ==>
            && done + Tail(p.work, q.stock, reply.next, run, pins) == before + Dispatches(q, p, c)
            && TailEnd(p.work, reply.next, run) == End(q, p, c)
            && LastOf(Visits(p.work, reply.next, run), q.idx) == Latest(q, p, c))
  {
    DispatchesAre(q, p, c, before);
    NoTail(p.work, q.stock, q.idx + 1, pins);
  }

  lemma PhasesAre(q: Request, p: Plan, precise: bool, c: Cache)
    requires Possible(q, p)
    ensures Phases(q, p, precise, c) == Before(q, p, precise) + Dispatches(q, p, c)
      + if q.native && Emits(p.work[q.idx].op) then [Phase(p.leave, q.stock, true)] else []
  {
    assert Fits(p.work, q.idx);
  }

  /** With no run left nothing follows. */
  lemma NoTail(work: seq<Work>, stock: set<nat>, i: nat, pins: set<nat>)
    ensures Tail(work, stock, i, 0, pins) == [] && TailEnd(work, i, 0) == i && Visits(work, i, 0) == []
  {}

  lemma TailStep(work: seq<Work>, stock: set<nat>, i: nat, run: nat, ph: Phase, run': nat, pins: set<nat>)
    requires i < |work| && run > 0 && work[i].consumed > 0 && run' == Left(run, work[i].Ticks())
    requires run' > 0 ==> pins == work[i].pins
    ensures TailEnd(work, i, run) == TailEnd(work, i + work[i].consumed, run')
    ensures forall last :: LastOf(Visits(work, i, run), last) == LastOf(Visits(work, i + work[i].consumed, run'), i)
    ensures forall was :: ph == Phase(work[i].acts, stock - was, true) ==>
      Tail(work, stock, i, run, was) == [ph] + Tail(work, stock, i + work[i].consumed, run', pins)
  {}

  lemma SamePhases(q: Request, p: Plan, precise: bool, c: Cache, d: Cache)
    requires q.idx < |p.work| && d == c.(declined := d.declined)
    ensures Phases(q, p, precise, c) == Phases(q, p, precise, d) && End(q, p, c) == End(q, p, d)
    ensures Dispatches(q, p, c) == Dispatches(q, p, d) && Latest(q, p, c) == Latest(q, p, d)
  {}

  lemma CutBack(l: Lists, m: Lists, acts: seq<Act>)
    requires m == Appended(l, acts)
    ensures forall i :: 0 <= i < 6 ==> Counts(l)[i] <= |m[i]|
    ensures Cut(m, Counts(l)) == l
  {
    CutGrown(l, m);
  }

  datatype Entry = Entry(bufEnd: nat, fixupCount: seq<nat>, freeGpr: set<nat>, freeFpr: Mask, pinned: nat,
                         cache: Cache)

  class Result {
    var buf: seq<nat>
    var fixups: Lists
    var freeGpr: set<nat>
    var freeFpr: Mask
    var pinned: nat
    var failed: bool
    var cache: Cache
    const unoccupied: Mask

    /** Every register an emitter was ever given. */
    ghost var taken: set<nat>

    ghost predicate Valid()
      reads this
    {
      cache.run == 0 && taken <= SCRATCH
    }

    /** What the allocators work on. */
    function Pooled(): (p: Pool)
      reads this
    {
      Pool(freeGpr, freeFpr, pinned, failed)
    }

    constructor (stock: Mask, unoccupied: Mask)
      ensures Valid() && freeGpr == stock && cache.declined == Nowhere
    {
      buf, fixups, freeGpr, freeFpr, pinned, failed := [], seq(6, _ => []), stock, unoccupied, 0, false;
      cache := Cache(NoBlock, -1, -1, Nowhere, SCRATCH, 0, {});
      this.unoccupied := unoccupied;
      taken := {};
    }

    // ---- allocators ----

    method Allocate(wanted: nat)
      requires freeGpr <= SCRATCH && taken <= SCRATCH
      modifies this`freeGpr, this`taken, this`failed
      ensures freeGpr <= SCRATCH && taken <= SCRATCH
      ensures wanted in old(freeGpr) ==> freeGpr == old(freeGpr) - {wanted} && failed == old(failed)
      ensures wanted !in old(freeGpr) ==> freeGpr == old(freeGpr) && failed
    {
      if wanted in freeGpr {
        taken := taken + {wanted};
        freeGpr := freeGpr - {wanted};
      } else {
        failed := true;
      }
    }

    method AllocateFpr()
      requires freeGpr <= SCRATCH
      modifies this`freeFpr, this`failed
      ensures Pooled() == Act1(TakeFpr, old(Pooled()))
    {
      if freeFpr == {} {
        failed := true;
      } else {
        freeFpr := freeFpr - {Least1(freeFpr)};
      }
    }

    /** An emitter runs to its end even when an allocation fails: it is handed
        a placeholder and the failure is noted. */
    method Do(act: Act)
      requires freeGpr <= SCRATCH && taken <= SCRATCH
      modifies this`buf, this`fixups, this`freeGpr, this`freeFpr, this`pinned, this`failed, this`taken
      ensures taken <= SCRATCH && Pooled() == Act1(act, old(Pooled()))
      ensures buf == if act.Word? then old(buf) + [act.w] else old(buf)
      ensures fixups == if act.Fixup? && act.list < 6 then old(fixups)[act.list := old(fixups)[act.list] + [act.f]]
                        else old(fixups)
    {
      match act
      case Word(w) =>
        buf := buf + [w];
      case Fixup(list, f) =>
        if list < 6 {
          fixups := fixups[list := fixups[list] + [f]];
        }
      case TakeLowest =>
        if freeGpr == {} {
          failed := true;
        } else {
          Allocate(Least1(freeGpr));
        }
      case TakePool(reg) =>
        Allocate(reg);
      case Give(reg) =>
        if reg in SCRATCH {
          freeGpr := freeGpr + {reg};
        }
      case TakeFpr =>
        AllocateFpr();
      case GiveFpr(reg) =>
        if reg in UPPER {
          freeFpr := freeFpr + {reg};
        }
      case Pin(n) =>
        pinned := n;
    }

    /** What a list of acts has come to. */
    ghost predicate Did(acts: seq<Act>, buf0: seq<nat>, fixups0: Lists, pool: Pool)
      requires Fair(pool)
      reads this
    {
      buf == buf0 + WordsIn(acts) && fixups == Appended(fixups0, acts) && Pooled() == ActAll(acts, pool)
    }

    method DoAll(acts: seq<Act>)
      requires freeGpr <= SCRATCH && taken <= SCRATCH
      modifies this`buf, this`fixups, this`freeGpr, this`freeFpr, this`pinned, this`failed, this`taken
      ensures freeGpr <= SCRATCH && taken <= SCRATCH && Did(acts, old(buf), old(fixups), old(Pooled()))
    {
      ghost var buf0, fixups0, pool := buf, fixups, Pooled();
      NoActs(fixups);
      for i := 0 to |acts|
        invariant taken <= SCRATCH && freeGpr <= SCRATCH && Did(acts[..i], buf0, fixups0, pool)
      {
        DoNext(acts, i, buf0, fixups0, pool);
      }
      assert acts[..|acts|] == acts;
    }

    method DoNext(acts: seq<Act>, i: nat, ghost buf0: seq<nat>, ghost fixups0: Lists, ghost pool: Pool)
      requires i < |acts| && Fair(pool) && freeGpr <= SCRATCH && taken <= SCRATCH
      requires Did(acts[..i], buf0, fixups0, pool)
      modifies this`buf, this`fixups, this`freeGpr, this`freeFpr, this`pinned, this`failed, this`taken
      ensures freeGpr <= SCRATCH && taken <= SCRATCH && Did(acts[..i + 1], buf0, fixups0, pool)
    {
      assert acts[..i + 1] == acts[..i] + [acts[i]];
      ActsMore(acts[..i], acts[i], pool);
      AppendedMore(acts[..i], acts[i], fixups0);
      Do(acts[i]);
    }

    /** The probe and the layout conversions save stock's mask, work on the
        scratch pool and put the mask back. */
    method Boundary(acts: seq<Act>)
      requires taken <= SCRATCH
      modifies this`buf, this`fixups, this`freeGpr, this`freeFpr, this`pinned, this`failed, this`taken
      ensures freeGpr == old(freeGpr) && taken <= SCRATCH
      ensures buf == old(buf) + WordsIn(acts) && fixups == Appended(old(fixups), acts)
      ensures var p := ActAll(acts, old(Pooled()).(gpr := old(freeGpr) * SCRATCH));
        freeFpr == p.fpr && pinned == p.pinned && failed == p.out
    {
      var saved := freeGpr;
      freeGpr := freeGpr * SCRATCH;
      DoAll(acts);
      freeGpr := saved;
    }

    // ---- one instruction ----

    /** The prologue of translate_instruction_impl: a block change or a restart
        resets the cache, and stock's word is captured unless a run is open. */
    method Prologue(q: Request, idx: nat, work: seq<Work>, ghost stock: set<nat>)
      requires taken <= SCRATCH && idx < |work| && Fits(work, idx) && InRun(work, idx, cache.run)
      requires if cache.run == 0 then freeGpr == stock
        else cache.stockMask == stock && cache.prevBlock == InBlock(q.block) && cache.lastInsn < idx == cache.lastNext
      modifies this
      ensures taken <= SCRATCH && freeGpr <= SCRATCH && cache.stockMask == stock
      ensures Did(if Restarts(q.block, idx, old(cache)) then work[idx].bump else [], old(buf), old(fixups),
                  old(Pooled()).(gpr := old(freeGpr) * SCRATCH))
      ensures cache.prevBlock == InBlock(q.block) && cache.lastInsn == idx
      ensures InRun(work, idx, cache.run) && cache.run == RunAt(q.block, idx, work[idx], old(cache))
      ensures cache.declined == old(cache).declined
    {
      var w := work[idx];
      var same := cache.prevBlock == InBlock(q.block);
      var midspan := same && cache.run > 0 && cache.lastNext >= 0 && idx != cache.lastNext;
      if !same || idx <= cache.lastInsn || midspan {
        cache := cache.Released().(prevBlock := InBlock(q.block), stockMask := freeGpr, lastInsn := -1, lastNext := -1);
        freeGpr := freeGpr * SCRATCH;
        DoAll(w.bump);
      } else {
        if cache.run == 0 {
          cache := cache.(stockMask := freeGpr);
        }
        freeGpr := freeGpr * SCRATCH;
        NoActs(fixups);
      }
      cache := cache.(lastInsn := idx);
      if cache.run == 0 && w.run >= 2 {
        cache := cache.(run := w.run);
      }
    }

    /** The dispatch at one index, when the prologue is done. */
    ghost predicate Dispatched(q: Request, idx: nat, w: Work, c: Cache, buf0: seq<nat>, fixups0: Lists, pool: Pool)
      requires Fair(pool)
      reads this
    {
      && buf == buf0 + WordsIn(ActsAt(q.block, idx, w, c)) && fixups == Appended(fixups0, ActsAt(q.block, idx, w, c))
      && failed == ActAll(ActsAt(q.block, idx, w, c), pool).out
    }

    method Emitters(q: Request, idx: nat, w: Work, ghost c: Cache, ghost buf0: seq<nat>, ghost fixups0: Lists,
                    ghost pool: Pool)
      requires taken <= SCRATCH && freeGpr <= SCRATCH && Fair(pool)
      requires Did(if Restarts(q.block, idx, c) then w.bump else [], buf0, fixups0, pool)
      modifies this`buf, this`fixups, this`freeGpr, this`freeFpr, this`pinned, this`failed, this`taken
      ensures taken <= SCRATCH && Dispatched(q, idx, w, c, buf0, fixups0, pool)
    {
      ActsConcat(if Restarts(q.block, idx, c) then w.bump else [], w.acts, pool);
      AppendedConcat(fixups0, if Restarts(q.block, idx, c) then w.bump else [], w.acts);
      DoAll(w.acts);
    }

    /** translate_instruction_impl.  Whatever it does, it leaves with stock's
        word, less the registers an open run keeps. */
    method TranslateOne(q: Request, idx: nat, work: seq<Work>, ghost stock: set<nat>) returns (reply: Reply)
      requires taken <= SCRATCH && idx < |work| == q.num && Fits(work, idx) && InRun(work, idx, cache.run)
      requires if cache.run == 0 then freeGpr == stock
        else cache.stockMask == stock && cache.prevBlock == InBlock(q.block) && cache.lastInsn < idx == cache.lastNext
      modifies this
      ensures taken <= SCRATCH && cache.stockMask == stock && reply == work[idx].Answer(idx)
      ensures Dispatched(q, idx, work[idx], old(cache), old(buf), old(fixups),
                         old(Pooled()).(gpr := old(freeGpr) * SCRATCH))
      ensures cache.prevBlock == InBlock(q.block) && cache.lastInsn == idx && cache.declined == old(cache).declined
      ensures freeGpr == if reply.Consumed? && cache.run > 0 then stock - cache.pins else stock
      ensures reply.Consumed? ==> idx < reply.next && InRun(work, reply.next, cache.run)
      ensures reply.Consumed? && work[idx].op != ARPL ==>
        Ended(work[idx], RunAt(q.block, idx, work[idx], old(cache)))
      ensures reply.ToStock? || work[idx].op == ARPL ==> cache.run == 0 && old(cache).run == 0
    {
      RunsAreEmitted(work, idx);
      if cache.run > 0 {
        assert Counted(work[idx].op);
      }
      Prologue(q, idx, work, stock);
      Emitters(q, idx, work[idx], old(cache), old(buf), old(fixups), old(Pooled()).(gpr := old(freeGpr) * SCRATCH));
      if work[idx].op == ARPL {
        freeGpr := cache.stockMask;
        reply := Consumed(idx + 1);
      } else if work[idx].consumed == 0 {
        freeGpr := cache.stockMask;
        reply := ToStock;
      } else {
        EndOne(work[idx]);
        reply := Consumed(idx + work[idx].consumed);
      }
    }

    /** What is left of the run that was open, which registers it keeps, and the FP
        registers and pins anew. */
    predicate Ended(w: Work, run: nat)
      reads this
    {
      && cache.run == Left(run, w.Ticks()) && (cache.run > 0 ==> cache.pins == w.pins)
      && freeFpr == unoccupied && pinned == 0
    }

    /** The ticks and what the reply hands back. */
    method EndOne(w: Work)
      modifies this`cache, this`freeGpr, this`freeFpr, this`pinned
      ensures cache == if old(cache).run > w.Ticks() then old(cache).(run := old(cache).run - w.Ticks(), pins := w.pins)
        else old(cache).Released()
      ensures freeGpr == (if cache.run > 0 then cache.stockMask - cache.pins else cache.stockMask)
      ensures Ended(w, old(cache).run)
    {
      cache := if cache.run > w.Ticks() then cache.(run := cache.run - w.Ticks(), pins := w.pins) else cache.Released();
      freeGpr := if cache.run > 0 then cache.stockMask - cache.pins else cache.stockMask;
      freeFpr := unoccupied;
      pinned := 0;
    }

    // ---- a whole request ----

    method Capture() returns (e: Entry)
      ensures e == Entry(|buf|, Counts(fixups), freeGpr, freeFpr, pinned, cache)
    {
      e := Entry(|buf|, Counts(fixups), freeGpr, freeFpr, pinned, cache);
    }

    /** decline_after_alloc_failure. */
    method Undo(e: Entry, q: Request)
      requires e.bufEnd <= |buf| && |e.fixupCount| == 6
      requires forall i :: 0 <= i < 6 ==> e.fixupCount[i] <= |fixups[i]|
      modifies this`buf, this`fixups, this`freeGpr, this`freeFpr, this`pinned, this`cache
      ensures buf == old(buf)[..e.bufEnd] && fixups == Cut(old(fixups), e.fixupCount)
      ensures freeGpr == e.freeGpr && freeFpr == e.freeFpr && pinned == e.pinned
      ensures cache.run == 0 && cache.declined == At(q.block, q.idx, q.num, q.pc) && cache.lastNext == -1
      ensures cache.stockMask == e.cache.stockMask && cache.pins == {}
      ensures Undone(e.cache, cache, q)
    {
      buf := buf[..e.bufEnd];
      fixups := Cut(fixups, e.fixupCount);
      freeGpr, freeFpr, pinned := e.freeGpr, e.freeFpr, e.pinned;
      cache := e.cache.Released();
      if cache.prevBlock == InBlock(q.block) && q.idx <= cache.lastInsn {
        cache := cache.(prevBlock := NoBlock);
      }
      if cache.prevBlock == InBlock(q.block) {
        cache := cache.(lastInsn := q.idx);
      }
      cache := cache.(lastNext := -1, declined := At(q.block, q.idx, q.num, q.pc));
    }

    /** Where a request has come to, phase by phase. */
    ghost predicate Went(phs: seq<Phase>, buf0: seq<nat>, fixups0: Lists, pool: Pool)
      requires Fair(pool)
      reads this
    {
      && buf == buf0 + WordsIn(Acts(phs)) && fixups == Appended(fixups0, Acts(phs))
      && failed == Played(phs, unoccupied, pool).out
    }

    /** The driver loop: the rest of the run.  None of it is declined. */
    method Continue(q: Request, p: Plan, first: Reply, ghost stock: set<nat>, ghost done0: seq<Phase>,
                    ghost buf0: seq<nat>, ghost fixups0: Lists, ghost pool: Pool)
      returns (reply: Reply, ghost done: seq<Phase>)
      requires taken <= SCRATCH && Possible(q, p) && first.Consumed? && q.idx < first.next
      requires InRun(p.work, first.next, cache.run)
      requires cache.stockMask == stock && cache.prevBlock == InBlock(q.block) && 0 <= cache.lastInsn < first.next
      requires freeGpr == (if cache.run > 0 then stock - cache.pins else stock) && first.next <= q.num
      requires cache.run > 0 ==> freeFpr == unoccupied && pinned == 0
      requires Fair(pool) && Went(done0, buf0, fixups0, pool)
      modifies this
      ensures taken <= SCRATCH && reply.Consumed? && first.next <= reply.next <= q.num
      ensures cache.declined == old(cache).declined && Went(done, buf0, fixups0, pool)
      ensures old(cache).run == 0 ==> freeFpr == old(freeFpr) && pinned == old(pinned)
      ensures old(cache).run > 0 ==> freeFpr == unoccupied && pinned == 0
      ensures done <= done0 + Tail(p.work, stock, first.next, old(cache).run, old(cache).pins)
      ensures !failed ==>
        && cache.run == 0 && freeGpr == stock
        && done == done0 + Tail(p.work, stock, first.next, old(cache).run, old(cache).pins)
        && reply.next == TailEnd(p.work, first.next, old(cache).run)
        && cache.lastInsn == LastOf(Visits(p.work, first.next, old(cache).run), old(cache).lastInsn)
      ensures cache.prevBlock == InBlock(q.block)
    {
      reply, done := first, done0;
      while cache.run > 0 && reply.next < q.num && !failed
        invariant taken <= SCRATCH && reply.Consumed? && first.next <= reply.next <= q.num
        invariant InRun(p.work, reply.next, cache.run)
        invariant cache.stockMask == stock && cache.prevBlock == InBlock(q.block)
        invariant cache.run > 0 ==> cache.lastInsn < reply.next && freeFpr == unoccupied && pinned == 0
        invariant freeGpr == if cache.run > 0 then stock - cache.pins else stock
        invariant cache.declined == old(cache).declined && Went(done, buf0, fixups0, pool)
        invariant old(cache).run == 0 ==> cache.run == 0 && freeFpr == old(freeFpr) && pinned == old(pinned)
        invariant old(cache).run > 0 ==> freeFpr == unoccupied && pinned == 0
        invariant done + Tail(p.work, stock, reply.next, cache.run, cache.pins)
                  == done0 + Tail(p.work, stock, first.next, old(cache).run, old(cache).pins)
        invariant TailEnd(p.work, reply.next, cache.run) == TailEnd(p.work, first.next, old(cache).run)
        invariant cache.lastInsn >= 0 && LastOf(Visits(p.work, reply.next, cache.run), cache.lastInsn)
                                         == LastOf(Visits(p.work, first.next, old(cache).run), old(cache).lastInsn)
        decreases q.num - reply.next
      {
        reply, done := ContinueOne(q, p, reply.next, stock, done, buf0, fixups0, pool);
      }
    }

    method ContinueOne(q: Request, p: Plan, next: nat, ghost stock: set<nat>, ghost done0: seq<Phase>,
                       ghost buf0: seq<nat>, ghost fixups0: Lists, ghost pool: Pool)
      returns (reply: Reply, ghost done: seq<Phase>)
      requires taken <= SCRATCH && Possible(q, p) && !failed && next < q.num
      requires cache.run > 0 && InRun(p.work, next, cache.run) && freeFpr == unoccupied && pinned == 0
      requires cache.stockMask == stock && cache.prevBlock == InBlock(q.block) && cache.lastInsn < next
      requires freeGpr == stock - cache.pins && Fair(pool) && Went(done0, buf0, fixups0, pool)
      modifies this
      ensures taken <= SCRATCH && reply.Consumed? && next < reply.next <= q.num && freeFpr == unoccupied && pinned == 0
      ensures cache.stockMask == stock && cache.prevBlock == InBlock(q.block) && cache.lastInsn < reply.next
      ensures cache.declined == old(cache).declined && InRun(p.work, reply.next, cache.run)
      ensures freeGpr == if cache.run > 0 then stock - cache.pins else stock
      ensures Went(done, buf0, fixups0, pool)
      ensures done + Tail(p.work, stock, reply.next, cache.run, cache.pins)
              == done0 + Tail(p.work, stock, next, old(cache).run, old(cache).pins)
      ensures TailEnd(p.work, reply.next, cache.run) == TailEnd(p.work, next, old(cache).run)
      ensures cache.lastInsn == next
      ensures forall last :: LastOf(Visits(p.work, next, old(cache).run), last)
                             == LastOf(Visits(p.work, reply.next, cache.run), next)
    {
      ghost var w, run, ph := p.work[next], cache.run, Phase(p.work[next].acts, stock - cache.pins, true);
      RunsAreEmitted(p.work, next);
      OnePhase(done0, ph, unoccupied, pool, buf0, fixups0);
      reply := TranslateNext(q, next, p.work, stock);
      done := done0 + [ph];
      TailStep(p.work, stock, next, run, ph, cache.run, cache.pins);
      assert done + Tail(p.work, stock, reply.next, cache.run, cache.pins)
             == done0 + ([ph] + Tail(p.work, stock, reply.next, cache.run, cache.pins));
    }

    /** A dispatch inside an open run never begins anew. */
    method TranslateNext(q: Request, next: nat, work: seq<Work>, ghost stock: set<nat>) returns (reply: Reply)
      requires taken <= SCRATCH && next < |work| == q.num && Fits(work, next) && !failed
      requires cache.run > 0 && InRun(work, next, cache.run) && work[next].consumed > 0 && work[next].op != ARPL
      requires cache.stockMask == stock && cache.prevBlock == InBlock(q.block) && cache.lastInsn < next
      requires freeGpr == stock - cache.pins && freeFpr == unoccupied && pinned == 0
      modifies this
      ensures taken <= SCRATCH && reply == Consumed(next + work[next].consumed)
      ensures buf == old(buf) + WordsIn(work[next].acts) && fixups == Appended(old(fixups), work[next].acts)
      ensures failed == ActAll(work[next].acts, Pool((stock - old(cache).pins) * SCRATCH, unoccupied, 0, false)).out
      ensures cache.stockMask == stock && cache.prevBlock == InBlock(q.block) && cache.lastInsn == next
      ensures cache.declined == old(cache).declined && InRun(work, reply.next, cache.run)
      ensures freeGpr == (if cache.run > 0 then stock - cache.pins else stock) && Ended(work[next], old(cache).run)
    {
      cache := cache.(lastNext := next);
      assert ActsAt(q.block, next, work[next], cache) == work[next].acts;
      assert Pooled().(gpr := freeGpr * SCRATCH) == Pool((stock - old(cache).pins) * SCRATCH, unoccupied, 0, false);
      reply := TranslateOne(q, next, work, stock);
    }

    /** translate_instruction.  A failed request is a transaction: everything a
        request can change is as it was, and the rest of the block is declined.
        Whatever the reply, stock's register mask is the one it came with and
        the cache is released.  What it emits are the words of its phases, it
        fails exactly if one of them runs out of registers, and it consumes
        exactly what the dispatch has an emitter for. */
    method Translate(q: Request, p: Plan, precise: bool) returns (reply: Reply)
      requires Valid() && Possible(q, p) && (q.arpl ==> !q.native)
      requires freeGpr == q.stock
      modifies this
      ensures taken <= SCRATCH && (!reply.Abort? ==> Valid() && freeGpr == q.stock)
      ensures reply.Abort? <==> q.arpl && failed
      ensures !q.arpl && q.Follows(old(cache).declined) ==>
        reply == ToStock && !failed
        && SameButFrontier(old(buf), old(fixups), old(freeGpr), old(freeFpr), old(pinned), old(cache))
      ensures q.arpl || !q.Follows(old(cache).declined) ==>
        var phs := Phases(q, p, precise, old(cache));
        && failed == Played(phs, unoccupied, Pool({}, old(freeFpr), old(pinned), false)).out
        && (reply.Consumed? <==> !failed && Emits(p.work[q.idx].op))
        && (reply.Consumed? ==> reply.next == End(q, p, old(cache)))
        && (reply.Consumed? || (reply.ToStock? && !failed && !q.native) ==>
              buf == old(buf) + WordsIn(Acts(phs)) && fixups == Appended(old(fixups), Acts(phs)))
      ensures failed && !reply.Abort? ==>
        && reply == ToStock && buf == old(buf) && fixups == old(fixups) && freeGpr == old(freeGpr)
        && freeFpr == old(freeFpr) && pinned == old(pinned)
        && cache.declined == At(q.block, q.idx, q.num, q.pc) && Undone(old(cache), cache, q)
      ensures (q.arpl || !q.Follows(old(cache).declined)) && !failed ==> Onward(q, p, old(cache), reply)
      ensures !failed ==> cache.declined == if q.Follows(old(cache).declined) then old(cache).declined else Nowhere
      ensures q.native && reply.ToStock? ==> buf == old(buf) && fixups == old(fixups)
      ensures reply.Consumed? ==> q.idx < reply.next <= q.num && !failed
    {
      failed := false;
      if !q.Follows(cache.declined) {
        cache := cache.(declined := Nowhere);
      } else if !q.arpl {
        cache := cache.(lastNext := -1);
        return ToStock;
      }
      SamePhases(q, p, precise, old(cache), cache);
      reply := Transact(q, p, precise);
    }

    /** The attempt, and its undoing when it fails. */
    method Transact(q: Request, p: Plan, precise: bool) returns (reply: Reply)
      requires Valid() && Possible(q, p) && (q.arpl ==> !q.native) && freeGpr == q.stock && !failed
      modifies this
      ensures taken <= SCRATCH && (!reply.Abort? ==> Valid() && freeGpr == q.stock)
      ensures reply.Abort? <==> q.arpl && failed
      ensures var phs := Phases(q, p, precise, old(cache));
        && failed == Played(phs, unoccupied, Pool({}, old(freeFpr), old(pinned), false)).out
        && (reply.Consumed? <==> !failed && Emits(p.work[q.idx].op))
        && (reply.Consumed? ==> reply.next == End(q, p, old(cache)))
        && (reply.Consumed? || (reply.ToStock? && !failed && !q.native) ==>
              buf == old(buf) + WordsIn(Acts(phs)) && fixups == Appended(old(fixups), Acts(phs)))
      ensures failed && !reply.Abort? ==>
        && reply == ToStock && buf == old(buf) && fixups == old(fixups) && freeGpr == old(freeGpr)
        && freeFpr == old(freeFpr) && pinned == old(pinned)
        && cache.declined == At(q.block, q.idx, q.num, q.pc) && Undone(old(cache), cache, q)
      ensures !failed ==> cache.declined == old(cache).declined && Onward(q, p, old(cache), reply)
      ensures q.native && reply.ToStock? ==> buf == old(buf) && fixups == old(fixups)
      ensures reply.Consumed? ==> q.idx < reply.next <= q.num && !failed
    {
      var e := Capture();
      ghost var done, c, pool := [], cache, Pool({}, freeFpr, pinned, false);
      reply, done := Attempt(q, p, precise);
      if !failed && q.native && reply.Consumed? {
        done := LeaveNative(q, p, precise, done, old(buf), old(fixups), pool, c);
      }
      if failed {
        FailedPrefix(done, Phases(q, p, precise, c), unoccupied, pool);
        if q.arpl {
          return Abort;
        }
        UndoTo(e, q, done, old(buf), old(fixups), pool);
        return ToStock;
      }
      assert done == Phases(q, p, precise, c) by { PhasesAre(q, p, precise, c); }
      if q.native && !reply.Consumed? {
        DropCode(e, done, old(buf), old(fixups), pool);
      }
      cache := cache.(lastNext := if reply.Consumed? then reply.next else -1);
    }

    method UndoTo(e: Entry, q: Request, ghost done: seq<Phase>, ghost buf0: seq<nat>, ghost fixups0: Lists,
                  ghost pool: Pool)
      requires Fair(pool) && Went(done, buf0, fixups0, pool) && e.bufEnd == |buf0| && e.fixupCount == Counts(fixups0)
      modifies this`buf, this`fixups, this`freeGpr, this`freeFpr, this`pinned, this`cache
      ensures buf == buf0 && fixups == fixups0
      ensures freeGpr == e.freeGpr && freeFpr == e.freeFpr && pinned == e.pinned
      ensures cache.run == 0 && cache.declined == At(q.block, q.idx, q.num, q.pc) && Undone(e.cache, cache, q)
    {
      CutBack(fixups0, fixups, Acts(done));
      Undo(e, q);
    }

    /** Declined without a failure: the boundary is dropped, with its fixups. */
    method DropCode(e: Entry, ghost done: seq<Phase>, ghost buf0: seq<nat>, ghost fixups0: Lists, ghost pool: Pool)
      requires Fair(pool) && Went(done, buf0, fixups0, pool) && e.bufEnd == |buf0| && e.fixupCount == Counts(fixups0)
      modifies this`buf, this`fixups
      ensures buf == buf0 && fixups == fixups0
    {
      CutBack(fixups0, fixups, Acts(done));
      buf := buf[..e.bufEnd];
      fixups := Cut(fixups, e.fixupCount);
    }

    method LeaveNative(q: Request, p: Plan, precise: bool, ghost done0: seq<Phase>, ghost buf0: seq<nat>,
                       ghost fixups0: Lists, ghost pool: Pool, ghost c: Cache)
      returns (ghost done: seq<Phase>)
      requires taken <= SCRATCH && q.idx < |p.work| && q.native && !failed && freeGpr == q.stock
      requires freeFpr == unoccupied && pinned == 0 && p.work[q.idx].Answer(q.idx).Consumed?
      requires Fair(pool) && Went(done0, buf0, fixups0, pool)
      requires done0 == Before(q, p, precise) + Dispatches(q, p, c)
      modifies this`buf, this`fixups, this`freeGpr, this`freeFpr, this`pinned, this`failed, this`taken
      ensures taken <= SCRATCH && freeGpr == q.stock
      ensures Went(done, buf0, fixups0, pool) && done == Phases(q, p, precise, c)
    {
      ghost var ph := Phase(p.leave, q.stock, true);
      OnePhase(done0, ph, unoccupied, pool, buf0, fixups0);
      Boundary(p.leave);
      done := done0 + [ph];
    }

    /** What the next request goes by: the block, the last index dispatched, and
        where the reply ended. */
    ghost predicate Onward(q: Request, p: Plan, c: Cache, reply: Reply)
      requires q.idx < |p.work|
      reads this
    {
      && cache.prevBlock == InBlock(q.block) && cache.lastInsn == Latest(q, p, c)
      && cache.lastNext == if reply.Consumed? then reply.next else -1
    }

    ghost predicate SameButFrontier(buf0: seq<nat>, fixups0: Lists, gpr0: set<nat>, fpr0: set<nat>, pinned0: nat,
                                    cache0: Cache)
      reads this
    {
      && buf == buf0 && fixups == fixups0 && freeGpr == gpr0 && freeFpr == fpr0 && pinned == pinned0
      && cache == cache0.(lastNext := -1)
    }

    /** Entry code, the run, and the flush. */
    method Attempt(q: Request, p: Plan, precise: bool) returns (reply: Reply, ghost done: seq<Phase>)
      requires Valid() && Possible(q, p) && freeGpr == q.stock && !failed
      modifies this
      ensures taken <= SCRATCH && !reply.Abort?
      ensures cache.declined == old(cache).declined
      ensures !failed ==> cache.run == 0 && freeGpr == q.stock
      ensures reply.Consumed? ==> q.idx < reply.next <= q.num
      ensures Went(done, old(buf), old(fixups), Pool({}, old(freeFpr), old(pinned), false))
      ensures done <= Before(q, p, precise) + Dispatches(q, p, old(cache))
      ensures !failed ==>
        && done == Before(q, p, precise) + Dispatches(q, p, old(cache))
        && (reply.Consumed? <==> Emits(p.work[q.idx].op))
        && (reply.Consumed? ==> reply.next == End(q, p, old(cache)))
        && (reply.Consumed? && p.work[q.idx].op != ARPL ==> freeFpr == unoccupied && pinned == 0)
        && cache.prevBlock == InBlock(q.block) && cache.lastInsn == Latest(q, p, old(cache))
    {
      ghost var pool := Pool({}, freeFpr, pinned, false);
      done := EntryCode(q, p, precise);
      assert done <= Before(q, p, precise) + Dispatches(q, p, cache);
      if failed {
        return ToStock, done;
      }
      reply, done := Run(q, p, precise, done, old(buf), old(fixups), pool, old(cache));
    }

    method EntryCode(q: Request, p: Plan, precise: bool) returns (ghost done: seq<Phase>)
      requires taken <= SCRATCH && !failed && freeGpr == q.stock
      modifies this`buf, this`fixups, this`freeGpr, this`freeFpr, this`pinned, this`failed, this`taken
      ensures taken <= SCRATCH && freeGpr == q.stock && done == Before(q, p, precise)
      ensures Went(done, old(buf), old(fixups), Pool({}, old(freeFpr), old(pinned), false))
      ensures var r := Played(done, unoccupied, Pool({}, old(freeFpr), old(pinned), false));
        freeFpr == r.fpr && pinned == r.pinned
    {
      ghost var buf0, fixups0, pool := buf, fixups, Pool({}, freeFpr, pinned, false);
      done := [];
      NoActs(fixups);
      if q.native && precise {
        done := Convert(p.probe, q.stock, done, buf0, fixups0, pool);
      }
      if q.native {
        done := Convert(p.enter, q.stock, done, buf0, fixups0, pool);
      }
    }

    method Convert(acts: seq<Act>, ghost stock: set<nat>, ghost done0: seq<Phase>, ghost buf0: seq<nat>,
                   ghost fixups0: Lists, ghost pool: Pool)
      returns (ghost done: seq<Phase>)
      requires taken <= SCRATCH && freeGpr == stock && Fair(pool) && Went(done0, buf0, fixups0, pool)
      requires var r := Played(done0, unoccupied, pool); freeFpr == r.fpr && pinned == r.pinned
      modifies this`buf, this`fixups, this`freeGpr, this`freeFpr, this`pinned, this`failed, this`taken
      ensures taken <= SCRATCH && freeGpr == stock && done == done0 + [Phase(acts, stock, false)]
      ensures Went(done, buf0, fixups0, pool)
      ensures var r := Played(done, unoccupied, pool); freeFpr == r.fpr && pinned == r.pinned
    {
      ghost var ph := Phase(acts, stock, false);
      OnePhase(done0, ph, unoccupied, pool, buf0, fixups0);
      assert Pooled().(gpr := freeGpr * SCRATCH) == Start(ph, unoccupied, Played(done0, unoccupied, pool));
      Boundary(acts);
      done := done0 + [ph];
    }

    method Run(q: Request, p: Plan, precise: bool, ghost before: seq<Phase>, ghost buf0: seq<nat>, ghost fixups0: Lists,
               ghost pool: Pool, ghost c: Cache)
      returns (reply: Reply, ghost done: seq<Phase>)
      requires Valid() && Possible(q, p) && freeGpr == q.stock && !failed && cache == c
      requires Fair(pool) && before == Before(q, p, precise) && Went(before, buf0, fixups0, pool)
      requires var r := Played(before, unoccupied, pool); freeFpr == r.fpr && pinned == r.pinned
      modifies this
      ensures taken <= SCRATCH && !reply.Abort? && cache.declined == c.declined
      ensures !failed ==> cache.run == 0 && freeGpr == q.stock
      ensures reply.Consumed? ==> q.idx < reply.next <= q.num
      ensures Went(done, buf0, fixups0, pool) && done <= before + Dispatches(q, p, c)
      ensures !failed ==>
        && done == before + Dispatches(q, p, c)
        && (reply.Consumed? <==> Emits(p.work[q.idx].op))
        && (reply.Consumed? ==> reply.next == End(q, p, c))
        && (reply.Consumed? && p.work[q.idx].op != ARPL ==> freeFpr == unoccupied && pinned == 0)
        && cache.prevBlock == InBlock(q.block) && cache.lastInsn == Latest(q, p, c)
    {
      reply, done := First(q, p, before, buf0, fixups0, pool);
      if reply.Consumed? {
        reply, done := Continue(q, p, reply, q.stock, done, buf0, fixups0, pool);
      }
    }

    /** The first dispatch of a request. */
    method First(q: Request, p: Plan, ghost before: seq<Phase>, ghost buf0: seq<nat>, ghost fixups0: Lists,
                 ghost pool: Pool)
      returns (reply: Reply, ghost done: seq<Phase>)
      requires Valid() && Possible(q, p) && freeGpr == q.stock && !failed && Fair(pool)
      requires Went(before, buf0, fixups0, pool)
      requires var r := Played(before, unoccupied, pool); freeFpr == r.fpr && pinned == r.pinned
      modifies this
      ensures taken <= SCRATCH && reply == p.work[q.idx].Answer(q.idx) && cache.declined == old(cache).declined
      ensures cache.stockMask == q.stock && cache.prevBlock == InBlock(q.block) && cache.lastInsn == q.idx
      ensures Went(done, buf0, fixups0, pool)
      ensures freeGpr == if reply.Consumed? && cache.run > 0 then q.stock - cache.pins else q.stock
      ensures reply.Consumed? ==> q.idx < reply.next && InRun(p.work, reply.next, cache.run)
      ensures reply.Consumed? && p.work[q.idx].op != ARPL ==> freeFpr == unoccupied && pinned == 0
      ensures reply.ToStock? || p.work[q.idx].op == ARPL ==> cache.run == 0
      ensures reply.Consumed? <==> Emits(p.work[q.idx].op)
      ensures reply.ToStock? ==> done == before + Dispatches(q, p, old(cache))
      ensures reply.Consumed? ==>
        && done + Tail(p.work, q.stock, reply.next, cache.run, cache.pins) == before + Dispatches(q, p, old(cache))
        && TailEnd(p.work, reply.next, cache.run) == End(q, p, old(cache))
        && LastOf(Visits(p.work, reply.next, cache.run), q.idx) == Latest(q, p, old(cache))
      ensures reply.ToStock? ==> Latest(q, p, old(cache)) == q.idx
    {
      ghost var c := cache;
      reply, done := FirstAlone(q, p, before, buf0, fixups0, pool);
      AfterFirst(q, p, c, before, reply, cache.run, cache.pins);
    }

    method FirstAlone(q: Request, p: Plan, ghost before: seq<Phase>, ghost buf0: seq<nat>, ghost fixups0: Lists,
                      ghost pool: Pool)
      returns (reply: Reply, ghost done: seq<Phase>)
      requires Valid() && Possible(q, p) && freeGpr == q.stock && !failed && Fair(pool)
      requires Went(before, buf0, fixups0, pool)
      requires var r := Played(before, unoccupied, pool); freeFpr == r.fpr && pinned == r.pinned
      modifies this
      ensures taken <= SCRATCH && reply == p.work[q.idx].Answer(q.idx) && cache.declined == old(cache).declined
      ensures cache.stockMask == q.stock && cache.prevBlock == InBlock(q.block) && cache.lastInsn == q.idx
      ensures done == before + [Phase(ActsAt(q.block, q.idx, p.work[q.idx], old(cache)), q.stock, false)]
      ensures Went(done, buf0, fixups0, pool)
      ensures freeGpr == if reply.Consumed? && cache.run > 0 then q.stock - cache.pins else q.stock
      ensures reply.Consumed? ==> q.idx < reply.next && InRun(p.work, reply.next, cache.run)
      ensures reply.Consumed? && p.work[q.idx].op != ARPL ==>
        Ended(p.work[q.idx], RunAt(q.block, q.idx, p.work[q.idx], old(cache)))
      ensures reply.ToStock? || p.work[q.idx].op == ARPL ==> cache.run == 0
    {
      ghost var ph := Phase(ActsAt(q.block, q.idx, p.work[q.idx], cache), q.stock, false);
      OnePhase(before, ph, unoccupied, pool, buf0, fixups0);
      assert Pooled().(gpr := freeGpr * SCRATCH) == Start(ph, unoccupied, Played(before, unoccupied, pool));
      reply := TranslateOne(q, q.idx, p.work, q.stock);
      done := before + [ph];
    }

    /** Stock asks for one instruction after another and keeps its own mask in
        between.  Every reply gives it back the mask it came with. */
    method Serve(qs: seq<Request>, plans: seq<Plan>, precise: bool) returns (log: seq<Exchange>)
      requires Valid() && |qs| == |plans|
      requires forall i :: 0 <= i < |qs| ==> Possible(qs[i], plans[i]) && (qs[i].arpl ==> !qs[i].native)
      modifies this
      ensures |log| <= |qs| && Chained(log) && taken <= SCRATCH
      ensures forall i :: 0 <= i < |log| ==> log[i].q == qs[i] && Honest(log[i])
      ensures |log| < |qs| ==> |log| > 0 && log[|log| - 1].reply.Abort?
    {
      log := [];
      for n := 0 to |qs|
        invariant Valid() && |log| == n && Chained(log)
        invariant forall i :: 0 <= i < n ==> log[i].q == qs[i] && Honest(log[i])
        invariant n > 0 ==> log[n - 1].declined == cache.declined
      {
        freeGpr := qs[n].stock;
        var was, words, lists := cache.declined, buf, fixups;
        var reply := Translate(qs[n], plans[n], precise);
        var x := Exchange(qs[n], was, reply, failed, buf != words || fixups != lists, freeGpr, cache.declined);
        ChainedBy(log, x);
        log := log + [x];
        if reply.Abort? {
          return;
        }
      }
    }
  }

  /** One request as stock saw it: what the translator remembered before, the
      reply, whether code or fixups were added, the mask handed back, and what
      the translator remembers now. */
  datatype Exchange = Exchange(q: Request, was: Declined, reply: Reply, failed: bool, emitted: bool,
                               mask: set<nat>, declined: Declined)

  /** What Translate promises, as a relation. */
  ghost predicate Honest(x: Exchange) {
    x.reply.Abort? ||
    (&& x.mask == x.q.stock
     && (!x.q.arpl && x.q.Follows(x.was) ==> x.reply.ToStock? && !x.failed && !x.emitted)
     && (x.failed ==> x.reply.ToStock? && !x.emitted && x.declined == At(x.q.block, x.q.idx, x.q.num, x.q.pc))
     && (!x.failed ==> x.declined == if x.q.Follows(x.was) then x.was else Nowhere))
  }

  ghost predicate Chained(log: seq<Exchange>) {
    forall i :: 0 < i < |log| ==> log[i].was == log[i - 1].declined
  }

  lemma ChainedBy(log: seq<Exchange>, x: Exchange)
    requires Chained(log) && (|log| > 0 ==> x.was == log[|log| - 1].declined)
    ensures Chained(log + [x])
  {}

  /** After a request that ran out of registers, every later request that stays
      in its block, past its index and with the same shape, is declined with
      nothing emitted; only ARPL, which stock cannot translate, gets through. */
  lemma {:induction false} RestOfBlockDeclined(log: seq<Exchange>, i: nat, j: nat)
    requires i < j < |log| && Chained(log) && log[i].failed
    requires forall k :: i <= k <= j ==> Honest(log[k]) && !log[k].reply.Abort?
    requires forall k :: i < k <= j ==> log[k].q.Follows(log[i].declined) && (log[k].q.arpl ==> !log[k].failed)
    ensures log[j].was == log[j].declined == log[i].declined
    ensures !log[j].q.arpl ==> log[j].reply.ToStock? && !log[j].emitted && !log[j].failed
    decreases j - i
  {
    if j > i + 1 {
      RestOfBlockDeclined(log, i, j - 1);
    }
  }

  // ---- flush_run_and_release ----

  /** kGprScratchPool[0], [1], [6] hold the state's address, TOP and the slots'
      address while a run is open; [2] is the flush's own scratch register. */
  const PINNED: set<nat> := {22, 23, 28}

  const FLUSH_SCRATCH: nat := 24

  lemma Least(mask: set<nat>, start: nat)
    requires exists m :: m in mask && start <= m < 32
    ensures forall m :: m in mask && start <= m < 32 ==> Lowest(mask, start) <= m
    decreases 32 - start
  {
    if start !in mask {
      Least(mask, start + 1);
    }
  }

  /** The registers alloc_free_gpr hands out, n of them, from a mask. */
  function Handed(mask: set<nat>, n: nat): (r: seq<nat>)
  {
    if n == 0 || !(exists m :: m in mask && m < 32) then []
    else [Lowest(mask)] + Handed(mask - {Lowest(mask)}, n - 1)
  }

  /** The flush for a declined instruction runs on stock's whole word, in which
      the registers the run has pinned are free again.  It takes two registers
      for the deferred pops, gives back those of the scratch pool, and takes one
      for the pending tag. */
  function FlushTakes(stock: set<nat>, deferred: bool, pending: bool): (r: seq<nat>) {
    var mask := stock - {FLUSH_SCRATCH};
    var pops := if deferred then Handed(mask, 2) else [];
    var kept := set x | x in pops && x !in SCRATCH;
    pops + if pending then Handed(mask - kept, 1) else []
  }

  /** Every register it takes is a scratch register the run does not hold. */
  predicate Harmless(taken: seq<nat>) {
    forall k :: 0 <= k < |taken| ==> taken[k] in SCRATCH && taken[k] !in PINNED
  }

  /** The flush is harmless exactly when it needs no register: the lowest one
      free is either not a scratch register or the one that holds the state's
      address.  No request comes to it, since nothing counted is declined. */
  lemma FlushIsHarmless(stock: set<nat>, deferred: bool, pending: bool)
    requires PINNED <= stock
    ensures Harmless(FlushTakes(stock, deferred, pending)) <==> !deferred && !pending
  {
    var mask := stock - {FLUSH_SCRATCH};
    assert 22 in mask;
    Least(mask, 0);
    if deferred {
      assert FlushTakes(stock, deferred, pending)[0] == Lowest(mask) <= 22;
    } else if pending {
      var kept := set x | x in [] && x !in SCRATCH;
      assert mask - kept == mask;
      assert FlushTakes(stock, deferred, pending)[0] == Lowest(mask) <= 22;
    }
  }

  /** With register 3 free in stock's word the flush takes it; with only the
      scratch pool free it takes the registers of the state's address and of TOP. */
  lemma FlushTakesOthers()
    ensures var t := FlushTakes(SCRATCH + {3}, true, false); |t| > 0 && t[0] == 3
    ensures FlushTakes(SCRATCH, true, false) == [22, 23]
  {
    var a := SCRATCH + {3} - {FLUSH_SCRATCH};
    assert 3 in a;
    Least(a, 0);
    var b := SCRATCH - {FLUSH_SCRATCH};
    assert 22 in b;
    Least(b, 0);
    var c := b - {22};
    assert 23 in c;
    Least(c, 0);
    assert Handed(b, 2) == [22] + Handed(c, 1);
    assert Handed(c, 1) == [23] + Handed(c - {23}, 0);
  }
}
