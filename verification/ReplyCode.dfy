/** From flags to bits: every step of the deferred stack as instructions, and
    the code of whole replies on the status word, the tag word and the slots. */
module ReplyCode {
  import opened X87Stack
  import opened DeferredState
  import opened ArmCode
  import opened StackCode
  import opened SlotCode
  import opened PermFlush

  /** Beside the instructions of ArmCode: FP arithmetic, of which nothing is
      known but its operands, and what goes to the guest. */
  datatype Instr =
    | Core(i: Ins)
    | FpConst(r: Reg, v: Value)                // a guest load or a constant
    | FpOp(r: Reg, a: Reg, b: Reg, c: Reg, f: (Value, Value, Value) -> Value)
    | GiveValue(r: Reg)                        // a guest store
    | GiveStatus(rt: Reg)                      // the status word, of which TOP counts here
    | GiveTag(rt: Reg)

  datatype Full = Full(arm: Arm, out: seq<nat>)

  function ExecFull(i: Instr, s: Full): (s': Full) {
    match i
    case Core(ins) => s.(arm := ArmCode.Exec(ins, s.arm))
    case FpConst(r, v) => s.(arm := s.arm.(d := s.arm.d[r := v]))
    case FpOp(r, a, b, c, f) => s.(arm := s.arm.(d := s.arm.d[r := f(s.arm.d[a], s.arm.d[b], s.arm.d[c])]))
    case GiveValue(r) => s.(out := s.out + [s.arm.d[r]])
    case GiveStatus(rt) => s.(out := s.out + [Num(TopBits(s.arm.w[rt]))])
    case GiveTag(rt) => s.(out := s.out + [Num(s.arm.w[rt])])
  }

  function RunFull(code: seq<Instr>, s: Full): (s': Full)
    decreases |code|
  {
    if code == [] then s else ExecFull(code[|code| - 1], RunFull(code[..|code| - 1], s))
  }

  lemma FullStep(code: seq<Instr>, i: Instr, s: Full)
    ensures RunFull(code + [i], s) == ExecFull(i, RunFull(code, s))
  {
    assert (code + [i])[..|code + [i]| - 1] == code;
  }

  lemma FullOne(i: Instr, s: Full)
    ensures RunFull([i], s) == ExecFull(i, s)
  {
    assert [i][..0] == [];
  }

  lemma {:induction false} FullConcat(xs: seq<Instr>, ys: seq<Instr>, s: Full)
    ensures RunFull(xs + ys, s) == RunFull(ys, RunFull(xs, s))
    decreases |ys|
  {
    if ys == [] {
      assert xs + ys == xs;
    } else {
      var init, y := ys[..|ys| - 1], ys[|ys| - 1];
      assert xs + ys == (xs + init) + [y];
      FullConcat(xs, init, s);
      FullStep(xs + init, y, s);
    }
  }

  function Cores(code: seq<Ins>): (c: seq<Instr>)
    ensures |c| == |code|
  {
    seq(|code|, k requires 0 <= k < |code| => Core(code[k]))
  }

  lemma {:induction false} RunCores(code: seq<Ins>, s: Full)
    ensures RunFull(Cores(code), s) == s.(arm := ArmCode.Run(code, s.arm))
    decreases |code|
  {
    if code != [] {
      var init := code[..|code| - 1];
      RunCores(init, s);
      assert Cores(code)[..|code| - 1] == Cores(init);
    }
  }

  // ---- the code and the machine ----

  /** What the code must have in memory: everything; in registers: what is known. */
  ghost predicate Near(s: Full, m: Machine, native: bool, known: set<nat>) {
    && TopBits(s.arm.status) == Imm(m.memTop) && TagsAre(s.arm.tag, m.tags) && SlotsAre(native, s.arm.file, m.st)
    && s.out == m.out
    && forall r: nat {:trigger s.arm.d[r]} {:trigger m.fpr[r]} :: r < 32 && r in known ==> s.arm.d[r] == m.fpr[r]
  }

  ghost predicate Sim(s: Full, m: Machine, top: Reg, native: bool, t: Registers) {
    Near(s, m, native, t.known) && (t.loaded ==> s.arm.w[top] == Imm(m.regTop))
  }

  /** The code does the step, wherever the step finds what it needs, and leaves
      the other bits of the status word alone. */
  ghost predicate Does(code: seq<Instr>, step: Step, top: Reg, native: bool) {
    forall s: Full, m: Machine, t: Registers {:trigger DoesAt(code, step, top, native, s, m, t)} ::
      DoesAt(code, step, top, native, s, m, t)
  }

  ghost predicate DoesAt(code: seq<Instr>, step: Step, top: Reg, native: bool, s: Full, m: Machine, t: Registers) {
    Sim(s, m, top, native, t) && TrackStep(step, t).ok ==>
      && Sim(RunFull(code, s), DeferredState.Exec(step, m), top, native, TrackStep(step, t))
      && OtherBits(RunFull(code, s).arm.status) == OtherBits(s.arm.status)
  }

  /** With the code's own FP registers in place of the machine's, the state is
      shown exactly. */
  lemma SimShows(s: Full, m: Machine, top: Reg, native: bool, t: Registers)
    requires Sim(s, m, top, native, t) && t.loaded
    ensures Shows(s.arm, top, native, m.(fpr := s.arm.d))
  {}

  /** Steps that touch no FP register. */
  predicate Plain(step: Step) {
    step.StoreTop? || step.AddTop? || step.TagValidTop? || step.TagEmptyBelow? || step.TagEmptyFrom? || step.TagEmptyAt?
  }

  lemma PlainExec(step: Step, m: Machine, d: seq<Value>)
    requires Plain(step) && |d| == 32
    ensures DeferredState.Exec(step, m.(fpr := d)) == DeferredState.Exec(step, m).(fpr := d)
    ensures DeferredState.Exec(step, m).fpr == m.fpr && DeferredState.Exec(step, m).out == m.out
  {}

  lemma PlainDoes(core: seq<Ins>, step: Step, top: Reg, native: bool)
    requires Plain(step) && Means(core, top, native, [step])
    ensures Does(Cores(core), step, top, native)
  {
    forall s: Full, m: Machine, t: Registers ensures DoesAt(Cores(core), step, top, native, s, m, t) {
      if Sim(s, m, top, native, t) && TrackStep(step, t).ok {
        var n := m.(fpr := s.arm.d);
        RunCores(core, s);
        SimShows(s, m, top, native, t);
        OneStep(step, n);
        PlainExec(step, m, s.arm.d);
        assert Refines(s.arm, ArmCode.Run(core, s.arm), top, native, n, DeferredState.Run([step], n));
      }
    }
  }

  lemma LoadDoes(top: Reg, d: Index, tmp: Reg, r: Reg, native: bool, cached: bool)
    requires top != tmp
    ensures Does(Cores(LoadCode(native, cached, top, d, tmp, r)), LoadSt(d, r), top, native)
  {
    var core := LoadCode(native, cached, top, d, tmp, r);
    Loaded(top, d, tmp, r, native, cached);
    forall s: Full, m: Machine, t: Registers ensures DoesAt(Cores(core), LoadSt(d, r), top, native, s, m, t) {
      if Sim(s, m, top, native, t) && TrackStep(LoadSt(d, r), t).ok {
        var n := m.(fpr := s.arm.d);
        RunCores(core, s);
        SimShows(s, m, top, native, t);
        OneStep(LoadSt(d, r), n);
        assert Refines(s.arm, ArmCode.Run(core, s.arm), top, native, n, DeferredState.Run([LoadSt(d, r)], n));
      }
    }
  }

  lemma StoreDoes(top: Reg, d: Index, tmp: Reg, r: Reg, native: bool, cached: bool)
    requires top != tmp
    ensures Does(Cores(StoreCode(native, cached, top, d, tmp, r)), StoreSt(d, r), top, native)
  {
    var core := StoreCode(native, cached, top, d, tmp, r);
    Stored(top, d, tmp, r, native, cached);
    forall s: Full, m: Machine, t: Registers ensures DoesAt(Cores(core), StoreSt(d, r), top, native, s, m, t) {
      if Sim(s, m, top, native, t) && TrackStep(StoreSt(d, r), t).ok {
        var n := m.(fpr := s.arm.d);
        RunCores(core, s);
        SimShows(s, m, top, native, t);
        OneStep(StoreSt(d, r), n);
        assert Refines(s.arm, ArmCode.Run(core, s.arm), top, native, n, DeferredState.Run([StoreSt(d, r)], n));
      }
    }
  }

  // ---- the steps one by one ----

  /** The GPRs of a reply: the one that holds TOP and the emitters' scratch. */
  datatype Gprs = Gprs(top: Reg, t1: Reg, t2: Reg, tw: Reg)
  {
    predicate Distinct() {
      top != t1 && top != t2 && top != tw && t1 != t2 && t1 != tw && t2 != tw
    }
  }

  function LoadTopCode(top: Reg): (c: seq<Ins>) {
    [LdrhStatus(top), Set(top, Ubfm(top, 11, 13))]
  }

  lemma TopLoaded(a: Arm, top: Reg)
    ensures ArmCode.Run(LoadTopCode(top), a) == a.(w := a.w[top := TopBits(a.status)])
  {
    TopOf(a.status);
    var w1 := a.w[top := a.status as bv32];
    assert w1[top := TopBits(a.status)] == a.w[top := TopBits(a.status)];
    Run2(LdrhStatus(top), Set(top, Ubfm(top, 11, 13)), a);
  }

  /** emit_load_top: whatever the register held. */
  lemma LoadTopDoes(top: Reg, native: bool)
    ensures Does(Cores(LoadTopCode(top)), LoadTop, top, native)
  {
    forall s: Full, m: Machine, t: Registers ensures DoesAt(Cores(LoadTopCode(top)), LoadTop, top, native, s, m, t) {
      RunCores(LoadTopCode(top), s);
      TopLoaded(s.arm, top);
    }
  }

  function AddTopCode(top: Reg, delta: int): (c: seq<Ins>) {
    if delta >= 0 then TurnCode(top, AddImm(top, Imm(delta))) else TurnCode(top, SubImm(top, Imm(-delta)))
  }

  lemma AddTopDoes(top: Reg, delta: int, native: bool)
    ensures Does(Cores(AddTopCode(top, delta)), AddTop(delta), top, native)
  {
    if delta >= 0 {
      TopUp(top, native, delta);
    } else {
      TopDown(top, native, -delta);
    }
    PlainDoes(AddTopCode(top, delta), AddTop(delta), top, native);
  }

  lemma FetchDoes(top: Reg, r: Reg, v: Value, native: bool)
    ensures Does([FpConst(r, v)], Fetch(r, v), top, native)
  {
    forall s: Full, m: Machine, t: Registers ensures DoesAt([FpConst(r, v)], Fetch(r, v), top, native, s, m, t) {
      FullOne(FpConst(r, v), s);
    }
  }

  lemma ComputeDoes(top: Reg, step: Step, native: bool)
    requires step.Compute?
    ensures Does([FpOp(step.r, step.a, step.b, step.c, step.f)], step, top, native)
  {
    var i := FpOp(step.r, step.a, step.b, step.c, step.f);
    forall s: Full, m: Machine, t: Registers ensures DoesAt([i], step, top, native, s, m, t) {
      FullOne(i, s);
    }
  }

  lemma DeliverDoes(top: Reg, r: Reg, native: bool)
    ensures Does([GiveValue(r)], Deliver(r), top, native)
  {
    forall s: Full, m: Machine, t: Registers ensures DoesAt([GiveValue(r)], Deliver(r), top, native, s, m, t) {
      FullOne(GiveValue(r), s);
    }
  }

  /** fstsw: the status word as it is in memory. */
  lemma StatusDoes(top: Reg, tmp: Reg, native: bool)
    requires top != tmp
    ensures Does([Core(LdrhStatus(tmp)), GiveStatus(tmp)], StoreStatus, top, native)
  {
    var code := [Core(LdrhStatus(tmp)), GiveStatus(tmp)];
    forall s: Full, m: Machine, t: Registers ensures DoesAt(code, StoreStatus, top, native, s, m, t) {
      assert code == [Core(LdrhStatus(tmp))] + [GiveStatus(tmp)];
      FullOne(Core(LdrhStatus(tmp)), s);
      FullStep([Core(LdrhStatus(tmp))], GiveStatus(tmp), s);
      if Sim(s, m, top, native, t) {
        NumImm(m.memTop);
      }
    }
  }

  lemma NumImm(n: nat)
    requires n < 8
    ensures Num(Imm(n)) == n
  {
    ImmSmall(n);
    if Num(Imm(n)) < n {
      ImmDiffer(Num(Imm(n)), n);
    } else if n < Num(Imm(n)) {
      ImmDiffer(n, Num(Imm(n)));
    }
  }

  /** fxam looks at the tag of ST(0): the tag word shifted right by twice TOP. */
  function TagOfTop(top: Reg, t1: Reg, t2: Reg): (c: seq<Ins>) {
    [LdrhTag(t1), Set(t2, Ubfm(top, 31, 30))] + [Set(t1, Lsrv(t1, t2)), Set(t1, AndImm(t1, 1))]
  }

  /** Only the two scratch registers change. */
  ghost predicate Quiet(a: Arm, b: Arm, top: Reg) {
    b.status == a.status && b.tag == a.tag && b.file == a.file && b.d == a.d && b.w[top] == a.w[top]
  }

  lemma TagLoaded(a: Arm, top: Reg, t1: Reg, t2: Reg)
    requires top != t1 && top != t2 && t1 != t2 && a.w[top] < 8
    ensures var b := ArmCode.Run([LdrhTag(t1), Set(t2, Ubfm(top, 31, 30))], a);
      Quiet(a, b, top) && b.w[t1] == a.tag && b.w[t2] == a.w[top] << 1
  {
    Run2(LdrhTag(t1), Set(t2, Ubfm(top, 31, 30)), a);
    Doubled(a.w[top]);
  }

  lemma TagShifted(a: Arm, top: Reg, t1: Reg, t2: Reg)
    requires top != t1 && top != t2 && t1 != t2
    ensures var b := ArmCode.Run([Set(t1, Lsrv(t1, t2)), Set(t1, AndImm(t1, 1))], a);
      Quiet(a, b, top) && b.w[t1] == MaskTo(ShiftRight(a.w[t1], a.w[t2]), 1)
  {
    var v := ShiftRight(a.w[t1], a.w[t2]);
    var a1 := a.(w := a.w[t1 := v]);
    assert ArmCode.Exec(Set(t1, Lsrv(t1, t2)), a) == a1;
    assert ArmCode.Exec(Set(t1, AndImm(t1, 1)), a1) == a1.(w := a1.w[t1 := MaskTo(v, 1)]);
    Run2(Set(t1, Lsrv(t1, t2)), Set(t1, AndImm(t1, 1)), a);
  }

  lemma TagOfTopEffect(a: Arm, top: Reg, t1: Reg, t2: Reg)
    requires top != t1 && top != t2 && t1 != t2 && a.w[top] < 8
    ensures var b := ArmCode.Run(TagOfTop(top, t1, t2), a);
      Quiet(a, b, top) && b.w[t1] == TagBits(a.tag, a.w[top])
  {
    var c1, c2 := [LdrhTag(t1), Set(t2, Ubfm(top, 31, 30))], [Set(t1, Lsrv(t1, t2)), Set(t1, AndImm(t1, 1))];
    RunConcat(c1, c2, a);
    TagLoaded(a, top, t1, t2);
    TagShifted(ArmCode.Run(c1, a), top, t1, t2);
    TwoBits(ShiftRight(a.tag, a.w[top] << 1));
  }

  lemma Doubled(k: bv32)
    requires k < 8
    ensures UbfmOf(k, 31, 30) == k << 1
  {
    assert Low(31) == 0x7FFFFFFF;
  }

  lemma TwoBits(x: bv32)
    ensures MaskTo(x, 1) == x & 3
  {
    assert Low(2) == 3;
  }

  lemma TagDoes(top: Reg, t1: Reg, t2: Reg, native: bool)
    requires top != t1 && top != t2 && t1 != t2
    ensures Does(Cores(TagOfTop(top, t1, t2)) + [GiveTag(t1)], StoreTag, top, native)
  {
    var code := Cores(TagOfTop(top, t1, t2)) + [GiveTag(t1)];
    forall s: Full, m: Machine, t: Registers ensures DoesAt(code, StoreTag, top, native, s, m, t) {
      if Sim(s, m, top, native, t) && t.loaded {
        TagDoesAt(s, m, top, t1, t2, native, t.known);
      }
    }
  }

  lemma TagDoesAt(s: Full, m: Machine, top: Reg, t1: Reg, t2: Reg, native: bool, known: set<nat>)
    requires top != t1 && top != t2 && t1 != t2
    requires Near(s, m, native, known) && s.arm.w[top] == Imm(m.regTop)
    ensures var s' := RunFull(Cores(TagOfTop(top, t1, t2)) + [GiveTag(t1)], s);
      && Near(s', DeferredState.Exec(StoreTag, m), native, known) && s'.arm.w[top] == Imm(m.regTop)
      && s'.arm.status == s.arm.status
  {
    var core := TagOfTop(top, t1, t2);
    FullStep(Cores(core), GiveTag(t1), s);
    RunCores(core, s);
    TagGiven(s.arm, m, top, t1, t2);
  }

  lemma TagGiven(a: Arm, m: Machine, top: Reg, t1: Reg, t2: Reg)
    requires top != t1 && top != t2 && t1 != t2 && a.w[top] == Imm(m.regTop) && TagsAre(a.tag, m.tags)
    ensures var b := ArmCode.Run(TagOfTop(top, t1, t2), a);
      Quiet(a, b, top) && Num(b.w[t1]) == X87Stack.TagCode(m.tags[m.regTop])
  {
    ImmSmall(m.regTop);
    TagOfTopEffect(a, top, t1, t2);
    FieldIs(a.tag, m.regTop);
    assert TagBits(a.tag, Imm(m.regTop)) == TagCodeBits(m.tags[m.regTop]);
    TagNumber(m.tags[m.regTop]);
  }

  lemma TagNumber(t: Tag)
    ensures Num(TagCodeBits(t)) == X87Stack.TagCode(t)
  {}

  // ---- exchanges ----

  /** fxch in memory: both registers loaded, both stored. */
  function SwapCode(g: Gprs, d: Index, a: Reg, b: Reg, native: bool, cached: bool): (c: seq<Instr>) {
    Cores(LoadCode(native, cached, g.top, 0, g.t1, a)) + Cores(LoadCode(native, cached, g.top, d, g.t1, b))
    + Cores(StoreCode(native, cached, g.top, d, g.t1, a)) + Cores(StoreCode(native, cached, g.top, 0, g.t1, b))
  }

  /** Code for two steps after one another. */
  lemma DoesThen(xs: seq<Instr>, ys: seq<Instr>, p: Step, q: Step, top: Reg, native: bool, s: Full, m: Machine,
                 t: Registers)
    requires Does(xs, p, top, native) && Does(ys, q, top, native)
    requires Sim(s, m, top, native, t) && TrackStep(q, TrackStep(p, t)).ok
    ensures var s' := RunFull(xs + ys, s);
      && Sim(s', DeferredState.Exec(q, DeferredState.Exec(p, m)), top, native, TrackStep(q, TrackStep(p, t)))
      && OtherBits(s'.arm.status) == OtherBits(s.arm.status)
  {
    FullConcat(xs, ys, s);
    assert DoesAt(xs, p, top, native, s, m, t);
    assert DoesAt(ys, q, top, native, RunFull(xs, s), DeferredState.Exec(p, m), TrackStep(p, t));
  }

  lemma SwapDoes(g: Gprs, d: Index, a: Reg, b: Reg, native: bool, cached: bool)
    requires g.Distinct()
    ensures Does(SwapCode(g, d, a, b, native, cached), SwapSt(d, a, b), g.top, native)
  {
    var code := SwapCode(g, d, a, b, native, cached);
    forall s: Full, m: Machine, t: Registers ensures DoesAt(code, SwapSt(d, a, b), g.top, native, s, m, t) {
      if Sim(s, m, g.top, native, t) && TrackStep(SwapSt(d, a, b), t).ok {
        SwapDoesAt(g, d, a, b, native, cached, s, m, t);
      }
    }
  }

  lemma SwapDoesAt(g: Gprs, d: Index, a: Reg, b: Reg, native: bool, cached: bool, s: Full, m: Machine, t: Registers)
    requires g.Distinct() && Sim(s, m, g.top, native, t) && TrackStep(SwapSt(d, a, b), t).ok
    ensures DoesAt(SwapCode(g, d, a, b, native, cached), SwapSt(d, a, b), g.top, native, s, m, t)
  {
    var m2 := DeferredState.Exec(LoadSt(d, b), DeferredState.Exec(LoadSt(0, a), m));
    var m4 := DeferredState.Exec(StoreSt(0, b), DeferredState.Exec(StoreSt(d, a), m2));
    var t2 := TrackStep(LoadSt(d, b), TrackStep(LoadSt(0, a), t));
    var s' := RunFull(SwapCode(g, d, a, b, native, cached), s);
    SwapHalves(g, d, a, b, native, cached, s, m, m2, t, t2);
    SwapInSteps(m, d, a, b);
    SwapSim(s', m, m4, g.top, native, t, t2, d, a, b);
  }

  /** The two loads, then the two stores. */
  lemma SwapHalves(g: Gprs, d: Index, a: Reg, b: Reg, native: bool, cached: bool, s: Full, m: Machine, m2: Machine,
                   t: Registers, t2: Registers)
    requires g.Distinct() && Sim(s, m, g.top, native, t) && t.ok && t.loaded
    requires m2 == DeferredState.Exec(LoadSt(d, b), DeferredState.Exec(LoadSt(0, a), m))
    requires t2 == TrackStep(LoadSt(d, b), TrackStep(LoadSt(0, a), t))
    ensures var s' := RunFull(SwapCode(g, d, a, b, native, cached), s);
      && Sim(s', DeferredState.Exec(StoreSt(0, b), DeferredState.Exec(StoreSt(d, a), m2)), g.top, native, t2)
      && OtherBits(s'.arm.status) == OtherBits(s.arm.status)
  {
    var l, st := Loads(g, d, a, b, native, cached), Stores(g, d, a, b, native, cached);
    LoadsDo(g, d, a, b, native, cached, s, m, t);
    StoresDo(g, d, a, b, native, cached, RunFull(l, s), m2, t2);
    FullConcat(l, st, s);
    assert SwapCode(g, d, a, b, native, cached) == l + st;
  }

  function Loads(g: Gprs, d: Index, a: Reg, b: Reg, native: bool, cached: bool): (c: seq<Instr>) {
    Cores(LoadCode(native, cached, g.top, 0, g.t1, a)) + Cores(LoadCode(native, cached, g.top, d, g.t1, b))
  }

  function Stores(g: Gprs, d: Index, a: Reg, b: Reg, native: bool, cached: bool): (c: seq<Instr>) {
    Cores(StoreCode(native, cached, g.top, d, g.t1, a)) + Cores(StoreCode(native, cached, g.top, 0, g.t1, b))
  }

  lemma LoadsDo(g: Gprs, d: Index, a: Reg, b: Reg, native: bool, cached: bool, s: Full, m: Machine, t: Registers)
    requires g.Distinct() && Sim(s, m, g.top, native, t) && t.ok && t.loaded
    ensures var s' := RunFull(Loads(g, d, a, b, native, cached), s);
      && Sim(s', DeferredState.Exec(LoadSt(d, b), DeferredState.Exec(LoadSt(0, a), m)), g.top, native,
             TrackStep(LoadSt(d, b), TrackStep(LoadSt(0, a), t)))
      && OtherBits(s'.arm.status) == OtherBits(s.arm.status)
  {
    LoadDoes(g.top, 0, g.t1, a, native, cached);
    LoadDoes(g.top, d, g.t1, b, native, cached);
    DoesThen(Cores(LoadCode(native, cached, g.top, 0, g.t1, a)), Cores(LoadCode(native, cached, g.top, d, g.t1, b)),
             LoadSt(0, a), LoadSt(d, b), g.top, native, s, m, t);
  }

  lemma StoresDo(g: Gprs, d: Index, a: Reg, b: Reg, native: bool, cached: bool, s: Full, m: Machine, t: Registers)
    requires g.Distinct() && Sim(s, m, g.top, native, t) && t.ok && t.loaded && a in t.known && b in t.known
    ensures var s' := RunFull(Stores(g, d, a, b, native, cached), s);
      && Sim(s', DeferredState.Exec(StoreSt(0, b), DeferredState.Exec(StoreSt(d, a), m)), g.top, native, t)
      && OtherBits(s'.arm.status) == OtherBits(s.arm.status)
  {
    StoreDoes(g.top, d, g.t1, a, native, cached);
    StoreDoes(g.top, 0, g.t1, b, native, cached);
    DoesThen(Cores(StoreCode(native, cached, g.top, d, g.t1, a)), Cores(StoreCode(native, cached, g.top, 0, g.t1, b)),
             StoreSt(d, a), StoreSt(0, b), g.top, native, s, m, t);
  }

  lemma SwapSim(s: Full, m: Machine, m4: Machine, top: Reg, native: bool, t: Registers, t2: Registers, d: Index, a: Reg,
                b: Reg)
    requires Sim(s, m4, top, native, t2) && t2.loaded && t.known <= t2.known
    requires m4.(fpr := m.fpr) == DeferredState.Exec(SwapSt(d, a, b), m)
    requires forall r: nat {:trigger m4.fpr[r]} :: r < 32 && r != a && r != b ==> m4.fpr[r] == m.fpr[r]
    ensures Sim(s, DeferredState.Exec(SwapSt(d, a, b), m), top, native, TrackStep(SwapSt(d, a, b), t))
  {}

  lemma SwapInSteps(m: Machine, d: Index, a: Reg, b: Reg)
    requires a != b
    ensures var m2 := DeferredState.Exec(LoadSt(d, b), DeferredState.Exec(LoadSt(0, a), m));
      var m4 := DeferredState.Exec(StoreSt(0, b), DeferredState.Exec(StoreSt(d, a), m2));
      && m4.(fpr := m.fpr) == DeferredState.Exec(SwapSt(d, a, b), m)
      && forall r: nat {:trigger m4.fpr[r]} :: r < 32 && r != a && r != b ==> m4.fpr[r] == m.fpr[r]
  {
    var m2 := DeferredState.Exec(LoadSt(d, b), DeferredState.Exec(LoadSt(0, a), m));
    assert m2.fpr[a] == m.st[Slot(m.regTop, 0)] && m2.fpr[b] == m.st[Slot(m.regTop, d)];
    var m4 := DeferredState.Exec(StoreSt(0, b), DeferredState.Exec(StoreSt(d, a), m2));
    assert m4.st == Swap(m.st, Slot(m.regTop, 0), Slot(m.regTop, d));
  }

  /** A flushed permutation.  Nothing is asked of one that is given a single
      register. */
  method LowerPerm(g: Gprs, perm: Perm, save: Reg, chain: Reg, native: bool, cached: bool) returns (code: seq<Instr>)
    requires g.Distinct()
    ensures Does(code, Permute(perm, save, chain), g.top, native)
  {
    if save == chain {
      return [];
    }
    var arm := PermFlushCode(perm, save, chain, g.top, g.t1, native, cached);
    code := Cores(arm);
    forall s: Full, m: Machine, t: Registers ensures DoesAt(code, Permute(perm, save, chain), g.top, native, s, m, t) {
      if Sim(s, m, g.top, native, t) && TrackStep(Permute(perm, save, chain), t).ok {
        var n := m.(fpr := s.arm.d);
        RunCores(arm, s);
        SimShows(s, m, g.top, native, t);
        assert Rearranged(s.arm, ArmCode.Run(arm, s.arm), perm, save, chain, g.top, native, n);
      }
    }
  }

  // ---- every step ----

  /** What the IR emits for the regions of a buffer does them.  Its code is not
      part of this translator's own and nothing else is known of it. */
  ghost predicate IrDoes(buf: seq<Step>, ir: seq<Op> -> seq<Instr>, top: Reg, native: bool) {
    forall k :: 0 <= k < |buf| && buf[k].Region? ==> Does(ir(buf[k].ops), buf[k], top, native)
  }

  /** `stock` is the code that stock puts after a reply. */
  method LowerStep(step: Step, g: Gprs, native: bool, cached: bool, ir: seq<Op> -> seq<Instr>, stock: seq<Instr>)
    returns (code: seq<Instr>)
    requires g.Distinct() && Does(stock, Leave, g.top, native)
    ensures if step.Region? then code == ir(step.ops) else Does(code, step, g.top, native)
  {
    match step
    case LoadTop =>
      code := Cores(LoadTopCode(g.top));
      LoadTopDoes(g.top, native);
    case StoreTop => code := LowerPlain(step, g, native);
    case AddTop(delta) =>
      code := Cores(AddTopCode(g.top, delta));
      AddTopDoes(g.top, delta, native);
    case TagValidTop => code := LowerPlain(step, g, native);
    case TagEmptyBelow(_) => code := LowerPlain(step, g, native);
    case TagEmptyFrom(_) => code := LowerPlain(step, g, native);
    case TagEmptyAt(_) => code := LowerPlain(step, g, native);
    case Permute(perm, save, chain) => code := LowerPerm(g, perm, save, chain, native, cached);
    case LoadSt(d, r) =>
      code := Cores(LoadCode(native, cached, g.top, d, g.t1, r));
      LoadDoes(g.top, d, g.t1, r, native, cached);
    case StoreSt(d, r) =>
      code := Cores(StoreCode(native, cached, g.top, d, g.t1, r));
      StoreDoes(g.top, d, g.t1, r, native, cached);
    case Fetch(r, v) =>
      code := [FpConst(r, v)];
      FetchDoes(g.top, r, v, native);
    case Compute(r, a, b, c, f) =>
      code := [FpOp(r, a, b, c, f)];
      ComputeDoes(g.top, step, native);
    case Deliver(r) =>
      code := [GiveValue(r)];
      DeliverDoes(g.top, r, native);
    case SwapSt(d, a, b) =>
      code := SwapCode(g, d, a, b, native, cached);
      SwapDoes(g, d, a, b, native, cached);
    case StoreStatus =>
      code := [Core(LdrhStatus(g.t1)), GiveStatus(g.t1)];
      StatusDoes(g.top, g.t1, native);
    case StoreTag =>
      code := Cores(TagOfTop(g.top, g.t1, g.t2)) + [GiveTag(g.t1)];
      TagDoes(g.top, g.t1, g.t2, native);
    case Region(ops) => code := ir(ops);
    case Leave => code := stock;
  }

  /** The steps that touch no FP register, from StackCode. */
  method LowerPlain(step: Step, g: Gprs, native: bool) returns (code: seq<Instr>)
    requires g.Distinct() && Plain(step) && !step.AddTop?
    ensures Does(code, step, g.top, native)
  {
    var core;
    match step {
      case StoreTop =>
        core := StoreTopCode(g.top, g.t1);
        TopStored(g.top, g.t1, native);
      case TagValidTop =>
        core := StackCode.TagCode(g.top, g.t1, g.t2, false);
        TagCleared(g.top, g.t1, g.t2, native);
      case TagEmptyBelow(n) => core := EmitTagSetEmptyBatch(g.top, g.t1, g.t2, g.tw, n, native);
      case TagEmptyFrom(n) => core := EmitPopTags(g.top, g.t1, g.t2, n, native);
      case TagEmptyAt(d) =>
        core := PopTagCode(g.top, g.t1, g.t2, d);
        TagEmptied(g.top, g.t1, g.t2, native, d);
    }
    code := Cores(core);
    PlainDoes(core, step, g.top, native);
  }

  /** A whole buffer. */
  ghost predicate DoesAll(code: seq<Instr>, buf: seq<Step>, top: Reg, native: bool) {
    forall s: Full, m: Machine {:trigger DoesAllAt(code, buf, top, native, s, m)} ::
      DoesAllAt(code, buf, top, native, s, m)
  }

  ghost predicate DoesAllAt(code: seq<Instr>, buf: seq<Step>, top: Reg, native: bool, s: Full, m: Machine) {
    Near(s, m, native, {}) && Track(buf).ok ==>
      && Sim(RunFull(code, s), DeferredState.Run(buf, m), top, native, Track(buf))
      && OtherBits(RunFull(code, s).arm.status) == OtherBits(s.arm.status)
  }

  lemma DoesAllStep(code: seq<Instr>, buf: seq<Step>, next: seq<Instr>, step: Step, top: Reg, native: bool)
    requires DoesAll(code, buf, top, native) && Does(next, step, top, native)
    ensures DoesAll(code + next, buf + [step], top, native)
  {
    TrackAppend(buf, step);
    forall s: Full, m: Machine ensures DoesAllAt(code + next, buf + [step], top, native, s, m) {
      FullConcat(code, next, s);
      DeferredState.RunStep(buf, step, m);
      assert DoesAllAt(code, buf, top, native, s, m);
      assert DoesAt(next, step, top, native, RunFull(code, s), DeferredState.Run(buf, m), Track(buf));
    }
  }

  /** Every step of a buffer as instructions. */
  method LowerAll(buf: seq<Step>, g: Gprs, native: bool, cached: bool, ir: seq<Op> -> seq<Instr>, stock: seq<Instr>)
    returns (code: seq<Instr>)
    requires g.Distinct() && Does(stock, Leave, g.top, native)
    ensures IrDoes(buf, ir, g.top, native) ==> DoesAll(code, buf, g.top, native)
  {
    code := [];
    for k := 0 to |buf|
      invariant IrDoes(buf, ir, g.top, native) ==> DoesAll(code, buf[..k], g.top, native)
    {
      var next := LowerStep(buf[k], g, native, cached, ir, stock);
      if IrDoes(buf, ir, g.top, native) {
        DoesAllStep(code, buf[..k], next, buf[k], g.top, native);
      }
      code := code + next;
      assert buf[..k + 1] == buf[..k] + [buf[k]];
    }
    assert buf[..|buf|] == buf;
  }
}
