/** The lazy form of the x87 stack inside one run: what the emitted code has
    done so far (`Machine`), what the translator still owes (`Cache`) and the
    architectural state the two stand for together (`View`). */
module DeferredState {
  import opened X87Stack

  /** Memory and registers of the emitted code: TOP in the status word, the tag
      word, the slots, and the register that caches TOP. */
  datatype RawMachine = Machine(memTop: nat, tags: seq<Tag>, st: seq<Value>, regTop: nat,
                                fpr: seq<Value>, out: seq<nat>)

  type Machine = m: RawMachine |
      m.memTop < 8 && m.regTop < 8 && |m.tags| == 8 && |m.st| == 8 && |m.fpr| == 32
    witness Machine(0, seq(8, _ => Tag.Empty), seq(8, _ => 0), 0, seq(32, _ => 0), [])

  /** What stock code and signal handlers see: memory only. */
  function Memory(m: Machine): (x: X87) {
    X87(m.memTop, m.tags, m.st, m.fpr, m.out)
  }

  /** One emitted instruction group.  Depths are physical, counted from the
      register-held TOP. */
  datatype Step =
    | LoadTop
    | StoreTop
    | AddTop(delta: int)
    | TagValidTop
    | TagEmptyBelow(n: nat)          // the n registers popped last
    | TagEmptyFrom(n: nat)           // the n registers about to be popped
    | TagEmptyAt(d: Index)
    | Permute(perm: Perm, save: Reg, chain: Reg)   // through two scratch registers
    | LoadSt(d: Index, r: Reg)
    | StoreSt(d: Index, r: Reg)
    | Fetch(r: Reg, v: Value)          // a guest load or a constant
    | Compute(r: Reg, a: Reg, b: Reg, c: Reg, f: (Value, Value, Value) -> Value)
    | Deliver(r: Reg)                  // a guest store
    | SwapSt(d: Index, a: Reg, b: Reg) // fxch done in memory
    | StoreStatus
    | StoreTag
    | Region(ops: seq<Op>)           // what the code of the IR does
    | Leave                          // the reply ends; stock's code follows

  type Perm = p: seq<nat> | Permutation(p) witness [0, 1, 2, 3, 4, 5, 6, 7]

  function Identity(): (p: seq<nat>) {
    [0, 1, 2, 3, 4, 5, 6, 7]
  }

  predicate Permutation(p: seq<nat>) {
    && |p| == 8
    && (forall i :: 0 <= i < 8 ==> p[i] < 8)
    && (forall i, j :: 0 <= i < j < 8 ==> p[i] != p[j])
  }

  /** The slots after every depth i took the value found at depth perm[i]. */
  function Permuted(perm: seq<nat>, top: nat, st: seq<Value>): (r: seq<Value>)
    requires Permutation(perm) && top < 8 && |st| == 8
    ensures |r| == 8
  {
    if perm == Identity() then st
    else seq(8, s requires 0 <= s < 8 => st[Slot(top, perm[Depth(top, s)])])
  }

  lemma PermutedAt(perm: seq<nat>, top: nat, st: seq<Value>, s: nat)
    requires Permutation(perm) && top < 8 && |st| == 8 && s < 8
    ensures Permuted(perm, top, st)[s] == st[Slot(top, perm[Depth(top, s)])]
  {
    SlotDepth(top, s);
  }

  /** The permutation reads the same from a TOP that is n places further on. */
  predicate Turns(perm: Perm, n: nat) {
    forall d :: 0 <= d < 8 ==> TurnsAt(perm, n, d)
  }

  predicate TurnsAt(perm: Perm, n: nat, d: Index) {
    perm[(d + n) % 8] == (perm[d] + n) % 8
  }

  lemma TurnedPermuted(perm: Perm, n: nat, top: nat, st: seq<Value>)
    requires Turns(perm, n) && top < 8 && |st| == 8
    ensures Permuted(perm, Slot(top, n), st) == Permuted(perm, top, st)
  {
    var a, b := Permuted(perm, Slot(top, n), st), Permuted(perm, top, st);
    forall s | 0 <= s < 8 ensures a[s] == b[s] {
      var d := Depth(Slot(top, n), s);
      PermutedAt(perm, Slot(top, n), st, s);
      PermutedAt(perm, top, st, s);
      DepthTurned(top, n, s);
      assert TurnsAt(perm, n, d);
      SlotTurned(top, n, perm[d]);
    }
  }

  lemma DepthTurned(top: nat, n: nat, s: nat)
    requires top < 8 && s < 8
    ensures (Depth(Slot(top, n), s) + n) % 8 == Depth(top, s)
  {
    var k := (top + n) / 8;
    assert Slot(top, n) == top + n - 8 * k;
  }

  lemma SlotTurned(top: nat, n: nat, p: nat)
    requires top < 8 && p < 8
    ensures Slot(Slot(top, n), p) == Slot(top, (p + n) % 8)
  {
    Wrapped(top + n + p, (top + n) / 8);
    Wrapped(top + p + n, (p + n) / 8);
  }

  lemma Wrapped(x: int, k: int)
    ensures (x - 8 * k) % 8 == x % 8
  {}

  lemma IdentityTurns(n: nat)
    ensures Turns(Identity(), n)
  {
    forall d | 0 <= d < 8 ensures TurnsAt(Identity(), n, d) {
      assert Identity()[(d + n) % 8] == (d + n) % 8;
    }
  }

  /** The permutation keeps ST(0) and ST(d) among themselves. */
  predicate Pairs(perm: Perm, d: Index) {
    (perm[0] == 0 && perm[d] == d) || (perm[0] == d && perm[d] == 0)
  }

  /** The tags after the n registers just below `top` became empty. */
  function EmptyBelow(tags: seq<Tag>, top: nat, n: int): (r: seq<Tag>)
    requires |tags| == 8 && top < 8
    ensures |r| == 8
  {
    if n <= 0 then tags
    else seq(8, s requires 0 <= s < 8 => if (top as int - 1 - s as int) % 8 < n then Tag.Empty else tags[s])
  }

  function Exec(step: Step, m: Machine): (m': Machine)
  {
    match step
    case LoadTop => m.(regTop := m.memTop)
    case StoreTop => m.(memTop := m.regTop)
    case AddTop(delta) => m.(regTop := Slot(m.regTop, delta))
    case TagValidTop => m.(tags := m.tags[m.regTop := Tag.Valid])
    case TagEmptyBelow(n) => m.(tags := EmptyBelow(m.tags, m.regTop, n))
    case TagEmptyFrom(n) => m.(tags := EmptyAbove(m.tags, m.regTop, n))
    case TagEmptyAt(d) => m.(tags := m.tags[Slot(m.regTop, d) := Tag.Empty])
    case Permute(perm, _, _) => m.(st := Permuted(perm, m.regTop, m.st))
    case LoadSt(d, r) => m.(fpr := m.fpr[r := m.st[Slot(m.regTop, d)]])
    case StoreSt(d, r) => m.(st := m.st[Slot(m.regTop, d) := m.fpr[r]])
    case Fetch(r, v) => m.(fpr := m.fpr[r := v])
    case Compute(r, a, b, c, f) => m.(fpr := m.fpr[r := f(m.fpr[a], m.fpr[b], m.fpr[c])])
    case Deliver(r) => m.(out := m.out + [m.fpr[r]])
    case Leave => m
    case SwapSt(d, _, _) => m.(st := Swap(m.st, Slot(m.regTop, 0), Slot(m.regTop, d)))
    case StoreStatus => m.(out := m.out + [m.memTop])
    case StoreTag => m.(out := m.out + [TagCode(m.tags[m.regTop])])
    case Region(ops) =>
      var x := EagerAll(ops, Memory(m));
      Machine(x.top, x.tags, x.st, x.top, x.fpr, x.out)
  }

  function Run(buf: seq<Step>, m: Machine): (m': Machine)
    decreases |buf|
  {
    if buf == [] then m else Exec(buf[|buf| - 1], Run(buf[..|buf| - 1], m))
  }

  lemma RunStep(buf: seq<Step>, step: Step, m: Machine)
    ensures Run(buf + [step], m) == Exec(step, Run(buf, m))
  {
    assert (buf + [step])[..|buf + [step]| - 1] == buf;
  }

  // ---- which registers the code may rely on ----

  /** The operation reads only scratch registers that hold a value. */
  predicate Reads(op: Op, held: set<nat>) {
    match op
    case Store(_, r) => r in held
    case Alu(_, a, b, c, _) => a in held && b in held && c in held
    case GuestStore(r) => r in held
    case _ => true
  }

  function Holds(op: Op, held: set<nat>): (h: set<nat>) {
    match op
    case Load(_, r) => held + {r}
    case Const(r, _) => held + {r}
    case Alu(r, _, _, _, _) => held + {r}
    case _ => held
  }

  /** The registers in which operations leave values. */
  function HeldAfter(ops: seq<Op>): (h: set<nat>)
    decreases |ops|
  {
    if ops == [] then {} else Holds(ops[|ops| - 1], HeldAfter(ops[..|ops| - 1]))
  }

  /** No operation reads a scratch register before it is written. */
  predicate Fetched(ops: seq<Op>)
    decreases |ops|
  {
    ops == [] ||
    var init := ops[..|ops| - 1];
    Fetched(init) && Reads(ops[|ops| - 1], HeldAfter(init))
  }

  /** Whether every step so far found what it needs in registers, whether TOP
      is in its register, and which scratch FP registers hold what the machine
      says.  The machine leaves the registers of a Permute or a swap alone; the
      code does not. */
  datatype Registers = Registers(ok: bool, loaded: bool, known: set<nat>)

  function TrackStep(step: Step, t: Registers): (t': Registers) {
    match step
    case LoadTop => t.(loaded := true)
    case StoreStatus => t
    case Leave => Registers(t.ok, false, {})
    case Fetch(r, _) => t.(known := t.known + {r})
    case Deliver(r) => t.(ok := t.ok && r in t.known)
    case Compute(r, a, b, c, _) =>
      Registers(t.ok && a in t.known && b in t.known && c in t.known, t.loaded, t.known + {r})
    case LoadSt(_, r) => Registers(t.ok && t.loaded, t.loaded, t.known + {r})
    case StoreSt(_, r) => t.(ok := t.ok && t.loaded && r in t.known)
    case Permute(_, a, b) => Registers(t.ok && t.loaded && a != b, t.loaded, t.known - {a, b})
    case SwapSt(_, a, b) => Registers(t.ok && t.loaded && a != b, t.loaded, t.known - {a, b})
    case Region(ops) => Registers(t.ok && t.loaded && Fetched(ops), t.loaded, {})
    case _ => t.(ok := t.ok && t.loaded)
  }

  function Track(buf: seq<Step>): (t: Registers)
    decreases |buf|
  {
    if buf == [] then Registers(true, false, {}) else TrackStep(buf[|buf| - 1], Track(buf[..|buf| - 1]))
  }

  lemma TrackAppend(buf: seq<Step>, step: Step)
    ensures Track(buf + [step]) == TrackStep(step, Track(buf))
  {
    assert (buf + [step])[..|buf + [step]| - 1] == buf;
  }

  lemma NothingKept(buf: seq<Step>)
    ensures !Track(buf + [Step.Leave]).loaded
  {
    TrackAppend(buf, Step.Leave);
  }

  /** TOP is loaded and the registers of `held` can be relied on. */
  predicate Fits(buf: seq<Step>, held: set<nat>) {
    Track(buf).ok && Track(buf).loaded && held <= Track(buf).known
  }

  /** The flags the translator keeps while a run is open.  `deferred` is the
      int8_t deferred_pop_count. */
  datatype Cache = Cache(topDirty: bool, tagPending: bool, deferred: int, perm: seq<nat>,
                         permDirty: bool, run: nat, gprsValid: bool)
  {
    ghost predicate Clean() {
      !topDirty && !tagPending && deferred == 0 && perm == Identity() && !permDirty
    }
  }

  function Int8(n: int): (r: int)
    ensures -128 <= r <= 127
  {
    (n + 128) % 256 - 128
  }

  /** The relations between the flags and the emitted code that hold while the
      TOP register is loaded.  permDirty is independent of the other flags. */
  ghost predicate Coherent(c: Cache, m: Machine) {
    && Permutation(c.perm)
    && (!c.permDirty ==> c.perm == Identity())
    && 0 <= c.deferred <= 127
    && (c.tagPending ==> c.deferred == 0)
    && (!c.topDirty ==> m.memTop == m.regTop)
    && (c.tagPending && c.topDirty ==> m.memTop == Slot(m.regTop, 1))
  }

  function ViewTags(c: Cache, m: Machine): (r: seq<Tag>)
    ensures |r| == 8
  {
    var t := EmptyBelow(m.tags, m.regTop, c.deferred);
    if c.tagPending then t[m.regTop := Tag.Valid] else t
  }

  /** The architectural state: the pending permutation, pops and push applied to
      what the emitted code has stored. */
  function View(c: Cache, m: Machine): (x: X87)
    requires Permutation(c.perm)
  {
    X87(m.regTop, ViewTags(c, m), Permuted(c.perm, m.regTop, m.st), m.fpr, m.out)
  }

  /** Every pending push is one that landed on an empty register. */
  ghost predicate PushWasSafe(c: Cache, m: Machine)
  {
    c.tagPending ==> m.tags[m.regTop] == Tag.Empty
  }

  /** With no permutation and no pop pending the state can be read off. */
  lemma PlainView(c: Cache, m: Machine)
    requires c.perm == Identity() && c.deferred <= 0
    ensures View(c, m) == X87(m.regTop, if c.tagPending then m.tags[m.regTop := Tag.Valid] else m.tags,
                              m.st, m.fpr, m.out)
  {
  }

  /** Nothing owed: memory and register hold the architectural state. */
  lemma CleanView(c: Cache, m: Machine)
    requires Coherent(c, m) && c.Clean()
    ensures View(c, m) == Memory(m)
  {
    PlainView(c, m);
  }

  // ---- flushes: each pays one debt and leaves the architectural state alone ----

  lemma FlushPermView(c: Cache, m: Machine, save: Reg, chain: Reg)
    requires Coherent(c, m)
    ensures var c', m' := c.(perm := Identity(), permDirty := false), Exec(Permute(c.perm, save, chain), m);
      Coherent(c', m') && View(c', m') == View(c, m) && m'.tags == m.tags
  {
  }

  lemma FlushPopsView(c: Cache, m: Machine)
    requires Coherent(c, m) && c.deferred > 0
    ensures var c', m' := c.(deferred := 0), Exec(TagEmptyBelow(c.deferred), m);
      Coherent(c', m') && View(c', m') == View(c, m)
  {
  }

  lemma FlushTagView(c: Cache, m: Machine)
    requires Coherent(c, m) && c.tagPending
    ensures var c', m' := c.(tagPending := false), Exec(TagValidTop, m);
      Coherent(c', m') && View(c', m') == View(c, m)
  {
  }

  lemma FlushTopView(c: Cache, m: Machine)
    requires Coherent(c, m)
    ensures var c', m' := c.(topDirty := false), Exec(StoreTop, m);
      Coherent(c', m') && View(c', m') == View(c, m) && m'.tags == m.tags
  {}

  // ---- the stack operations ----

  /** x87_push after its flushes: only the TOP register moves. */
  lemma PushView(c: Cache, m: Machine)
    requires Coherent(c, m) && c.Clean()
    ensures var c', m' := c.(topDirty := true, tagPending := true), Exec(AddTop(-1), m);
      Coherent(c', m') && View(c', m') == Eager(Push, View(c, m)) && m'.tags == m.tags
  {
    PlainView(c, m);
    PlainView(c.(topDirty := true, tagPending := true), Exec(AddTop(-1), m));
  }

  lemma EmptyBelowGrows(tags: seq<Tag>, top: nat, n: nat)
    requires |tags| == 8 && top < 8
    ensures EmptyBelow(tags, Slot(top, 1), n + 1) == EmptyBelow(tags, top, n)[top := Tag.Empty]
  {
    var a, b := EmptyBelow(tags, Slot(top, 1), n + 1), EmptyBelow(tags, top, n)[top := Tag.Empty];
    forall s | 0 <= s < 8 ensures a[s] == b[s] {
      if s != top {
        assert (Slot(top, 1) - 1 - s) % 8 == (top as int - 1 - s as int) % 8 + 1;
      }
    }
  }

  /** x87_pop with no push pending: the tag update is owed.  The debt is exact
      below the int8_t limit; at 127 the counter wraps to -128, nothing is owed
      any more, and the tags are right only if memory already says empty. */
  lemma DeferPopView(c: Cache, m: Machine)
    requires Coherent(c, m) && !c.permDirty && !c.tagPending
    ensures var c', m' := c.(topDirty := true, deferred := Int8(c.deferred + 1)), Exec(AddTop(1), m);
      && (View(c', m') == Eager(Pop, View(c, m)) <==>
          c.deferred < 127 || forall s :: 0 <= s < 8 ==> m.tags[s] == Tag.Empty)
      && (c.deferred < 127 ==> Coherent(c', m') && c'.deferred == c.deferred + 1)
      && m'.tags == m.tags
  {
    var c', m' := c.(topDirty := true, deferred := Int8(c.deferred + 1)), Exec(AddTop(1), m);
    EmptyBelowGrows(m.tags, m.regTop, c.deferred);
    if c.deferred == 127 {
      var x := Eager(Pop, View(c, m));
      assert forall s :: 0 <= s < 8 ==> x.tags[s] == Tag.Empty;
      assert View(c', m').tags == m.tags;
      if forall s :: 0 <= s < 8 ==> m.tags[s] == Tag.Empty {
        assert View(c', m').tags == x.tags;
      }
    }
  }

  /** x87_pop right after a push: both tag updates are dropped.  The state is
      the architectural one exactly when the push had found its register empty. */
  lemma CancelPopView(c: Cache, m: Machine)
    requires Coherent(c, m) && !c.permDirty && c.tagPending
    ensures var c' := c.(topDirty := false, tagPending := false);
      var m1 := Exec(AddTop(1), m);
      var m' := if c.topDirty then m1 else Exec(StoreTop, m1);
      && Coherent(c', m')
      && m'.tags == m.tags
      && (View(c', m') == Eager(Pop, View(c, m)) <==> m.tags[m.regTop] == Tag.Empty)
  {
    var c' := c.(topDirty := false, tagPending := false);
    var m1 := Exec(AddTop(1), m);
    var m' := if c.topDirty then m1 else Exec(StoreTop, m1);
    PlainView(c, m);
    PlainView(c', m');
    var x := Eager(Pop, View(c, m));
    assert x.tags == m.tags[m.regTop := Tag.Empty];
    if m.tags[m.regTop] == Tag.Empty {
      assert x.tags == m.tags;
    } else {
      assert x.tags[m.regTop] != m.tags[m.regTop];
    }
  }

  lemma PopNView(c: Cache, m: Machine, n: nat)
    requires Coherent(c, m) && Turns(c.perm, n) && !c.tagPending && c.deferred == 0
    ensures var c', m' := c.(topDirty := true), Exec(AddTop(n), Exec(TagEmptyFrom(n), m));
      Coherent(c', m') && View(c', m') == Eager(PopN(n), View(c, m))
  {
    TurnedPermuted(c.perm, n, m.regTop, m.st);
  }

  lemma RotateView(c: Cache, m: Machine, delta: int)
    requires Coherent(c, m) && !c.permDirty && !c.tagPending && c.deferred == 0
    requires delta == 1 || delta == -1
    ensures var c', m' := c.(topDirty := true), Exec(AddTop(delta), m);
      Coherent(c', m') && View(c', m') == Eager(Rotate(delta), View(c, m))
  {
    PlainView(c, m);
    PlainView(c.(topDirty := true), Exec(AddTop(delta), m));
  }

  lemma PermutedSwap(perm: seq<nat>, top: nat, st: seq<Value>, d: nat)
    requires Permutation(perm) && top < 8 && |st| == 8 && d < 8
    ensures Permutation(Swap(perm, 0, d))
    ensures Permuted(Swap(perm, 0, d), top, st) == Swap(Permuted(perm, top, st), Slot(top, 0), Slot(top, d))
  {
    var p := Swap(perm, 0, d);
    var a, b := Permuted(p, top, st), Swap(Permuted(perm, top, st), Slot(top, 0), Slot(top, d));
    DepthSlot(top, 0);
    DepthSlot(top, d);
    PermutedAt(perm, top, st, Slot(top, 0));
    PermutedAt(perm, top, st, Slot(top, d));
    forall s | 0 <= s < 8 ensures a[s] == b[s] {
      PermutedAt(p, top, st, s);
      PermutedAt(perm, top, st, s);
      SlotDepth(top, s);
    }
  }

  /** A deferred FXCH emits nothing: swapping two entries of the permutation is
      swapping the two registers. */
  lemma FxchView(c: Cache, m: Machine, d: nat)
    requires Coherent(c, m) && d < 8
    ensures var c' := c.(perm := Swap(c.perm, 0, d), permDirty := true);
      Coherent(c', m) && View(c', m) == Eager(Fxch(d), View(c, m))
  {
    PermutedSwap(c.perm, m.regTop, m.st, d);
  }

  /** Reading logical depth d at its resolved physical depth. */
  lemma LoadView(c: Cache, m: Machine, d: nat, r: nat)
    requires Coherent(c, m) && d < 8 && r < 32
    ensures var m' := Exec(LoadSt(c.perm[d], r), m);
      Coherent(c, m') && View(c, m') == Eager(Load(d, r), View(c, m)) && m'.tags == m.tags
  {
    DepthSlot(m.regTop, d);
  }

  lemma PermutedStore(perm: seq<nat>, top: nat, st: seq<Value>, d: nat, v: Value)
    requires Permutation(perm) && top < 8 && |st| == 8 && d < 8
    ensures Permuted(perm, top, st[Slot(top, perm[d]) := v]) == Permuted(perm, top, st)[Slot(top, d) := v]
  {
    var st' := st[Slot(top, perm[d]) := v];
    var a, b := Permuted(perm, top, st'), Permuted(perm, top, st)[Slot(top, d) := v];
    forall s | 0 <= s < 8 ensures a[s] == b[s] {
      var e := Depth(top, s);
      PermutedAt(perm, top, st', s);
      PermutedAt(perm, top, st, s);
      SlotDepth(top, s);
      if e == d {
        assert s == Slot(top, d);
      } else {
        assert s != Slot(top, d) by { DepthSlot(top, d); }
        assert Slot(top, perm[e]) != Slot(top, perm[d]) by {
          DepthSlot(top, perm[d]);
          DepthSlot(top, perm[e]);
        }
      }
    }
  }

  lemma StoreView(c: Cache, m: Machine, d: nat, r: nat)
    requires Coherent(c, m) && d < 8 && r < 32
    ensures var m' := Exec(StoreSt(c.perm[d], r), m);
      Coherent(c, m') && View(c, m') == Eager(Store(d, r), View(c, m)) && m'.tags == m.tags
  {
    PermutedStore(c.perm, m.regTop, m.st, d, m.fpr[r]);
  }

  lemma FreeView(c: Cache, m: Machine, d: nat)
    requires Coherent(c, m) && !c.tagPending && c.deferred == 0 && d < 8
    ensures var m' := Exec(TagEmptyAt(c.perm[d]), m);
      Coherent(c, m') && (View(c, m') == Eager(Free(d), View(c, m)) <==>
        m.tags[Slot(m.regTop, c.perm[d])] == m.tags[Slot(m.regTop, d)] == Tag.Empty || c.perm[d] == d)
  {
    var m' := Exec(TagEmptyAt(c.perm[d]), m);
    DepthSlot(m.regTop, d);
    DepthSlot(m.regTop, c.perm[d]);
    var x := Eager(Free(d), View(c, m));
    assert x.tags == m.tags[Slot(m.regTop, d) := Tag.Empty];
    assert View(c, m').tags == m.tags[Slot(m.regTop, c.perm[d]) := Tag.Empty];
    if c.perm[d] != d {
      assert x.tags[Slot(m.regTop, d)] == Tag.Empty;
      assert View(c, m').tags[Slot(m.regTop, c.perm[d])] == Tag.Empty;
      if m.tags[Slot(m.regTop, c.perm[d])] == m.tags[Slot(m.regTop, d)] == Tag.Empty {
        assert x.tags == m.tags == View(c, m').tags;
      }
    }
  }

  /** fxam reads the tag of ST(0) without flushing the deferred pops, so it is
      right unless eight of them, a whole turn of the stack, are owed. */
  lemma ExamineView(c: Cache, m: Machine)
    requires Coherent(c, m) && !c.tagPending
    ensures var m' := Exec(StoreTag, m);
      Coherent(c, m') && (View(c, m') == Eager(Examine, View(c, m)) <==>
        c.deferred < 8 || m.tags[m.regTop] == Tag.Empty)
  {
    var m' := Exec(StoreTag, m);
    assert ViewTags(c, m') == ViewTags(c, m);
    assert m'.out[|m.out|] == TagCode(m.tags[m.regTop]);
    assert Eager(Examine, View(c, m)).out[|m.out|] == TagCode(ViewTags(c, m)[m.regTop]);
  }

  lemma ConstView(c: Cache, m: Machine, r: Reg, v: Value)
    requires Coherent(c, m)
    ensures var m' := Exec(Fetch(r, v), m);
      Coherent(c, m') && View(c, m') == Eager(Const(r, v), View(c, m)) && m'.tags == m.tags
  {}

  lemma ComputeView(c: Cache, m: Machine, op: Op)
    requires Coherent(c, m) && op.Alu?
    ensures var m' := Exec(Compute(op.r, op.a, op.b, op.c, op.f), m);
      Coherent(c, m') && View(c, m') == Eager(op, View(c, m)) && m'.tags == m.tags
  {}

  lemma DeliverView(c: Cache, m: Machine, r: Reg)
    requires Coherent(c, m)
    ensures var m' := Exec(Deliver(r), m);
      Coherent(c, m') && View(c, m') == Eager(GuestStore(r), View(c, m)) && m'.tags == m.tags
  {}

  /** fstsw stores the TOP field of the status word in memory, which is the
      architectural one once TOP has been written back. */
  lemma StatusView(c: Cache, m: Machine)
    requires Coherent(c, m)
    ensures var m' := Exec(StoreStatus, m);
      Coherent(c, m') && m'.tags == m.tags &&
      (View(c, m') == Eager(ReadStatus, View(c, m)) <==> m.memTop == m.regTop)
  {
    var m' := Exec(StoreStatus, m);
    assert m'.out[|m.out|] == m.memTop;
    assert Eager(ReadStatus, View(c, m)).out[|m.out|] == m.regTop;
  }

  // ---- the immediate forms, used when no run is open ----

  lemma PushNowView(c: Cache, m: Machine)
    requires Coherent(c, m) && Turns(c.perm, 1) && !c.tagPending && c.deferred == 0
    ensures var m' := Exec(TagValidTop, Exec(StoreTop, Exec(AddTop(-1), m)));
      Coherent(c, m') && View(c, m') == Eager(Push, View(c, m))
  {
    assert Slot(Slot(m.regTop, -1), 1) == m.regTop;
    TurnedPermuted(c.perm, 1, Slot(m.regTop, -1), m.st);
  }

  lemma PopNowView(c: Cache, m: Machine)
    requires Coherent(c, m) && Turns(c.perm, 1) && !c.tagPending && c.deferred == 0
    ensures var c', m' := c.(topDirty := false), Exec(StoreTop, Exec(AddTop(1), Exec(TagEmptyAt(0), m)));
      Coherent(c', m') && View(c', m') == Eager(Pop, View(c, m))
  {
    var m' := Exec(StoreTop, Exec(AddTop(1), Exec(TagEmptyAt(0), m)));
    assert m'.tags == m.tags[m.regTop := Tag.Empty];
    TurnedPermuted(c.perm, 1, m.regTop, m.st);
  }

  lemma SwapNowView(c: Cache, m: Machine, d: Index, a: Reg, b: Reg)
    requires Coherent(c, m) && Pairs(c.perm, d)
    ensures var m' := Exec(SwapSt(d, a, b), m);
      Coherent(c, m') && View(c, m') == Eager(Fxch(d), View(c, m)) && m'.tags == m.tags
  {
    var m' := Exec(SwapSt(d, a, b), m);
    assert ViewTags(c, m') == ViewTags(c, m);
    PermutedPairs(c.perm, m.regTop, m.st, d);
  }

  lemma PermutedPairs(perm: Perm, top: nat, st: seq<Value>, d: Index)
    requires Pairs(perm, d) && top < 8 && |st| == 8
    ensures Permuted(perm, top, Swap(st, Slot(top, 0), Slot(top, d))) ==
      Swap(Permuted(perm, top, st), Slot(top, 0), Slot(top, d))
  {
    var st' := Swap(st, Slot(top, 0), Slot(top, d));
    var a, b := Permuted(perm, top, st'), Swap(Permuted(perm, top, st), Slot(top, 0), Slot(top, d));
    forall s | 0 <= s < 8 ensures a[s] == b[s] {
      SwappedAt(perm, top, st, d, Depth(top, s));
      SlotDepth(top, s);
    }
  }

  lemma SwappedAt(perm: Perm, top: nat, st: seq<Value>, d: Index, e: Index)
    requires Pairs(perm, d) && top < 8 && |st| == 8
    ensures Permuted(perm, top, Swap(st, Slot(top, 0), Slot(top, d)))[Slot(top, e)] ==
      Swap(Permuted(perm, top, st), Slot(top, 0), Slot(top, d))[Slot(top, e)]
  {
    var st' := Swap(st, Slot(top, 0), Slot(top, d));
    AtDepth(perm, top, st', e);
    AtDepth(perm, top, st, e);
    AtDepth(perm, top, st, 0);
    AtDepth(perm, top, st, d);
    SlotsDiffer(top, e, 0);
    SlotsDiffer(top, e, d);
    SlotsDiffer(top, perm[e], 0);
    SlotsDiffer(top, perm[e], d);
    SwapBoth(st, Permuted(perm, top, st), Permuted(perm, top, st'), Slot(top, 0), Slot(top, d), Slot(top, e),
             Slot(top, perm[0]), Slot(top, perm[d]), Slot(top, perm[e]));
  }

  /** Two slots that read from one another, or each from itself. */
  lemma SwapBoth(st: seq<Value>, p: seq<Value>, q: seq<Value>, a: Index, b: Index, c: Index, a': Index, b': Index,
                 c': Index)
    requires |st| == |p| == |q| == 8 && p[a] == st[a'] && p[b] == st[b'] && p[c] == st[c'] && q[c] == Swap(st, a, b)[c']
    requires (a' == a && b' == b) || (a' == b && b' == a)
    requires (c == a ==> c' == a') && (c == b ==> c' == b') && (c != a && c != b ==> c' != a && c' != b)
    ensures q[c] == Swap(p, a, b)[c]
  {}

  lemma AtDepth(perm: Perm, top: nat, st: seq<Value>, e: Index)
    requires top < 8 && |st| == 8
    ensures Permuted(perm, top, st)[Slot(top, e)] == st[Slot(top, perm[e])]
  {
    PermutedAt(perm, top, st, Slot(top, e));
    DepthSlot(top, e);
  }

  lemma SlotsDiffer(top: nat, j: Index, k: Index)
    requires top < 8
    ensures Slot(top, j) == Slot(top, k) <==> j == k
  {
    DepthSlot(top, j);
    DepthSlot(top, k);
  }

  lemma SwapKeepsPermutation(perm: seq<nat>, d: nat)
    requires Permutation(perm) && d < 8
    ensures Permutation(Swap(perm, 0, d))
  {}

  // ---- what a run promises at every point ----

  /** After `ops`, started from the architectural state x0, code and cache
      together stand for the eager state, as long as no push of theirs overflows. */
  ghost predicate Faithful(c: Cache, m: Machine, x0: X87, ops: seq<Op>)
  {
    NoOverflow(ops, x0) ==>
      && Coherent(c, m)
      && PushWasSafe(c, m)
      && View(c, m) == EagerAll(ops, x0)
  }

  /** No TOP register is held and nothing but a permutation is owed: loading TOP
      is enough to have the eager state. */
  ghost predicate Settled(c: Cache, m: Machine, x0: X87, ops: seq<Op>)
  {
    NoOverflow(ops, x0) ==>
      && Permutation(c.perm) && (!c.permDirty ==> c.perm == Identity())
      && !c.topDirty && !c.tagPending && c.deferred == 0
      && View(c, Exec(LoadTop, m)) == EagerAll(ops, x0)
  }

  /** Facts about the flags that hold whatever the guest does. */
  ghost predicate WellKept(c: Cache) {
    Permutation(c.perm) && (!c.permDirty ==> c.perm == Identity()) && -128 <= c.deferred <= 127
  }

  // ---- one operation, code and cache together: the code so far is `buf`, to
  //      be run on `m`, for the operations `ops` ----

  /** Code and flags stand for the eager state, whatever the machine, with TOP
      and the values of `held` in registers. */
  ghost predicate Right(c: Cache, buf: seq<Step>, ops: seq<Op>, held: set<nat>) {
    && Fits(buf, held)
    && forall m: Machine {:trigger Run(buf, m)} :: Faithful(c, Run(buf, m), Memory(m), ops)
  }

  /** The same with nothing in registers. */
  ghost predicate AtRest(c: Cache, buf: seq<Step>, ops: seq<Op>) {
    && Track(buf).ok
    && forall m: Machine {:trigger Run(buf, m)} :: Settled(c, Run(buf, m), Memory(m), ops)
  }

  lemma NothingYet(c: Cache)
    requires c.Clean()
    ensures AtRest(c, [], [])
  {
    forall m: Machine ensures Settled(c, Run([], m), Memory(m), []) {
      PlainView(c, Exec(LoadTop, m));
    }
  }

  /** With no permutation owed memory alone is the eager state. */
  lemma RestMemory(c: Cache, m: Machine, x0: X87, ops: seq<Op>)
    requires Settled(c, m, x0, ops) && !c.permDirty && NoOverflow(ops, x0)
    ensures Memory(m) == EagerAll(ops, x0)
  {
    PlainView(c, Exec(LoadTop, m));
  }

  lemma BeginRight(c: Cache, buf: seq<Step>, ops: seq<Op>)
    requires AtRest(c, buf, ops)
    ensures Right(c, buf + [LoadTop], ops, {})
    ensures Right(c.(gprsValid := true), buf + [LoadTop], ops, {})
  {
    TrackAppend(buf, LoadTop);
    forall m: Machine
      ensures Faithful(c, Run(buf + [LoadTop], m), Memory(m), ops)
      ensures Faithful(c.(gprsValid := true), Run(buf + [LoadTop], m), Memory(m), ops)
    {
      RunStep(buf, LoadTop, m);
    }
  }

  /** The code that stock puts between two replies leaves the x87 state alone
      and nothing in registers. */
  lemma LeaveAtRest(c: Cache, buf: seq<Step>, ops: seq<Op>)
    requires AtRest(c, buf, ops)
    ensures AtRest(c, buf + [Leave], ops)
  {
    TrackAppend(buf, Leave);
    forall m: Machine ensures Settled(c, Run(buf + [Leave], m), Memory(m), ops) {
      RunStep(buf, Leave, m);
    }
  }

  lemma FlushTopRight(c: Cache, buf: seq<Step>, ops: seq<Op>, held: set<nat>)
    requires Right(c, buf, ops, held)
    ensures Right(c.(topDirty := false), buf + [StoreTop], ops, held)
  {
    TrackAppend(buf, StoreTop);
    forall m: Machine
      ensures Faithful(c.(topDirty := false), Run(buf + [StoreTop], m), Memory(m), ops)
    {
      RunStep(buf, StoreTop, m);
      if NoOverflow(ops, Memory(m)) {
        FlushTopView(c, Run(buf, m));
      }
    }
  }

  lemma FlushPopsRight(c: Cache, buf: seq<Step>, ops: seq<Op>, held: set<nat>)
    requires c.deferred > 0 && Right(c, buf, ops, held)
    ensures Right(c.(deferred := 0), buf + [TagEmptyBelow(c.deferred)], ops, held)
  {
    TrackAppend(buf, TagEmptyBelow(c.deferred));
    forall m: Machine
      ensures Faithful(c.(deferred := 0), Run(buf + [TagEmptyBelow(c.deferred)], m), Memory(m), ops)
    {
      RunStep(buf, TagEmptyBelow(c.deferred), m);
      if NoOverflow(ops, Memory(m)) {
        FlushPopsView(c, Run(buf, m));
      }
    }
  }

  lemma FlushTagRight(c: Cache, buf: seq<Step>, ops: seq<Op>, held: set<nat>)
    requires c.tagPending && Right(c, buf, ops, held)
    ensures Right(c.(tagPending := false), buf + [TagValidTop], ops, held)
  {
    TrackAppend(buf, TagValidTop);
    forall m: Machine
      ensures Faithful(c.(tagPending := false), Run(buf + [TagValidTop], m), Memory(m), ops)
    {
      RunStep(buf, TagValidTop, m);
      if NoOverflow(ops, Memory(m)) {
        FlushTagView(c, Run(buf, m));
      }
    }
  }

  lemma FlushPermRight(c: Cache, buf: seq<Step>, ops: seq<Op>, held: set<nat>, save: Reg, chain: Reg)
    requires Permutation(c.perm) && Right(c, buf, ops, held)
    requires save != chain && save !in held && chain !in held
    ensures Right(c.(perm := Identity(), permDirty := false), buf + [Permute(c.perm, save, chain)], ops, held)
  {
    TrackAppend(buf, Permute(c.perm, save, chain));
    forall m: Machine
      ensures Faithful(c.(perm := Identity(), permDirty := false), Run(buf + [Permute(c.perm, save, chain)], m),
                       Memory(m), ops)
    {
      RunStep(buf, Permute(c.perm, save, chain), m);
      if NoOverflow(ops, Memory(m)) {
        FlushPermView(c, Run(buf, m), save, chain);
      }
    }
  }

  lemma PushRight(c: Cache, buf: seq<Step>, ops: seq<Op>, held: set<nat>)
    requires Right(c, buf, ops, held)
    requires !c.topDirty && !c.tagPending && c.deferred <= 0 && !c.permDirty
    ensures Right(c.(topDirty := true, tagPending := true), buf + [AddTop(-1)], ops + [Op.Push], held)
  {
    TrackAppend(buf, AddTop(-1));
    forall m: Machine
      ensures Faithful(c.(topDirty := true, tagPending := true), Run(buf + [AddTop(-1)], m), Memory(m), ops + [Op.Push])
    {
      RunStep(buf, AddTop(-1), m);
      OneMoreOp(ops, Op.Push, Memory(m));
      if NoOverflow(ops + [Op.Push], Memory(m)) {
        PushView(c, Run(buf, m));
        CleanView(c, Run(buf, m));
      }
    }
  }

  lemma PushNowRight(c: Cache, buf: seq<Step>, ops: seq<Op>, held: set<nat>)
    requires Right(c, buf, ops, held)
    requires Permutation(c.perm) && Turns(c.perm, 1) && !c.tagPending && c.deferred == 0
    ensures Right(c, buf + [AddTop(-1)] + [StoreTop] + [TagValidTop], ops + [Op.Push], held)
  {
    TrackAppend(buf, AddTop(-1));
    TrackAppend(buf + [AddTop(-1)], StoreTop);
    TrackAppend(buf + [AddTop(-1)] + [StoreTop], TagValidTop);
    forall m: Machine
      ensures Faithful(c, Run(buf + [AddTop(-1)] + [StoreTop] + [TagValidTop], m), Memory(m), ops + [Op.Push])
    {
      RunStep(buf, AddTop(-1), m);
      RunStep(buf + [AddTop(-1)], StoreTop, m);
      RunStep(buf + [AddTop(-1)] + [StoreTop], TagValidTop, m);
      OneMoreOp(ops, Op.Push, Memory(m));
      if NoOverflow(ops + [Op.Push], Memory(m)) {
        PushNowView(c, Run(buf, m));
      }
    }
  }

  lemma DeferPopRight(c: Cache, buf: seq<Step>, ops: seq<Op>, held: set<nat>)
    requires Right(c, buf, ops, held)
    requires !c.permDirty && !c.tagPending && c.deferred < 127
    ensures Right(c.(topDirty := true, deferred := Int8(c.deferred + 1)), buf + [AddTop(1)], ops + [Op.Pop], held)
  {
    TrackAppend(buf, AddTop(1));
    forall m: Machine
      ensures Faithful(c.(topDirty := true, deferred := Int8(c.deferred + 1)), Run(buf + [AddTop(1)], m), Memory(m),
                       ops + [Op.Pop])
    {
      RunStep(buf, AddTop(1), m);
      OneMoreOp(ops, Op.Pop, Memory(m));
      if NoOverflow(ops + [Op.Pop], Memory(m)) {
        DeferPopView(c, Run(buf, m));
      }
    }
  }

  lemma CancelPopRight(c: Cache, buf: seq<Step>, ops: seq<Op>, held: set<nat>)
    requires Right(c, buf, ops, held)
    requires !c.permDirty && c.tagPending
    ensures var code := if c.topDirty then buf + [AddTop(1)] else buf + [AddTop(1)] + [StoreTop];
      Right(c.(topDirty := false, tagPending := false), code, ops + [Op.Pop], held)
  {
    TrackAppend(buf, AddTop(1));
    TrackAppend(buf + [AddTop(1)], StoreTop);
    forall m: Machine
      ensures var code := if c.topDirty then buf + [AddTop(1)] else buf + [AddTop(1)] + [StoreTop];
        Faithful(c.(topDirty := false, tagPending := false), Run(code, m), Memory(m), ops + [Op.Pop])
    {
      RunStep(buf, AddTop(1), m);
      RunStep(buf + [AddTop(1)], StoreTop, m);
      OneMoreOp(ops, Op.Pop, Memory(m));
      if NoOverflow(ops + [Op.Pop], Memory(m)) {
        CancelPopView(c, Run(buf, m));
      }
    }
  }

  lemma PopNowRight(c: Cache, buf: seq<Step>, ops: seq<Op>, held: set<nat>)
    requires Right(c, buf, ops, held)
    requires Permutation(c.perm) && Turns(c.perm, 1) && !c.tagPending && c.deferred == 0
    ensures Right(c.(topDirty := false), buf + [TagEmptyAt(0)] + [AddTop(1)] + [StoreTop], ops + [Op.Pop], held)
  {
    TrackAppend(buf, TagEmptyAt(0));
    TrackAppend(buf + [TagEmptyAt(0)], AddTop(1));
    TrackAppend(buf + [TagEmptyAt(0)] + [AddTop(1)], StoreTop);
    forall m: Machine
      ensures Faithful(c.(topDirty := false), Run(buf + [TagEmptyAt(0)] + [AddTop(1)] + [StoreTop], m), Memory(m),
                       ops + [Op.Pop])
    {
      RunStep(buf, TagEmptyAt(0), m);
      RunStep(buf + [TagEmptyAt(0)], AddTop(1), m);
      RunStep(buf + [TagEmptyAt(0)] + [AddTop(1)], StoreTop, m);
      OneMoreOp(ops, Op.Pop, Memory(m));
      if NoOverflow(ops + [Op.Pop], Memory(m)) {
        PopNowView(c, Run(buf, m));
      }
    }
  }

  lemma PopNRight(c: Cache, buf: seq<Step>, ops: seq<Op>, held: set<nat>, n: nat)
    requires Right(c, buf, ops, held)
    requires Permutation(c.perm) && Turns(c.perm, n) && !c.tagPending && c.deferred <= 0
    ensures Right(c.(topDirty := true), buf + [TagEmptyFrom(n)] + [AddTop(n)], ops + [Op.PopN(n)], held)
  {
    TrackAppend(buf, TagEmptyFrom(n));
    TrackAppend(buf + [TagEmptyFrom(n)], AddTop(n));
    forall m: Machine
      ensures Faithful(c.(topDirty := true), Run(buf + [TagEmptyFrom(n)] + [AddTop(n)], m), Memory(m),
                       ops + [Op.PopN(n)])
    {
      RunStep(buf, TagEmptyFrom(n), m);
      RunStep(buf + [TagEmptyFrom(n)], AddTop(n), m);
      OneMoreOp(ops, Op.PopN(n), Memory(m));
      if NoOverflow(ops + [Op.PopN(n)], Memory(m)) {
        PopNView(c, Run(buf, m), n);
      }
    }
  }

  lemma FxchRight(c: Cache, buf: seq<Step>, ops: seq<Op>, held: set<nat>, d: nat)
    requires Right(c, buf, ops, held)
    requires Permutation(c.perm) && d < 8
    ensures Right(c.(perm := Swap(c.perm, 0, d), permDirty := true), buf, ops + [Op.Fxch(d)], held)
  {
    forall m: Machine
      ensures Faithful(c.(perm := Swap(c.perm, 0, d), permDirty := true), Run(buf, m), Memory(m), ops + [Op.Fxch(d)])
    {
      OneMoreOp(ops, Op.Fxch(d), Memory(m));
      if NoOverflow(ops, Memory(m)) {
        FxchView(c, Run(buf, m), d);
      }
    }
  }

  lemma FxchNowRight(c: Cache, buf: seq<Step>, ops: seq<Op>, held: set<nat>, d: Index, a: Reg, b: Reg)
    requires Right(c, buf, ops, held)
    requires Permutation(c.perm) && Pairs(c.perm, d) && a != b && a !in held && b !in held
    ensures Right(c, buf + [SwapSt(d, a, b)], ops + [Op.Fxch(d)], held)
  {
    TrackAppend(buf, SwapSt(d, a, b));
    forall m: Machine
      ensures Faithful(c, Run(buf + [SwapSt(d, a, b)], m), Memory(m), ops + [Op.Fxch(d)])
    {
      RunStep(buf, SwapSt(d, a, b), m);
      OneMoreOp(ops, Op.Fxch(d), Memory(m));
      if NoOverflow(ops, Memory(m)) {
        SwapNowView(c, Run(buf, m), d, a, b);
      }
    }
  }

  lemma FxchZeroRight(c: Cache, buf: seq<Step>, ops: seq<Op>, held: set<nat>)
    requires Right(c, buf, ops, held)
    ensures Right(c, buf, ops + [Op.Fxch(0)], held)
  {
    forall m: Machine
      ensures Faithful(c, Run(buf, m), Memory(m), ops + [Op.Fxch(0)])
    {
      OneMoreOp(ops, Op.Fxch(0), Memory(m));
      if NoOverflow(ops, Memory(m)) {
        var x := EagerAll(ops, Memory(m));
        assert Swap(x.st, Slot(x.top, 0), Slot(x.top, 0)) == x.st;
      }
    }
  }

  lemma RotateRight(c: Cache, buf: seq<Step>, ops: seq<Op>, held: set<nat>, delta: int)
    requires Right(c, buf, ops, held) && (delta == 1 || delta == -1)
    requires !c.permDirty && !c.tagPending && c.deferred <= 0
    ensures Right(c.(topDirty := true), buf + [AddTop(delta)], ops + [Op.Rotate(delta)], held)
  {
    TrackAppend(buf, AddTop(delta));
    forall m: Machine
      ensures Faithful(c.(topDirty := true), Run(buf + [AddTop(delta)], m), Memory(m), ops + [Op.Rotate(delta)])
    {
      RunStep(buf, AddTop(delta), m);
      OneMoreOp(ops, Op.Rotate(delta), Memory(m));
      if NoOverflow(ops, Memory(m)) {
        RotateView(c, Run(buf, m), delta);
      }
    }
  }

  lemma FreeRight(c: Cache, buf: seq<Step>, ops: seq<Op>, held: set<nat>, d: nat)
    requires Right(c, buf, ops, held)
    requires Permutation(c.perm) && !c.tagPending && c.deferred <= 0 && d < 8 && c.perm[d] == d
    ensures Right(c, buf + [TagEmptyAt(c.perm[d])], ops + [Op.Free(d)], held)
  {
    TrackAppend(buf, TagEmptyAt(c.perm[d]));
    forall m: Machine
      ensures Faithful(c, Run(buf + [TagEmptyAt(c.perm[d])], m), Memory(m), ops + [Op.Free(d)])
    {
      RunStep(buf, TagEmptyAt(c.perm[d]), m);
      OneMoreOp(ops, Op.Free(d), Memory(m));
      if NoOverflow(ops + [Op.Free(d)], Memory(m)) {
        FreeView(c, Run(buf, m), d);
      }
    }
  }

  lemma ExamineRight(c: Cache, buf: seq<Step>, ops: seq<Op>, held: set<nat>)
    requires Right(c, buf, ops, held) && !c.tagPending && c.deferred < 8
    ensures Right(c, buf + [StoreTag], ops + [Op.Examine], held)
  {
    TrackAppend(buf, StoreTag);
    forall m: Machine
      ensures Faithful(c, Run(buf + [StoreTag], m), Memory(m), ops + [Op.Examine])
    {
      RunStep(buf, StoreTag, m);
      OneMoreOp(ops, Op.Examine, Memory(m));
      if NoOverflow(ops + [Op.Examine], Memory(m)) {
        ExamineView(c, Run(buf, m));
      }
    }
  }

  lemma StatusRight(c: Cache, buf: seq<Step>, ops: seq<Op>, held: set<nat>)
    requires Right(c, buf, ops, held) && !c.topDirty
    ensures Right(c, buf + [StoreStatus], ops + [Op.ReadStatus], held)
  {
    TrackAppend(buf, StoreStatus);
    forall m: Machine
      ensures Faithful(c, Run(buf + [StoreStatus], m), Memory(m), ops + [Op.ReadStatus])
    {
      RunStep(buf, StoreStatus, m);
      OneMoreOp(ops, Op.ReadStatus, Memory(m));
      if NoOverflow(ops, Memory(m)) {
        StatusView(c, Run(buf, m));
      }
    }
  }

  /** A requested flush means nothing to the architecture. */
  lemma FlushRight(c: Cache, buf: seq<Step>, ops: seq<Op>, held: set<nat>, op: Op)
    requires Right(c, buf, ops, held)
    requires op == Op.FlushTop || (op == Op.FlushTags && c.deferred <= 0)
    ensures Right(c, buf, ops + [op], held)
  {
    forall m: Machine
      ensures Faithful(c, Run(buf, m), Memory(m), ops + [op])
    {
      OneMoreOp(ops, op, Memory(m));
    }
  }

  /** A prefix the IR lowers, entered with every debt paid. */
  lemma RegionRight(c: Cache, buf: seq<Step>, ops: seq<Op>, held: set<nat>, region: seq<Op>)
    requires Right(c, buf, ops, held) && Fetched(region)
    requires !c.topDirty && !c.tagPending && c.deferred <= 0 && !c.permDirty
    ensures Right(c, buf + [Region(region)], ops + region, {})
  {
    TrackAppend(buf, Region(region));
    forall m: Machine
      ensures Faithful(c, Run(buf + [Region(region)], m), Memory(m), ops + region)
    {
      RunStep(buf, Region(region), m);
      EagerAllConcat(ops, region, Memory(m));
      NoOverflowConcat(ops, region, Memory(m));
      if NoOverflow(ops + region, Memory(m)) {
        CleanView(c, Run(buf, m));
      }
    }
  }

  /** An fxch that only changes the permutation needs no register. */
  lemma FxchAtRest(c: Cache, buf: seq<Step>, ops: seq<Op>, d: Index)
    requires AtRest(c, buf, ops) && Permutation(c.perm)
    ensures AtRest(c.(perm := Swap(c.perm, 0, d), permDirty := true), buf, ops + [Op.Fxch(d)])
  {
    var c' := c.(perm := Swap(c.perm, 0, d), permDirty := true);
    forall m: Machine ensures Settled(c', Run(buf, m), Memory(m), ops + [Op.Fxch(d)]) {
      OneMoreOp(ops, Op.Fxch(d), Memory(m));
      if NoOverflow(ops, Memory(m)) {
        FxchView(c, Exec(LoadTop, Run(buf, m)), d);
      }
    }
  }

  lemma StatusAtRest(c: Cache, buf: seq<Step>, ops: seq<Op>)
    requires AtRest(c, buf, ops)
    ensures AtRest(c, buf + [StoreStatus], ops + [Op.ReadStatus])
  {
    TrackAppend(buf, StoreStatus);
    forall m: Machine
      ensures Settled(c, Run(buf + [StoreStatus], m), Memory(m), ops + [Op.ReadStatus])
    {
      RunStep(buf, StoreStatus, m);
      OneMoreOp(ops, Op.ReadStatus, Memory(m));
      if NoOverflow(ops, Memory(m)) {
        StatusRestView(c, Run(buf, m));
      }
    }
  }

  lemma StatusRestView(c: Cache, m: Machine)
    requires Permutation(c.perm)
    ensures View(c, Exec(LoadTop, Exec(StoreStatus, m))) == Eager(ReadStatus, View(c, Exec(LoadTop, m)))
  {
    var a, b := Exec(LoadTop, m), Exec(LoadTop, Exec(StoreStatus, m));
    assert b == a.(out := a.out + [a.regTop]);
    assert ViewTags(c, a) == ViewTags(c, b);
  }

  function StepFor(op: Op, perm: seq<nat>): (s: Step)
    requires Permutation(perm) && ValueOp(op)
  {
    match op
    case Load(d, r) => LoadSt(perm[d], r)
    case Store(d, r) => StoreSt(perm[d], r)
    case Const(r, v) => Fetch(r, v)
    case Alu(r, a, b, c, f) => Compute(r, a, b, c, f)
    case GuestStore(r) => Deliver(r)
  }

  predicate ValueOp(op: Op) {
    op.Load? || op.Store? || op.Const? || op.Alu? || op.GuestStore?
  }

  /** Loads, stores and arithmetic, at the depth the permutation names. */
  lemma ValueRight(c: Cache, buf: seq<Step>, ops: seq<Op>, held: set<nat>, op: Op)
    requires Right(c, buf, ops, held)
    requires Permutation(c.perm) && ValueOp(op) && Reads(op, held)
    ensures Right(c, buf + [StepFor(op, c.perm)], ops + [op], Holds(op, held))
  {
    TrackAppend(buf, StepFor(op, c.perm));
    forall m: Machine
      ensures Faithful(c, Run(buf + [StepFor(op, c.perm)], m), Memory(m), ops + [op])
    {
      RunStep(buf, StepFor(op, c.perm), m);
      OneMoreOp(ops, op, Memory(m));
      if NoOverflow(ops, Memory(m)) {
        ValueView(c, Run(buf, m), op);
      }
    }
  }

  lemma ValueView(c: Cache, m: Machine, op: Op)
    requires Coherent(c, m) && ValueOp(op)
    ensures var m' := Exec(StepFor(op, c.perm), m);
      Coherent(c, m') && View(c, m') == Eager(op, View(c, m)) && m'.tags == m.tags
  {
    match op
    case Load(d, r) => LoadView(c, m, d, r);
    case Store(d, r) => StoreView(c, m, d, r);
    case Const(r, v) => ConstView(c, m, r, v);
    case Alu(_, _, _, _, _) => ComputeView(c, m, op);
    case GuestStore(r) => DeliverView(c, m, r);
  }

  /** With the other flags clear the permutation alone is owed, if anything. */
  lemma RightSettles(c: Cache, buf: seq<Step>, ops: seq<Op>, held: set<nat>)
    requires Right(c, buf, ops, held)
    requires !c.topDirty && !c.tagPending && c.deferred <= 0
    ensures AtRest(c.(deferred := 0), buf, ops)
  {
    forall m: Machine
      ensures Settled(c.(deferred := 0), Run(buf, m), Memory(m), ops)
    {
      if NoOverflow(ops, Memory(m)) {
        var n := Run(buf, m);
        assert Faithful(c, n, Memory(m), ops);
        assert Exec(LoadTop, n) == n && c.(deferred := 0) == c;
      }
    }
  }
}
