/** Exactly when each piece of emitted code is right: on every machine that the
    flags allow, whatever the slots hold, or not on all of them. */
module Guards {
  import opened X87Stack
  import opened DeferredState

  /** Flags that some machine can have. */
  predicate Possible(c: Cache) {
    && Permutation(c.perm) && (!c.permDirty ==> c.perm == Identity())
    && 0 <= c.deferred <= 127 && (c.tagPending ==> c.deferred == 0)
  }

  /** Slot s holds the number s; all registers but the first are in use. */
  function Numbered(c: Cache, top: Index): (m: Machine) {
    Machine(if c.topDirty then Slot(top, 1) else top, seq(8, s => if s == top then Tag.Empty else Tag.Valid),
            Identity(), top, seq(32, _ => 99), [])
  }

  lemma NumberedCoherent(c: Cache, top: Index)
    requires Possible(c)
    ensures Coherent(c, Numbered(c, top))
  {}

  /** All registers in use. */
  function Full(c: Cache, top: Index): (m: Machine) {
    Numbered(c, top).(tags := seq(8, _ => Tag.Valid))
  }

  lemma FullCoherent(c: Cache, top: Index)
    requires Possible(c)
    ensures Coherent(c, Full(c, top))
  {}

  lemma FromZero(perm: Perm, s: Index)
    ensures Permuted(perm, 0, Identity())[s] == perm[s]
  {
    PermutedAt(perm, 0, Identity(), s);
  }

  // ---- a permutation left over ----

  /** Memory alone is the state exactly when the permutation is the identity. */
  lemma LeftoverPermutation(c: Cache)
    requires Possible(c) && !c.topDirty && !c.tagPending && c.deferred == 0
    ensures (forall m: Machine :: Coherent(c, m) ==> View(c, m) == Memory(m)) <==> c.perm == Identity()
  {
    var m := Numbered(c, 0);
    NumberedCoherent(c, 0);
    if View(c, m) == Memory(m) {
      forall s | 0 <= s < 8 ensures c.perm[s] == Identity()[s] {
        FromZero(c.perm, s);
      }
    }
  }

  /** Read from two TOPs alike, the permutation turns with TOP. */
  lemma ReadsAlike(perm: Perm, n: nat)
    requires Permuted(perm, Slot(0, n), Identity()) == Permuted(perm, 0, Identity())
    ensures Turns(perm, n)
  {
    forall d | 0 <= d < 8 ensures TurnsAt(perm, n, d) {
      FromZero(perm, (d + n) % 8);
      FromTop(perm, n, d);
    }
  }

  lemma FromTop(perm: Perm, n: nat, d: Index)
    ensures Permuted(perm, Slot(0, n), Identity())[(d + n) % 8] == (perm[d] + n) % 8
  {
    AtDepth(perm, Slot(0, n), Identity(), d);
    SlotTurned(0, n, d);
    SlotTurned(0, n, perm[d]);
    Same((perm[d] + n) % 8);
    Same((d + n) % 8);
  }

  lemma Same(s: nat)
    requires s < 8
    ensures Slot(0, s) == s && Identity()[s] == s
  {}

  function PushedNow(m: Machine): (m': Machine) {
    Exec(TagValidTop, Exec(StoreTop, Exec(AddTop(-1), m)))
  }

  function PoppedNow(m: Machine): (m': Machine) {
    Exec(StoreTop, Exec(AddTop(1), Exec(TagEmptyAt(0), m)))
  }

  function PoppedMany(m: Machine, n: nat): (m': Machine) {
    Exec(AddTop(n), Exec(TagEmptyFrom(n), m))
  }

  /** Outside a run a push flushes no permutation.  It is the architectural one,
      whatever the slots hold, exactly when the permutation turns with TOP. */
  lemma PushPastPermutation(c: Cache)
    requires Possible(c) && !c.tagPending && c.deferred == 0
    ensures (forall m: Machine :: Coherent(c, m) ==>
        View(c, PushedNow(m)) == Eager(Push, View(c, m))) <==> Turns(c.perm, 1)
  {
    if Turns(c.perm, 1) {
      forall m: Machine | Coherent(c, m) ensures View(c, PushedNow(m)) == Eager(Push, View(c, m)) {
        PushNowView(c, m);
      }
    } else {
      var m := Numbered(c, 1);
      NumberedCoherent(c, 1);
      if View(c, PushedNow(m)) == Eager(Push, View(c, m)) {
        assert PushedNow(m).regTop == 0 && Slot(0, 1) == 1;
        ReadsAlike(c.perm, 1);
      }
    }
  }

  lemma PopPastPermutation(c: Cache)
    requires Possible(c) && !c.tagPending && c.deferred == 0
    ensures (forall m: Machine :: Coherent(c, m) ==>
        View(c.(topDirty := false), PoppedNow(m)) == Eager(Pop, View(c, m))) <==> Turns(c.perm, 1)
  {
    if Turns(c.perm, 1) {
      forall m: Machine | Coherent(c, m) ensures View(c.(topDirty := false), PoppedNow(m)) == Eager(Pop, View(c, m)) {
        PopNowView(c, m);
      }
    } else {
      var m := Numbered(c, 0);
      NumberedCoherent(c, 0);
      if View(c.(topDirty := false), PoppedNow(m)) == Eager(Pop, View(c, m)) {
        ReadsAlike(c.perm, 1);
      }
    }
  }

  lemma PopManyPastPermutation(c: Cache, n: nat)
    requires Possible(c) && !c.tagPending && c.deferred == 0
    ensures (forall m: Machine :: Coherent(c, m) ==>
        View(c.(topDirty := true), PoppedMany(m, n)) == Eager(PopN(n), View(c, m))) <==> Turns(c.perm, n)
  {
    if Turns(c.perm, n) {
      forall m: Machine | Coherent(c, m)
        ensures View(c.(topDirty := true), PoppedMany(m, n)) == Eager(PopN(n), View(c, m))
      {
        PopNView(c, m, n);
      }
    } else {
      NumberedCoherent(c, 0);
      if View(c.(topDirty := true), PoppedMany(Numbered(c, 0), n)) == Eager(PopN(n), View(c, Numbered(c, 0))) {
        PoppedAlike(c, n);
      }
    }
  }

  lemma PoppedAlike(c: Cache, n: nat)
    requires Possible(c)
    requires View(c.(topDirty := true), PoppedMany(Numbered(c, 0), n)) == Eager(PopN(n), View(c, Numbered(c, 0)))
    ensures Turns(c.perm, n)
  {
    var x := Eager(PopN(n), View(c, Numbered(c, 0)));
    assert x.st == Permuted(c.perm, 0, Identity());
    ReadsAlike(c.perm, n);
  }

  /** An fxch in memory past a permutation is right exactly when the permutation
      keeps the two registers among themselves. */
  lemma SwapPastPermutation(c: Cache, d: Index, a: Reg, b: Reg)
    requires Possible(c) && d != 0
    ensures (forall m: Machine :: Coherent(c, m) ==>
        View(c, Exec(SwapSt(d, a, b), m)) == Eager(Fxch(d), View(c, m))) <==>
      Pairs(c.perm, d)
  {
    if Pairs(c.perm, d) {
      forall m: Machine | Coherent(c, m) ensures View(c, Exec(SwapSt(d, a, b), m)) == Eager(Fxch(d), View(c, m)) {
        SwapNowView(c, m, d, a, b);
      }
    } else {
      NumberedCoherent(c, 0);
      if View(c, Exec(SwapSt(d, a, b), Numbered(c, 0))) == Eager(Fxch(d), View(c, Numbered(c, 0))) {
        SwapAlike(c, d, a, b);
      }
    }
  }

  lemma SwapAlike(c: Cache, d: Index, a: Reg, b: Reg)
    requires Possible(c) && d != 0
    requires View(c, Exec(SwapSt(d, a, b), Numbered(c, 0))) == Eager(Fxch(d), View(c, Numbered(c, 0)))
    ensures Pairs(c.perm, d)
  {
    SwapSlots(c, Numbered(c, 0), d, a, b);
    ExchangedSlots(View(c, Numbered(c, 0)), d);
    SwappedAlike(c.perm, d);
  }

  lemma SwapSlots(c: Cache, m: Machine, d: Index, a: Reg, b: Reg)
    requires Possible(c) && m == Numbered(c, 0)
    ensures View(c, Exec(SwapSt(d, a, b), m)).st == Permuted(c.perm, 0, Swap(Identity(), 0, d))
    ensures View(c, m).st == Permuted(c.perm, 0, Identity()) && View(c, m).top == 0
  {
    Same(d);
  }

  lemma ExchangedSlots(x: X87, d: Index)
    requires x.top == 0
    ensures Eager(Fxch(d), x).st == Swap(x.st, 0, d)
  {
    Same(d);
  }

  lemma SwappedAlike(perm: Perm, d: Index)
    requires d != 0
    requires Permuted(perm, 0, Swap(Identity(), 0, d)) == Swap(Permuted(perm, 0, Identity()), 0, d)
    ensures Pairs(perm, d)
  {
    PermutedAt(perm, 0, Swap(Identity(), 0, d), 0);
    PermutedAt(perm, 0, Swap(Identity(), 0, d), d);
    FromZero(perm, 0);
    FromZero(perm, d);
    assert Swap(Identity(), 0, d)[perm[0]] == perm[d] && Swap(Identity(), 0, d)[perm[d]] == perm[0];
  }

  /** The lone emitters take ST(0) to be at depth 0. */
  lemma LoadPastPermutation(c: Cache, r: Reg)
    requires Possible(c)
    ensures (forall m: Machine :: Coherent(c, m) ==>
        View(c, Exec(LoadSt(0, r), m)) == Eager(Load(0, r), View(c, m))) <==>
      c.perm[0] == 0
  {
    if c.perm[0] == 0 {
      forall m: Machine | Coherent(c, m) ensures View(c, Exec(LoadSt(0, r), m)) == Eager(Load(0, r), View(c, m)) {
        LoadView(c, m, 0, r);
      }
    } else {
      var m := Numbered(c, 0);
      NumberedCoherent(c, 0);
      FromZero(c.perm, 0);
      assert View(c, Exec(LoadSt(0, r), m)).fpr[r] == 0;
    }
  }

  lemma StorePastPermutation(c: Cache, r: Reg)
    requires Possible(c)
    ensures (forall m: Machine :: Coherent(c, m) ==>
        View(c, Exec(StoreSt(0, r), m)) == Eager(Store(0, r), View(c, m))) <==>
      c.perm[0] == 0
  {
    if c.perm[0] == 0 {
      forall m: Machine | Coherent(c, m) ensures View(c, Exec(StoreSt(0, r), m)) == Eager(Store(0, r), View(c, m)) {
        StoreView(c, m, 0, r);
      }
    } else {
      var m := Numbered(c, 0);
      NumberedCoherent(c, 0);
      PermutedAt(c.perm, 0, Exec(StoreSt(0, r), m).st, 0);
      assert Eager(Store(0, r), View(c, m)).st[0] == 99;
    }
  }

  /** Both together leave only the identity. */
  lemma TurnsFromZero(perm: Perm)
    ensures Turns(perm, 1) && perm[0] == 0 <==> perm == Identity()
  {
    IdentityTurns(1);
    if Turns(perm, 1) && perm[0] == 0 {
      assert TurnsAt(perm, 1, 0) && TurnsAt(perm, 1, 1) && TurnsAt(perm, 1, 2) && TurnsAt(perm, 1, 3);
      assert TurnsAt(perm, 1, 4) && TurnsAt(perm, 1, 5) && TurnsAt(perm, 1, 6);
    }
  }

  /** The whole code of a lone fld, after its TOP is loaded. */
  function LoneFld(m: Machine, r: Reg, v: Value): (m': Machine) {
    Exec(StoreSt(0, r), PushedNow(Exec(Fetch(r, v), m)))
  }

  /** It is right exactly when no permutation is left over. */
  lemma LoneLoadPastPermutation(c: Cache, r: Reg)
    requires Possible(c) && !c.tagPending && c.deferred == 0
    ensures (forall m: Machine, v: Value :: Coherent(c, m) ==>
        View(c, LoneFld(m, r, v)) == Eager(Store(0, r), Eager(Push, Eager(Const(r, v), View(c, m))))) <==>
      c.perm == Identity()
  {
    if c.perm == Identity() {
      forall m: Machine, v: Value | Coherent(c, m)
        ensures View(c, LoneFld(m, r, v)) == Eager(Store(0, r), Eager(Push, Eager(Const(r, v), View(c, m))))
      {
        LoneFldRight(c, m, r, v);
      }
    } else {
      NumberedCoherent(c, 1);
      LoneFldWrong(c, Numbered(c, 1), r);
    }
  }

  lemma LoneFldWrong(c: Cache, m: Machine, r: Reg)
    requires Possible(c) && c.perm != Identity() && m == Numbered(c, 1)
    ensures View(c, LoneFld(m, r, 99)) != Eager(Store(0, r), Eager(Push, Eager(Const(r, 99), View(c, m))))
  {
    assert View(c, LoneFld(m, r, 99)).st == Permuted(c.perm, 0, Identity()[0 := 99]);
    var x := Eager(Store(0, r), Eager(Push, Eager(Const(r, 99), View(c, m))));
    assert x.st == Permuted(c.perm, 1, Identity())[0 := 99];
    if Permuted(c.perm, 0, Identity()[0 := 99]) == Permuted(c.perm, 1, Identity())[0 := 99] {
      PushedAlike(c.perm);
    }
  }

  lemma LoneFldRight(c: Cache, m: Machine, r: Reg, v: Value)
    requires Coherent(c, m) && c.perm == Identity() && !c.tagPending && c.deferred == 0
    ensures View(c, LoneFld(m, r, v)) == Eager(Store(0, r), Eager(Push, Eager(Const(r, v), View(c, m))))
  {
    IdentityTurns(1);
    ConstView(c, m, r, v);
    PushNowView(c, Exec(Fetch(r, v), m));
    StoreView(c, PushedNow(Exec(Fetch(r, v), m)), 0, r);
  }

  lemma PushedAlike(perm: Perm)
    requires Permuted(perm, 0, Identity()[0 := 99]) == Permuted(perm, 1, Identity())[0 := 99]
    ensures perm == Identity()
  {
    LoneAt(perm, 0);
    forall s | 0 < s < 8 ensures perm[s] == (perm[s - 1] + 1) % 8 {
      LoneAt(perm, s);
      TurnedAt(perm, s);
    }
    Ascending(perm);
  }

  /** What the code leaves in slot s. */
  lemma LoneAt(perm: Perm, s: Index)
    ensures Permuted(perm, 0, Identity()[0 := 99])[s] == if perm[s] == 0 then 99 else perm[s]
  {
    AtDepth(perm, 0, Identity()[0 := 99], s);
    Same(s);
    Same(perm[s]);
  }

  /** What a push should leave there. */
  lemma TurnedAt(perm: Perm, s: Index)
    requires s > 0
    ensures Permuted(perm, 1, Identity())[s] == (perm[s - 1] + 1) % 8
  {
    AtDepth(perm, 1, Identity(), s - 1);
    assert Slot(1, s - 1) == s;
    Same(Slot(1, perm[s - 1]));
  }

  lemma Ascending(perm: Perm)
    requires perm[0] == 0 && forall s :: 0 < s < 8 ==> perm[s] == (perm[s - 1] + 1) % 8
    ensures perm == Identity()
  {
    assert perm[1] == 1 && perm[2] == 2 && perm[3] == 3 && perm[4] == 4;
    assert perm[5] == 5 && perm[6] == 6 && perm[7] == 7;
  }

  // ---- inside a run ----

  /** ffree through a pending exchange is right exactly when the exchange leaves
      its depth alone. */
  lemma FreeThroughPermutation(c: Cache, d: Index)
    requires Possible(c) && !c.tagPending && c.deferred == 0
    ensures (forall m: Machine :: Coherent(c, m) ==>
        View(c, Exec(TagEmptyAt(c.perm[d]), m)) == Eager(Free(d), View(c, m))) <==> c.perm[d] == d
  {
    if c.perm[d] == d {
      forall m: Machine | Coherent(c, m) ensures View(c, Exec(TagEmptyAt(c.perm[d]), m)) == Eager(Free(d), View(c, m)) {
        FreeView(c, m, d);
      }
    } else {
      FullCoherent(c, 0);
      FreeView(c, Full(c, 0), d);
    }
  }

  lemma ExaminePastPops(c: Cache)
    requires Possible(c) && !c.tagPending
    ensures (forall m: Machine :: Coherent(c, m) ==> View(c, Exec(StoreTag, m)) == Eager(Examine, View(c, m))) <==>
      c.deferred < 8
  {
    if c.deferred < 8 {
      forall m: Machine | Coherent(c, m) ensures View(c, Exec(StoreTag, m)) == Eager(Examine, View(c, m)) {
        ExamineView(c, m);
      }
    } else {
      FullCoherent(c, 0);
      ExamineView(c, Full(c, 0));
    }
  }

  lemma DeferredPop(c: Cache)
    requires Possible(c) && !c.permDirty && !c.tagPending
    ensures (forall m: Machine :: Coherent(c, m) ==>
        View(c.(topDirty := true, deferred := Int8(c.deferred + 1)), Exec(AddTop(1), m)) == Eager(Pop, View(c, m))) <==>
      c.deferred < 127
  {
    if c.deferred < 127 {
      forall m: Machine | Coherent(c, m)
        ensures View(c.(topDirty := true, deferred := Int8(c.deferred + 1)), Exec(AddTop(1), m)) ==
          Eager(Pop, View(c, m))
      {
        DeferPopView(c, m);
      }
    } else {
      FullCoherent(c, 0);
      DeferPopView(c, Full(c, 0));
      assert Full(c, 0).tags[0] == Tag.Valid;
    }
  }

  // ---- the end of a run ----

  /** Flags cleared with a debt outstanding: on one machine the state is the
      architectural one exactly when the debt changes nothing there. */
  lemma DroppedDebt(c: Cache, m: Machine)
    requires Coherent(c, m)
    ensures View(c.(topDirty := false, tagPending := false, deferred := 0), Exec(LoadTop, m)) == View(c, m) <==>
      m.memTop == m.regTop && ViewTags(c, m) == m.tags
  {
    var c' := c.(topDirty := false, tagPending := false, deferred := 0);
    assert View(c', Exec(LoadTop, m)).top == m.memTop && View(c', Exec(LoadTop, m)).tags == m.tags;
    if m.memTop == m.regTop {
      assert Exec(LoadTop, m) == m;
    }
  }

  /** On all machines it is exactly when there is none. */
  lemma ClearedFlags(c: Cache)
    requires Possible(c)
    ensures (forall m: Machine :: Coherent(c, m) ==>
        View(c.(topDirty := false, tagPending := false, deferred := 0), Exec(LoadTop, m)) == View(c, m)) <==>
      !c.topDirty && !c.tagPending && c.deferred == 0
  {
    if !c.topDirty && !c.tagPending && c.deferred == 0 {
      forall m: Machine | Coherent(c, m)
        ensures View(c.(topDirty := false, tagPending := false, deferred := 0), Exec(LoadTop, m)) == View(c, m)
      {
        DroppedDebt(c, m);
      }
    } else {
      var m := Numbered(c, 0);
      NumberedCoherent(c, 0);
      DroppedDebt(c, m);
      if c.tagPending {
        assert ViewTags(c, m)[0] == Tag.Valid;
      } else if c.deferred > 0 {
        assert ViewTags(c, m)[7] == Tag.Empty;
      }
    }
  }
}
