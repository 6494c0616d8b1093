/** Writing a pending fxch permutation out to the slots (emit_x87_perm_flush in
    TranslatorX87Helpers.cpp): each cycle is rotated through two FP registers. */
module PermFlush {
  import opened X87Stack
  import opened DeferredState
  import opened ArmCode
  import opened SlotCode

  // ---- where every value is ----

  /** Depth d now holds what depth src[d] held at the start; `save` holds what
      depth sv held, if sv is a depth. */
  ghost predicate Moved(m: Machine, m': Machine, save: Reg, chain: Reg, src: seq<nat>, sv: nat) {
    && |src| == 8
    && m'.memTop == m.memTop && m'.regTop == m.regTop && m'.tags == m.tags && m'.out == m.out
    && (forall d :: 0 <= d < 8 ==> m'.st[Slot(m.regTop, d)] == m.st[Slot(m.regTop, src[d])])
    && (sv < 8 ==> m'.fpr[save] == m.st[Slot(m.regTop, sv)])
    && (forall r: Reg :: r != save && r != chain ==> m'.fpr[r] == m.fpr[r])
  }

  ghost predicate Moves(code: seq<Step>, save: Reg, chain: Reg, src: seq<nat>, sv: nat) {
    forall m: Machine {:trigger DeferredState.Run(code, m)} ::
      Moved(m, DeferredState.Run(code, m), save, chain, src, sv)
  }

  lemma SlotsOfDepths(top: nat, j: nat, d: nat)
    requires top < 8 && j < 8 && d < 8
    ensures Slot(top, j) == Slot(top, d) <==> j == d
  {}

  lemma LoadMoved(m: Machine, m1: Machine, save: Reg, chain: Reg, src: seq<nat>, sv: nat, d: Index)
    requires save != chain && Moved(m, m1, save, chain, src, sv)
    ensures Moved(m, DeferredState.Exec(LoadSt(d, save), m1), save, chain, src, src[d])
  {}

  lemma ChainMoved(m: Machine, m1: Machine, save: Reg, chain: Reg, src: seq<nat>, sv: nat, from: Index, to: Index)
    requires save != chain && Moved(m, m1, save, chain, src, sv)
    ensures Moved(m, DeferredState.Exec(StoreSt(to, chain), DeferredState.Exec(LoadSt(from, chain), m1)), save, chain,
                  src[to := src[from]], sv)
  {
    forall d | 0 <= d < 8 ensures Slot(m.regTop, to) == Slot(m.regTop, d) <==> to == d {
      SlotsOfDepths(m.regTop, to, d);
    }
  }

  lemma CloseMoved(m: Machine, m1: Machine, save: Reg, chain: Reg, src: seq<nat>, sv: nat, to: Index)
    requires Moved(m, m1, save, chain, src, sv) && sv < 8
    ensures Moved(m, DeferredState.Exec(StoreSt(to, save), m1), save, chain, src[to := sv], sv)
  {
    forall d | 0 <= d < 8 ensures Slot(m.regTop, to) == Slot(m.regTop, d) <==> to == d {
      SlotsOfDepths(m.regTop, to, d);
    }
  }

  lemma SaveMoves(code: seq<Step>, save: Reg, chain: Reg, src: seq<nat>, sv: nat, d: Index)
    requires save != chain && |src| == 8 && Moves(code, save, chain, src, sv)
    ensures Moves(code + [LoadSt(d, save)], save, chain, src, src[d])
  {
    forall m: Machine ensures Moved(m, DeferredState.Run(code + [LoadSt(d, save)], m), save, chain, src, src[d]) {
      DeferredState.RunStep(code, LoadSt(d, save), m);
      LoadMoved(m, DeferredState.Run(code, m), save, chain, src, sv, d);
    }
  }

  lemma ChainMoves(code: seq<Step>, save: Reg, chain: Reg, src: seq<nat>, sv: nat, from: Index, to: Index)
    requires save != chain && |src| == 8 && Moves(code, save, chain, src, sv)
    ensures Moves(code + [LoadSt(from, chain)] + [StoreSt(to, chain)], save, chain, src[to := src[from]], sv)
  {
    var code' := code + [LoadSt(from, chain)];
    forall m: Machine
      ensures Moved(m, DeferredState.Run(code' + [StoreSt(to, chain)], m), save, chain, src[to := src[from]], sv)
    {
      DeferredState.RunStep(code, LoadSt(from, chain), m);
      DeferredState.RunStep(code', StoreSt(to, chain), m);
      ChainMoved(m, DeferredState.Run(code, m), save, chain, src, sv, from, to);
    }
  }

  lemma CloseMoves(code: seq<Step>, save: Reg, chain: Reg, src: seq<nat>, sv: nat, to: Index)
    requires |src| == 8 && Moves(code, save, chain, src, sv) && sv < 8
    ensures Moves(code + [StoreSt(to, save)], save, chain, src[to := sv], sv)
  {
    forall m: Machine
      ensures Moved(m, DeferredState.Run(code + [StoreSt(to, save)], m), save, chain, src[to := sv], sv)
    {
      DeferredState.RunStep(code, StoreSt(to, save), m);
      CloseMoved(m, DeferredState.Run(code, m), save, chain, src, sv, to);
    }
  }

  // ---- the cycles ----

  function Count(v: seq<bool>): (n: nat)
    ensures n <= |v|
  {
    if v == [] then 0 else Count(v[..|v| - 1]) + if v[|v| - 1] then 1 else 0
  }

  lemma {:induction false} CountSet(v: seq<bool>, i: nat)
    requires i < |v| && !v[i]
    ensures Count(v[i := true]) == Count(v) + 1
  {
    var n := |v| - 1;
    if i == n {
      assert v[i := true][..n] == v[..n];
    } else {
      CountSet(v[..n], i);
      assert v[i := true][..n] == v[..n][i := true];
    }
  }

  /** Done cycles are done entirely. */
  ghost predicate WholeCycles(perm: Perm, v: seq<bool>, src: seq<nat>) {
    && |v| == 8 && |src| == 8
    && (forall d :: 0 <= d < 8 ==> (v[d] <==> v[perm[d]]))
    && (forall d :: 0 <= d < 8 ==> src[d] == if v[d] then perm[d] else d)
    && (forall d :: 0 <= d < 8 && v[d] ==> perm[d] != d)
  }

  /** One cycle is open: it began at i and has come as far as j. */
  ghost predicate OpenCycle(perm: Perm, v: seq<bool>, src: seq<nat>, i: nat, j: nat) {
    && |v| == 8 && |src| == 8 && i < 8 && j < 8 && v[i] && v[j]
    && (forall d :: 0 <= d < 8 && d != j && v[d] ==> v[perm[d]])
    && (forall d :: 0 <= d < 8 && v[perm[d]] && perm[d] != i ==> v[d])
    && (v[perm[j]] ==> perm[j] == i)
    && (forall d :: 0 <= d < 8 ==> src[d] == if v[d] && d != j then perm[d] else d)
    && (forall d :: 0 <= d < 8 && v[d] ==> perm[d] != d)
  }

  lemma Opens(perm: Perm, v: seq<bool>, src: seq<nat>, i: Index)
    requires WholeCycles(perm, v, src) && !v[i] && perm[i] != i
    ensures OpenCycle(perm, v[i := true], src, i, i)
  {}

  lemma Follows(perm: Perm, v: seq<bool>, src: seq<nat>, i: Index, j: Index)
    requires OpenCycle(perm, v, src, i, j) && perm[j] != i
    ensures !v[perm[j]] && OpenCycle(perm, v[perm[j] := true], src[j := src[perm[j]]], i, perm[j])
  {}

  lemma Closes(perm: Perm, v: seq<bool>, src: seq<nat>, i: Index, j: Index)
    requires OpenCycle(perm, v, src, i, j) && perm[j] == i
    ensures WholeCycles(perm, v, src[j := i])
  {}

  predicate DoneBelow(perm: Perm, v: seq<bool>, i: nat)
    requires |v| == 8 && i <= 8
  {
    forall d :: 0 <= d < i ==> v[d] || perm[d] == d
  }

  /** Depths that move. */
  function Displaced(perm: Perm): (v: seq<bool>)
    ensures |v| == 8
  {
    seq(8, d requires 0 <= d < 8 => perm[d] != d)
  }

  /** Loads and stores through the two registers. */
  predicate OnlyMoves(code: seq<Step>, save: Reg, chain: Reg) {
    forall k :: 0 <= k < |code| ==> (code[k].LoadSt? || code[k].StoreSt?) && code[k].r in {save, chain}
  }

  /** Between two cycles, and in the middle of one. */
  ghost predicate Between(perm: Perm, code: seq<Step>, save: Reg, chain: Reg, v: seq<bool>, src: seq<nat>, sv: nat) {
    WholeCycles(perm, v, src) && Moves(code, save, chain, src, sv) && |code| == 2 * Count(v)
    && OnlyMoves(code, save, chain)
  }

  ghost predicate Within(perm: Perm, code: seq<Step>, save: Reg, chain: Reg, v: seq<bool>, src: seq<nat>, i: Index,
                         j: Index) {
    OpenCycle(perm, v, src, i, j) && Moves(code, save, chain, src, i) && |code| == 2 * Count(v) - 1
    && OnlyMoves(code, save, chain)
  }

  lemma Start(perm: Perm, code: seq<Step>, save: Reg, chain: Reg, v: seq<bool>, src: seq<nat>, sv: nat, i: Index)
    requires save != chain && Between(perm, code, save, chain, v, src, sv) && !v[i] && perm[i] != i
    ensures Within(perm, code + [LoadSt(i, save)], save, chain, v[i := true], src, i, i)
  {
    SaveMoves(code, save, chain, src, sv, i);
    Opens(perm, v, src, i);
    CountSet(v, i);
  }

  lemma Advance(perm: Perm, code: seq<Step>, save: Reg, chain: Reg, v: seq<bool>, src: seq<nat>, i: Index, j: Index)
    requires save != chain && Within(perm, code, save, chain, v, src, i, j) && perm[j] != i
    ensures !v[perm[j]] && Count(v[perm[j] := true]) == Count(v) + 1
    ensures Within(perm, code + [LoadSt(perm[j], chain)] + [StoreSt(j, chain)], save, chain, v[perm[j] := true],
                   src[j := src[perm[j]]], i, perm[j])
  {
    Follows(perm, v, src, i, j);
    ChainMoves(code, save, chain, src, i, perm[j], j);
    CountSet(v, perm[j]);
  }

  lemma Finish(perm: Perm, code: seq<Step>, save: Reg, chain: Reg, v: seq<bool>, src: seq<nat>, i: Index, j: Index)
    requires Within(perm, code, save, chain, v, src, i, j) && perm[j] == i
    ensures Between(perm, code + [StoreSt(j, save)], save, chain, v, src[j := i], i)
  {
    Closes(perm, v, src, i, j);
    CloseMoves(code, save, chain, src, i, j);
  }

  lemma Nothing(perm: Perm, save: Reg, chain: Reg, v: seq<bool>)
    requires v == seq(8, _ => false)
    ensures Between(perm, [], save, chain, v, Identity(), 8)
  {
    CountNone(v);
  }

  lemma {:induction false} CountNone(v: seq<bool>)
    requires forall k :: 0 <= k < |v| ==> !v[k]
    ensures Count(v) == 0
  {
    if v != [] {
      CountNone(v[..|v| - 1]);
    }
  }

  lemma AllThere(perm: Perm, code: seq<Step>, save: Reg, chain: Reg, v: seq<bool>, src: seq<nat>, sv: nat)
    requires Between(perm, code, save, chain, v, src, sv)
    requires DoneBelow(perm, v, 8)
    ensures Moves(code, save, chain, perm, 8) && |code| == 2 * Count(Displaced(perm)) && OnlyMoves(code, save, chain)
  {
    assert v == Displaced(perm);
    assert src == perm;
    forall m: Machine ensures Moved(m, DeferredState.Run(code, m), save, chain, perm, 8) {
      assert Moved(m, DeferredState.Run(code, m), save, chain, src, sv);
    }
  }

  /** The emitter: loads and stores that leave every depth with the value of
      the depth the permutation names, two for each depth that moves. */
  method EmitPermFlush(perm: Perm, save: Reg, chain: Reg) returns (code: seq<Step>)
    requires save != chain
    ensures Moves(code, save, chain, perm, 8)
    ensures |code| == 2 * Count(Displaced(perm)) && OnlyMoves(code, save, chain)
  {
    code := [];
    var visited := seq(8, _ => false);
    ghost var src := Identity();
    ghost var sv := 8;
    Nothing(perm, save, chain, visited);
    for i := 0 to 8
      invariant Between(perm, code, save, chain, visited, src, sv)
      invariant DoneBelow(perm, visited, i)
    {
      if !visited[i] && perm[i] != i {
        code, visited, src := EmitCycle(perm, save, chain, i, code, visited, src, sv);
        sv := i;
      }
    }
    AllThere(perm, code, save, chain, visited, src, sv);
  }

  method EmitCycle(perm: Perm, save: Reg, chain: Reg, i: Index, code0: seq<Step>, visited0: seq<bool>,
                   ghost src0: seq<nat>, ghost sv: nat)
    returns (code: seq<Step>, visited: seq<bool>, ghost src: seq<nat>)
    requires save != chain && Between(perm, code0, save, chain, visited0, src0, sv) && !visited0[i] && perm[i] != i
    ensures Between(perm, code, save, chain, visited, src, i)
    ensures visited[i] && (DoneBelow(perm, visited0, i) ==> DoneBelow(perm, visited, i))
  {
    Start(perm, code0, save, chain, visited0, src0, sv, i);
    code, visited, src := code0 + [LoadSt(i, save)], visited0[i := true], src0;
    var j: Index := i;
    var next: Index := perm[j];
    while next != i
      invariant Within(perm, code, save, chain, visited, src, i, j) && next == perm[j]
      invariant forall d :: 0 <= d < 8 && visited0[d] ==> visited[d]
      decreases 8 - Count(visited)
    {
      Advance(perm, code, save, chain, visited, src, i, j);
      code := code + [LoadSt(next, chain)] + [StoreSt(j, chain)];
      visited, src := visited[next := true], src[j := src[next]];
      j := next;
      next := perm[j];
    }
    Finish(perm, code, save, chain, visited, src, i, j);
    code, src := code + [StoreSt(j, save)], src[j := i];
  }

  // ---- the result ----

  /** Moving along the permutation is the Permute step of the deferred state, but
      for the two registers used. */
  lemma MovesPermute(code: seq<Step>, save: Reg, chain: Reg, perm: Perm, m: Machine)
    requires Moves(code, save, chain, perm, 8)
    ensures var m' := DeferredState.Run(code, m);
      && m'.(fpr := m.fpr) == DeferredState.Exec(Permute(perm, save, chain), m)
      && m'.st == Permuted(perm, m.regTop, m.st)
      && forall r: Reg :: r != save && r != chain ==> m'.fpr[r] == m.fpr[r]
  {
    var m' := DeferredState.Run(code, m);
    assert Moved(m, m', save, chain, perm, 8);
    forall s: nat | s < 8 ensures m'.st[s] == Permuted(perm, m.regTop, m.st)[s] {
      PermutedAt(perm, m.regTop, m.st, s);
      SlotDepth(m.regTop, s);
      assert m'.st[Slot(m.regTop, Depth(m.regTop, s))] == m.st[Slot(m.regTop, perm[Depth(m.regTop, s)])];
    }
    assert m'.st == Permuted(perm, m.regTop, m.st);
  }

  /** The instructions of emit_load_st and emit_store_st for every move. */
  function Lower(native: bool, cached: bool, top: Reg, tmp: Reg, code: seq<Step>): (c: seq<Ins>) {
    if code == [] then []
    else
      Lower(native, cached, top, tmp, code[..|code| - 1]) +
      match code[|code| - 1]
      case LoadSt(d, r) => LoadCode(native, cached, top, d, tmp, r)
      case StoreSt(d, r) => StoreCode(native, cached, top, d, tmp, r)
      case _ => []
  }

  lemma {:induction false} LowerMeans(native: bool, cached: bool, top: Reg, tmp: Reg, code: seq<Step>, save: Reg,
                                      chain: Reg)
    requires top != tmp && OnlyMoves(code, save, chain)
    ensures Means(Lower(native, cached, top, tmp, code), top, native, code)
  {
    if code == [] {
      MeansNothing(top, native);
    } else {
      var init, last := code[..|code| - 1], code[|code| - 1];
      LowerMeans(native, cached, top, tmp, init, save, chain);
      assert code == init + [last];
      match last {
        case LoadSt(d, r) =>
          Loaded(top, d, tmp, r, native, cached);
          MeansThen(Lower(native, cached, top, tmp, init), LoadCode(native, cached, top, d, tmp, r), top, native, init,
                    [last]);
        case StoreSt(d, r) =>
          Stored(top, d, tmp, r, native, cached);
          MeansThen(Lower(native, cached, top, tmp, init), StoreCode(native, cached, top, d, tmp, r), top, native, init,
                    [last]);
      }
    }
  }

  /** Down to instructions: run from any state, the flush permutes the slots in
      memory and changes nothing else but the two registers. */
  method PermFlushCode(perm: Perm, save: Reg, chain: Reg, top: Reg, tmp: Reg, native: bool, cached: bool)
    returns (arm: seq<Ins>)
    requires save != chain && top != tmp
    ensures forall a: Arm, m: Machine {:trigger Shows(a, top, native, m)} :: Shows(a, top, native, m) ==>
      Rearranged(a, ArmCode.Run(arm, a), perm, save, chain, top, native, m)
  {
    var code := EmitPermFlush(perm, save, chain);
    arm := Lower(native, cached, top, tmp, code);
    LowerMeans(native, cached, top, tmp, code, save, chain);
    forall a: Arm, m: Machine | Shows(a, top, native, m)
      ensures Rearranged(a, ArmCode.Run(arm, a), perm, save, chain, top, native, m)
    {
      assert Refines(a, ArmCode.Run(arm, a), top, native, m, DeferredState.Run(code, m));
      MovesPermute(code, save, chain, perm, m);
    }
  }

  ghost predicate Rearranged(a: Arm, b: Arm, perm: Perm, save: Reg, chain: Reg, top: Reg, native: bool, m: Machine) {
    && Shows(b, top, native, DeferredState.Exec(Permute(perm, save, chain), m).(fpr := b.d))
    && OtherBits(b.status) == OtherBits(a.status)
    && forall r: Reg :: r != save && r != chain ==> b.d[r] == a.d[r]
  }
}
