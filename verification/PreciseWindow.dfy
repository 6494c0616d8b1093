/** Precise faults, level 2 (precise_window in Translator.cpp): a reply ends
    before every later access to guest memory, so that each access is the
    first instruction of its reply. */
module PreciseWindow {

  /** `mem[i]`: instruction i has a memory operand. */
  method Window(mem: seq<bool>, idx: nat, limit: nat) returns (k: nat)
    requires idx < |mem|
    ensures 1 <= k && idx + k <= |mem| && (limit >= 1 ==> k <= limit)
    ensures Quiet(mem, idx + 1, idx + k)
    ensures k < limit && idx + k < |mem| ==> mem[idx + k]
  {
    k := 1;
    while k < limit && idx + k < |mem| && !mem[idx + k]
      invariant 1 <= k && idx + k <= |mem| && (limit >= 1 ==> k <= limit)
      invariant Quiet(mem, idx + 1, idx + k)
    {
      k := k + 1;
    }
  }

  /** No instruction from i up to j accesses memory. */
  predicate Quiet(mem: seq<bool>, i: nat, j: nat)
    requires j <= |mem|
  {
    forall k :: i <= k < j ==> !mem[k]
  }

  /** The end of the window that starts at s. */
  function WindowEnd(mem: seq<bool>, s: nat, stop: nat): (e: nat)
    requires s < stop <= |mem|
    ensures OneWindow(mem, s, e, stop)
    decreases stop - s
  {
    NextAccess(mem, s + 1, stop)
  }

  function NextAccess(mem: seq<bool>, i: nat, stop: nat): (e: nat)
    requires i <= stop <= |mem|
    ensures i <= e <= stop && Quiet(mem, i, e) && (e == stop || mem[e])
    decreases stop - i
  {
    if i == stop || mem[i] then i else NextAccess(mem, i + 1, stop)
  }

  lemma OneEnd(mem: seq<bool>, s: nat, e: nat, stop: nat)
    requires s < stop <= |mem| && OneWindow(mem, s, e, stop)
    ensures e == WindowEnd(mem, s, stop)
  {}

  /** A window: only its first instruction accesses memory, and it ends at the
      run's end or at the next access. */
  predicate OneWindow(mem: seq<bool>, s: nat, e: nat, stop: nat)
    requires stop <= |mem|
  {
    s < e <= stop && Quiet(mem, s + 1, e) && (e == stop || mem[e])
  }

  /** The starts of the replies of a run, and its end. */
  predicate Cut(mem: seq<bool>, start: nat, stop: nat, cuts: seq<nat>)
    requires stop <= |mem|
  {
    && |cuts| >= 1 && cuts[0] == start && cuts[|cuts| - 1] == stop
    && forall i :: 0 < i < |cuts| ==> OneWindow(mem, cuts[i - 1], cuts[i], stop)
  }

  /** Cutting a run window by window: the windows are non-empty and partition
      it, only the first instruction of each accesses memory, and each is as
      long as that allows. */
  method CutRun(mem: seq<bool>, start: nat, stop: nat) returns (cuts: seq<nat>)
    requires start <= stop <= |mem|
    ensures Cut(mem, start, stop, cuts)
  {
    cuts := [start];
    var idx := start;
    while idx < stop
      invariant start <= idx <= stop && |cuts| >= 1 && cuts[0] == start && cuts[|cuts| - 1] == idx
      invariant forall i :: 0 < i < |cuts| ==> OneWindow(mem, cuts[i - 1], cuts[i], stop)
    {
      var k := Window(mem, idx, stop - idx);
      idx := idx + k;
      cuts := cuts + [idx];
    }
  }

  /** Which window an index falls in. */
  lemma {:induction false} WindowOf(mem: seq<bool>, start: nat, stop: nat, cuts: seq<nat>, x: nat, n: nat)
    returns (i: nat)
    requires stop <= |mem| && Cut(mem, start, stop, cuts) && 0 < n < |cuts| && start <= x < cuts[n]
    ensures 0 < i <= n && cuts[i - 1] <= x < cuts[i] && OneWindow(mem, cuts[i - 1], cuts[i], stop)
    decreases n
  {
    assert OneWindow(mem, cuts[n - 1], cuts[n], stop);
    if cuts[n - 1] <= x {
      i := n;
    } else {
      i := WindowOf(mem, start, stop, cuts, x, n - 1);
    }
  }

  /** The cuts inside a run are exactly its later memory accesses. */
  lemma CutsAreAccesses(mem: seq<bool>, start: nat, stop: nat, cuts: seq<nat>, x: nat)
    requires stop <= |mem| && Cut(mem, start, stop, cuts) && start < x < stop
    ensures mem[x] <==> x in cuts
  {
    if mem[x] {
      var i := WindowOf(mem, start, stop, cuts, x, |cuts| - 1);
      assert cuts[i - 1] == x;
    }
    if x in cuts {
      var i :| 0 <= i < |cuts| && cuts[i] == x;
      CutIsAccess(mem, start, stop, cuts, i);
    }
  }

  lemma CutIsAccess(mem: seq<bool>, start: nat, stop: nat, cuts: seq<nat>, i: nat)
    requires stop <= |mem| && Cut(mem, start, stop, cuts) && 0 < i < |cuts| && cuts[i] != stop
    ensures cuts[i] < stop && mem[cuts[i]]
  {
    assert OneWindow(mem, cuts[i - 1], cuts[i], stop);
  }

  lemma {:induction false} CutsAgree(mem: seq<bool>, start: nat, stop: nat, a: seq<nat>, b: seq<nat>, n: nat)
    requires stop <= |mem| && Cut(mem, start, stop, a) && Cut(mem, start, stop, b) && n < |a|
    ensures n < |b| && a[n] == b[n]
    decreases n
  {
    if n > 0 {
      CutsAgree(mem, start, stop, a, b, n - 1);
      assert OneWindow(mem, a[n - 1], a[n], stop);
      assert OneWindow(mem, b[n - 1], b[n], stop);
    }
  }

  /** There is one way to cut a run. */
  lemma CutsUnique(mem: seq<bool>, start: nat, stop: nat, a: seq<nat>, b: seq<nat>)
    requires stop <= |mem| && Cut(mem, start, stop, a) && Cut(mem, start, stop, b)
    ensures a == b
  {
    CutsAgree(mem, start, stop, a, b, |a| - 1);
    CutsAgree(mem, start, stop, b, a, |b| - 1);
    forall n | 0 <= n < |a| ensures a[n] == b[n] {
      CutsAgree(mem, start, stop, a, b, n);
    }
  }

  /** A fusion stays below idx + precise_window(idx, 8): it takes no memory access
      but its first instruction's, and passes the cut its reply ends at only where
      that is the end of the run and the instruction there accesses no memory. */
  method FusionBound(mem: seq<bool>, idx: nat, ghost stop: nat, ghost s: nat, ghost e: nat) returns (bound: nat)
    requires stop <= |mem| && OneWindow(mem, s, e, stop) && s <= idx < e
    ensures idx < bound <= |mem| && bound <= idx + 8
    ensures Quiet(mem, idx + 1, bound) && (bound < idx + 8 && bound < |mem| ==> mem[bound])
    ensures bound > e ==> e == stop && !mem[e]
  {
    var k := Window(mem, idx, 8);
    bound := idx + k;
  }
}
