/** The block registry (register_block in ProfileRuntime.cpp). */
module BlockIds {
  import opened IrHash

  const MAX_BLOCKS: nat := 0x10_0000

  const OVERFLOW: nat := 0xFFFF_FFFF

  /** Where the block is and the hash of its instructions. */
  datatype Key = Key(ptr: nat, hash: U64)

  /** The distinct keys asked for, in the order they were first seen. */
  function Distinct(asked: seq<Key>): (d: seq<Key>)
    ensures |d| <= |asked|
  {
    if asked == [] then []
    else
      var init, k := Distinct(asked[..|asked| - 1]), asked[|asked| - 1];
      if k in init then init else init + [k]
  }

  function Index(d: seq<Key>, k: Key): (i: nat)
    ensures i <= |d| && (i < |d| <==> k in d) && (i < |d| ==> d[i] == k)
  {
    if d == [] then 0 else if d[0] == k then 0 else 1 + Index(d[1..], k)
  }

  /** How many distinct keys were asked for before k. */
  function Rank(asked: seq<Key>, k: Key): (n: nat) {
    Index(Distinct(asked), k)
  }

  /** The id k has after these requests. */
  function IdOf(asked: seq<Key>, k: Key): (id: nat) {
    if Rank(asked, k) < MAX_BLOCKS then Rank(asked, k) else OVERFLOW
  }

  predicate NoTwice(d: seq<Key>) {
    forall i, j :: 0 <= i < j < |d| ==> d[i] != d[j]
  }

  lemma {:induction false} DistinctNoTwice(asked: seq<Key>)
    ensures NoTwice(Distinct(asked)) && forall k :: k in asked <==> k in Distinct(asked)
  {
    if asked != [] {
      DistinctNoTwice(asked[..|asked| - 1]);
      assert asked == asked[..|asked| - 1] + [asked[|asked| - 1]];
    }
  }

  lemma {:induction false} IndexAt(d: seq<Key>, i: nat)
    requires NoTwice(d) && i < |d|
    ensures Index(d, d[i]) == i
  {
    if i > 0 {
      assert d[0] != d[i];
      assert NoTwice(d[1..]) by {
        forall a, b | 0 <= a < b < |d[1..]| ensures d[1..][a] != d[1..][b] {
          assert d[a + 1] != d[b + 1];
        }
      }
      IndexAt(d[1..], i - 1);
    }
  }

  lemma {:induction false} IndexAppend(d: seq<Key>, e: seq<Key>, k: Key)
    ensures Index(d + e, k) == if k in d then Index(d, k) else |d| + Index(e, k)
  {
    if d == [] {
      assert d + e == e;
    } else {
      assert (d + e)[1..] == d[1..] + e;
      IndexAppend(d[1..], e, k);
    }
  }

  lemma DistinctMore(asked: seq<Key>, k: Key)
    ensures Distinct(asked + [k]) == if k in Distinct(asked) then Distinct(asked) else Distinct(asked) + [k]
  {
    assert (asked + [k])[..|asked + [k]| - 1] == asked;
  }

  /** A key keeps its id, whatever is asked for later. */
  lemma {:induction false} IdKept(asked: seq<Key>, more: seq<Key>, k: Key)
    requires k in asked
    ensures IdOf(asked + more, k) == IdOf(asked, k)
    decreases |more|
  {
    if more == [] {
      assert asked + more == asked;
    } else {
      var init, last := more[..|more| - 1], more[|more| - 1];
      IdKept(asked, init, k);
      assert asked + more == (asked + init) + [last];
      DistinctMore(asked + init, last);
      DistinctNoTwice(asked + init);
      IndexAppend(Distinct(asked + init), [last], k);
    }
  }

  /** Different keys have different ids, as long as they have one. */
  lemma IdsDiffer(asked: seq<Key>, j: Key, k: Key)
    requires j in asked && k in asked && j != k
    ensures IdOf(asked, j) == IdOf(asked, k) ==> IdOf(asked, j) == OVERFLOW
  {
    DistinctNoTwice(asked);
  }

  /** The ids in use are the numbers below the count, one key for each, until 2^20
      are taken, and the largest 32-bit number for whatever comes later. */
  lemma IdsDense(asked: seq<Key>, id: nat)
    ensures (exists k :: k in asked && IdOf(asked, k) == id) <==>
      (id < |Distinct(asked)| && id < 1048576) || (id == 4294967295 && |Distinct(asked)| > 1048576)
  {
    var d := Distinct(asked);
    DistinctNoTwice(asked);
    if id < |d| && id < MAX_BLOCKS {
      IndexAt(d, id);
      assert d[id] in asked && IdOf(asked, d[id]) == id;
    } else if id == OVERFLOW && |d| > MAX_BLOCKS {
      IndexAt(d, MAX_BLOCKS);
      assert d[MAX_BLOCKS] in asked && IdOf(asked, d[MAX_BLOCKS]) == OVERFLOW;
    }
  }

  function FirstIds(d: seq<Key>): (n: nat) {
    if |d| < MAX_BLOCKS then |d| else MAX_BLOCKS
  }

  class Registry {
    var ids: map<Key, nat>
    var nextId: nat
    ghost var asked: seq<Key>

    /** The map holds the first keys seen, each with its place. */
    ghost predicate Valid()
      reads this
    {
      && nextId == FirstIds(Distinct(asked))
      && forall k :: (k in ids <==> Rank(asked, k) < nextId) && (k in ids ==> ids[k] == Rank(asked, k))
    }

    constructor ()
      ensures Valid() && asked == [] && nextId == 0
    {
      ids, nextId, asked := map[], 0, [];
    }

    method RegisterBlock(ptr: nat, hash: U64) returns (id: nat)
      requires Valid()
      modifies this
      ensures Valid()
      ensures asked == old(asked) + [Key(ptr, hash)]
      ensures id == IdOf(asked, Key(ptr, hash))
    {
      var key := Key(ptr, hash);
      var inserted := key !in ids;
      DistinctMore(asked, key);
      RanksMore(asked, key);
      asked := asked + [key];
      if !inserted {
        return ids[key];
      }
      ids := ids[key := nextId];
      if nextId >= MAX_BLOCKS {
        ids := ids - {key};
        return OVERFLOW;
      }
      nextId := nextId + 1;
      return ids[key];
    }

    method BlockCount() returns (n: nat)
      requires Valid()
      ensures n == FirstIds(Distinct(asked))
    {
      n := nextId;
    }
  }

  /** A request moves no other key. */
  lemma RanksMore(asked: seq<Key>, key: Key)
    ensures key in Distinct(asked) ==> forall k :: Rank(asked + [key], k) == Rank(asked, k)
    ensures key !in Distinct(asked) ==> Rank(asked + [key], key) == |Distinct(asked)| == Rank(asked, key)
    ensures key !in Distinct(asked) ==> forall k :: k != key ==>
      Rank(asked + [key], k) == if k in Distinct(asked) then Rank(asked, k) else |Distinct(asked)| + 1
  {
    DistinctMore(asked, key);
    if key !in Distinct(asked) {
      forall k ensures Index(Distinct(asked) + [key], k) ==
        if k in Distinct(asked) then Rank(asked, k) else if k == key then |Distinct(asked)| else |Distinct(asked)| + 1
      {
        IndexAppend(Distinct(asked), [key], k);
      }
    }
  }

  /** Two streams at one address that differ in a single canonical byte never
      share an id. */
  lemma VariantsApart(asked: seq<Key>, ptr: nat, s: seq<Instr>, t: seq<Instr>, internal: U16 -> U16, k: nat, b: Byte)
    requires k < |Bytes(s, internal)| && Bytes(t, internal) == Bytes(s, internal)[k := b] && !SameStream(s, t, internal)
    requires Key(ptr, Hash(s, internal)) in asked && Key(ptr, Hash(t, internal)) in asked
    requires IdOf(asked, Key(ptr, Hash(s, internal))) != OVERFLOW
    ensures IdOf(asked, Key(ptr, Hash(s, internal))) != IdOf(asked, Key(ptr, Hash(t, internal)))
  {
    HashDistinguishes(s, t, internal, k, b);
    IdsDiffer(asked, Key(ptr, Hash(s, internal)), Key(ptr, Hash(t, internal)));
  }
}
