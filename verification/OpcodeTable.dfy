/** Opcode numbers of the running host and of this program
    (OpcodeCompatibility.cpp): two tables built from the host's list of names. */
module OpcodeTable {
  import Opcodes


  datatype Option<T> = None | Some(value: T)

  type U16 = x: nat | x < 0x1_0000

  const UNMAPPED: U16 := 0xFFFF

  /** The synthetic opcode, past the end of the host's own. */
  const ARPL: U16 := 0x29C

  const COUNT: nat := 0x29D

  /** kOpcodeNames: a name, or none, for every id. */
  type Names = n: seq<Option<string>> | |n| == COUNT witness seq(COUNT, _ => None)

  predicate Bears(names: Names, i: nat, name: string) {
    i < COUNT && i != ARPL && names[i] == Some(name)
  }

  /** The least id from `from` up that bears the name. */
  function IdOf(names: Names, name: string, from: nat := 0): (i: U16)
    ensures i == UNMAPPED || (from <= i && Bears(names, i, name))
    ensures forall j :: from <= j && Bears(names, j, name) ==> i <= j && i != UNMAPPED
    decreases COUNT - from
  {
    if from >= COUNT then UNMAPPED
    else if Bears(names, from, name) then from
    else IdOf(names, name, from + 1)
  }

  /** The host opcode kept for id i once the first n host names are seen; the
      marker for "none" is a value of the same type. */
  function HostOf(names: Names, hosts: seq<string>, i: nat, n: nat): (h: U16)
    requires n <= |hosts|
  {
    if n == 0 then UNMAPPED
    else
      var before := HostOf(names, hosts, i, n - 1);
      if IdOf(names, hosts[n - 1]) == i && before == UNMAPPED then (n - 1) % 0x1_0000 else before
  }

  // ---- what the two lookups answer, for a list of names ----

  function ToInternal(names: Names, hosts: seq<string>, opcode: U16): (i: U16) {
    if opcode == |hosts| % 0x1_0000 then ARPL
    else if opcode < |hosts| then IdOf(names, hosts[opcode])
    else UNMAPPED
  }

  function ToHost(names: Names, hosts: seq<string>, opcode: U16): (h: U16) {
    if opcode == ARPL then |hosts| % 0x1_0000
    else if opcode < COUNT then HostOf(names, hosts, opcode, |hosts|)
    else UNMAPPED
  }

  /** h is the first host opcode with id i. */
  predicate First(names: Names, hosts: seq<string>, i: nat, h: nat, n: nat)
    requires n <= |hosts|
  {
    h < n && IdOf(names, hosts[h]) == i && forall k :: 0 <= k < h ==> IdOf(names, hosts[k]) != i
  }

  predicate Nowhere(names: Names, hosts: seq<string>, i: nat, n: nat)
    requires n <= |hosts|
  {
    forall k :: 0 <= k < n ==> IdOf(names, hosts[k]) != i
  }

  /** With fewer than 65536 names the table holds the first host opcode of each
      id, and the marker just for the ids no name leads to. */
  lemma {:induction false} HostOfIsFirst(names: Names, hosts: seq<string>, i: nat, n: nat)
    requires n <= |hosts| < 0x1_0000 && i != UNMAPPED
    ensures var h := HostOf(names, hosts, i, n);
      if h == UNMAPPED then Nowhere(names, hosts, i, n) else First(names, hosts, i, h, n)
  {
    if n > 0 {
      HostOfIsFirst(names, hosts, i, n - 1);
      var h := HostOf(names, hosts, i, n - 1);
      assert (n - 1) % 0x1_0000 == n - 1;
      FirstMore(names, hosts, i, h, n - 1);
    }
  }

  lemma FirstMore(names: Names, hosts: seq<string>, i: nat, h: nat, n: nat)
    requires n < |hosts|
    ensures First(names, hosts, i, h, n) ==> First(names, hosts, i, h, n + 1)
    ensures Nowhere(names, hosts, i, n) && IdOf(names, hosts[n]) == i ==> First(names, hosts, i, n, n + 1)
    ensures Nowhere(names, hosts, i, n) && IdOf(names, hosts[n]) != i ==> Nowhere(names, hosts, i, n + 1)
  {}

  /** There and back: a mapped id comes back, ARPL through the first opcode past
      the list. */
  lemma InternalRoundTrip(names: Names, hosts: seq<string>, i: U16)
    requires |hosts| < 0x1_0000
    ensures ToHost(names, hosts, ARPL) == |hosts| && ToInternal(names, hosts, |hosts|) == ARPL
    ensures i != ARPL && ToHost(names, hosts, i) != UNMAPPED ==>
      ToInternal(names, hosts, ToHost(names, hosts, i)) == i && First(names, hosts, i, ToHost(names, hosts, i), |hosts|)
  {
    if i != ARPL && i < COUNT {
      HostOfIsFirst(names, hosts, i, |hosts|);
    }
  }

  /** Back and there: a known host opcode goes to the first one of its name, so
      it is itself exactly when it is the first. */
  lemma HostRoundTrip(names: Names, hosts: seq<string>, h: U16)
    requires |hosts| < 0x1_0000 && h < |hosts| && ToInternal(names, hosts, h) != UNMAPPED
    ensures var i := ToInternal(names, hosts, h);
      && First(names, hosts, i, ToHost(names, hosts, i), |hosts|) && ToHost(names, hosts, i) <= h
      && (ToHost(names, hosts, i) == h <==> First(names, hosts, i, h, |hosts|))
  {
    var i := ToInternal(names, hosts, h);
    assert Bears(names, i, hosts[h]);
    HostOfIsFirst(names, hosts, i, |hosts|);
  }

  /** Every id that some host name leads to comes back. */
  ghost predicate RoundTrips(names: Names, hosts: seq<string>) {
    forall k :: 0 <= k < |hosts| && IdOf(names, hosts[k]) != UNMAPPED ==>
      var i := IdOf(names, hosts[k]); ToInternal(names, hosts, ToHost(names, hosts, i)) == i
  }

  /** A list of n names that puts the one known name where the truncated length
      points. */
  function Shadowing(name: string, other: string, n: nat): (hosts: seq<string>)
    ensures |hosts| == n
  {
    seq(n, k => if k == n % 0x1_0000 then name else other)
  }

  lemma {:induction false} HostOfOnly(names: Names, hosts: seq<string>, i: nat, n: nat, at: nat)
    requires n <= |hosts| && at < 0x1_0000 && i != UNMAPPED
    requires forall k :: 0 <= k < |hosts| ==> (IdOf(names, hosts[k]) == i <==> k == at)
    ensures HostOf(names, hosts, i, n) == if n <= at then UNMAPPED else at
  {
    if n > 0 {
      HostOfOnly(names, hosts, i, n - 1, at);
      assert n - 1 == at ==> (n - 1) % 0x1_0000 == at;
    }
  }

  lemma ShortListsRoundTrip(names: Names, hosts: seq<string>)
    requires |hosts| < 0x1_0000
    ensures RoundTrips(names, hosts)
  {
    forall k | 0 <= k < |hosts| && IdOf(names, hosts[k]) != UNMAPPED
      ensures var i := IdOf(names, hosts[k]); ToInternal(names, hosts, ToHost(names, hosts, i)) == i
    {
      var i := IdOf(names, hosts[k]);
      assert Bears(names, i, hosts[k]);
      HostOfIsFirst(names, hosts, i, |hosts|);
    }
  }

  lemma ShadowedByArpl(names: Names, name: string, other: string, n: nat)
    requires n >= 0x1_0000 && IdOf(names, name) != UNMAPPED && IdOf(names, other) == UNMAPPED
    ensures !RoundTrips(names, Shadowing(name, other, n))
  {
    var hosts := Shadowing(name, other, n);
    var k, i := n % 0x1_0000, IdOf(names, name);
    assert Bears(names, i, name) && hosts[k] == name;
    HostOfOnly(names, hosts, i, n, k);
    assert ToInternal(names, hosts, ToHost(names, hosts, i)) == ARPL;
  }

  /** The round trip holds for all lists of n names exactly when n is below
      65536: from there on the opcodes, and ARPL's, no longer fit 16 bits. */
  lemma RoundTripsIff(names: Names, name: string, other: string, n: nat)
    requires IdOf(names, name) != UNMAPPED && IdOf(names, other) == UNMAPPED
    ensures n < 0x1_0000 <==> forall hosts: seq<string> :: |hosts| == n ==> RoundTrips(names, hosts)
  {
    if n < 0x1_0000 {
      forall hosts: seq<string> | |hosts| == n ensures RoundTrips(names, hosts) {
        ShortListsRoundTrip(names, hosts);
      }
    } else {
      ShadowedByArpl(names, name, other, n);
    }
  }

  // ---- the ids that must be mapped ----

  const FCMOVB: U16 := 0x25
  const FUCOMIP: U16 := 0x30
  const F2XM1: U16 := 0xBC
  const FYL2XP1: U16 := 0x10B

  /** wait, mov, lea, movzx, movsx, movsxd, add, sub, and, or, xor, inc, dec. */
  const BRIDGED: seq<U16> := [0x291, 0x138, 0x121, 0x15C, 0x158, 0x159, 0x5, 0x6C, 0x6, 0x49, 0x74, 0x33, 0x23]

  /** What the stub filter claims, then what run bridging reads, in the order
      they are looked at. */
  function Required(): (ids: seq<U16>) {
    seq(12, k requires 0 <= k < 12 => FCMOVB + k) + seq(80, k requires 0 <= k < 80 => F2XM1 + k) + BRIDGED
  }

  /** Required are exactly the opcodes that the filter claims, every one with an
      emitter among them, and the ones that run bridging reads; each once. */
  lemma RequiredIff(id: U16)
    ensures id in Required() <==> Opcodes.Claimed(id) || id in BRIDGED
    ensures Opcodes.Dispatch(id).Emitter? ==> id in Required()
    ensures forall k, j :: 0 <= k < j < |Required()| ==> Required()[k] != Required()[j]
  {
    Opcodes.CountedIsEmitted(id);
    if 0x25 <= id <= 0x30 {
      assert Required()[id - 0x25] == id;
    } else if 0xBC <= id <= 0x10B {
      assert Required()[12 + id - 0xBC] == id;
    } else if id in BRIDGED {
      var k :| 0 <= k < |BRIDGED| && BRIDGED[k] == id;
      assert Required()[92 + k] == id;
    }
  }

  lemma FirstBearer(names: Names, i: nat, name: string)
    requires Bears(names, i, name) && forall j :: 0 <= j < i ==> !Bears(names, j, name)
    ensures IdOf(names, name) == i
  {}

  /** The two tables after h names. */
  predicate Forward(names: Names, hosts: seq<string>, table: seq<U16>, h: nat) {
    |table| == |hosts| && forall k :: 0 <= k < |hosts| ==> table[k] == if k < h then IdOf(names, hosts[k]) else UNMAPPED
  }

  predicate Backward(names: Names, hosts: seq<string>, table: seq<U16>, h: nat)
    requires h <= |hosts|
  {
    |table| == COUNT && forall i :: 0 <= i < COUNT ==> table[i] == HostOf(names, hosts, i, h)
  }

  lemma BackwardMore(names: Names, hosts: seq<string>, table: seq<U16>, h: nat)
    requires h < |hosts| && Backward(names, hosts, table, h)
    ensures var i := IdOf(names, hosts[h]);
      Backward(names, hosts, if i != UNMAPPED && table[i] == UNMAPPED then table[i := h % 0x1_0000] else table, h + 1)
  {
    var i := IdOf(names, hosts[h]);
    assert i != UNMAPPED ==> Bears(names, i, hosts[h]);
  }

  class Tables {
    const names: Names
    const modern: bool                  // the runtime is later than 26.4
    const legacyIn: U16 -> U16          // the 26.4 numbering
    const legacyOut: U16 -> U16

    var active: bool
    var hostToInternal: seq<U16>        // by host opcode
    var internalToHost: seq<U16>        // by id
    var hostArpl: U16
    ghost var hosts: seq<string>        // the list the tables were built from

    ghost predicate Valid()
      reads this
    {
      active ==>
        && |hostToInternal| == |hosts| && |internalToHost| == COUNT && hostArpl == |hosts| % 0x1_0000
        && (forall h :: 0 <= h < |hosts| ==> hostToInternal[h] == IdOf(names, hosts[h]))
        && (forall i :: 0 <= i < COUNT ==> internalToHost[i] == ToHost(names, hosts, i))
    }

    constructor (names: Names, modern: bool, legacyIn: U16 -> U16, legacyOut: U16 -> U16)
      ensures Valid() && !active && this.names == names && this.modern == modern
      ensures this.legacyIn == legacyIn && this.legacyOut == legacyOut
    {
      this.names, this.modern, this.legacyIn, this.legacyOut := names, modern, legacyIn, legacyOut;
      active, hostToInternal, internalToHost, hostArpl, hosts := false, [], [], ARPL, [];
    }

    /** The first id of every name. */
    method NamesById() returns (byName: map<string, U16>)
      ensures forall s :: s in byName <==> IdOf(names, s) != UNMAPPED
      ensures forall s :: s in byName ==> byName[s] == IdOf(names, s)
    {
      byName := map[];
      for i := 0 to COUNT
        invariant forall s :: s in byName ==> byName[s] < i && byName[s] == IdOf(names, s)
        invariant forall j, s :: 0 <= j < i && Bears(names, j, s) ==> s in byName
      {
        if i != ARPL && names[i].Some? && names[i].value !in byName {
          FirstBearer(names, i, names[i].value);
          byName := byName[names[i].value := i];
        }
      }
      forall s ensures s in byName <==> IdOf(names, s) != UNMAPPED {
        if IdOf(names, s) != UNMAPPED {
          assert Bears(names, IdOf(names, s), s);
        }
      }
    }

    /** The loop over the host's names. */
    method FillTables(hostNames: seq<string>) returns (forward: seq<U16>, backward: seq<U16>)
      ensures Forward(names, hostNames, forward, |hostNames|) && Backward(names, hostNames, backward, |hostNames|)
    {
      var byName := NamesById();
      forward := seq(|hostNames|, _ => UNMAPPED);
      backward := seq(COUNT, _ => UNMAPPED);
      for h := 0 to |hostNames|
        invariant Forward(names, hostNames, forward, h) && Backward(names, hostNames, backward, h)
      {
        BackwardMore(names, hostNames, backward, h);
        if hostNames[h] !in byName {
          continue;
        }
        var i := byName[hostNames[h]];
        forward := forward[h := i];
        if backward[i] == UNMAPPED {
          backward := backward[i := h % 0x1_0000];
        }
      }
    }

    method SetHostTable(hostNames: seq<string>)
      modifies this
      ensures Valid() && active && hosts == hostNames
    {
      hostToInternal, internalToHost := FillTables(hostNames);
      hosts := hostNames;
      hostArpl := |hostNames| % 0x1_0000;
      internalToHost := internalToHost[ARPL := hostArpl];
      active := true;
    }

    method ClearHostTable()
      modifies this
      ensures Valid() && !active
    {
      active, hostToInternal, internalToHost, hostArpl := false, [], [], ARPL;
    }

    function HostToInternal(opcode: U16): (i: U16)
      requires Valid()
      reads this
      ensures i == if active then ToInternal(names, hosts, opcode) else if modern then opcode else legacyIn(opcode)
    {
      if active then
        if opcode == hostArpl then ARPL
        else if opcode < |hostToInternal| then hostToInternal[opcode] else UNMAPPED
      else if modern then opcode
      else legacyIn(opcode)
    }

    function InternalToHost(opcode: U16): (h: U16)
      requires Valid()
      reads this
      ensures h == if active then ToHost(names, hosts, opcode) else if modern then opcode else legacyOut(opcode)
    {
      if active then
        if opcode < |internalToHost| then internalToHost[opcode] else UNMAPPED
      else if modern then opcode
      else legacyOut(opcode)
    }

    /** The first required id without a host opcode is number k. */
    ghost predicate FirstMissing(k: nat)
      requires Valid()
      reads this
    {
      && k < |Required()| && InternalToHost(Required()[k]) == UNMAPPED
      && forall j :: 0 <= j < k ==> InternalToHost(Required()[j]) != UNMAPPED
    }

    /** Stops at the first required id without a host opcode. */
    method FirstUnmappedRequired() returns (op: U16)
      requires Valid()
      ensures !active ==> op == UNMAPPED
      ensures active && op == UNMAPPED ==> forall i :: i in Required() ==> InternalToHost(i) != UNMAPPED
      ensures op != UNMAPPED ==> exists k: nat :: FirstMissing(k) && op == Required()[k]
    {
      if !active {
        return UNMAPPED;
      }
      for i := FCMOVB to FUCOMIP + 1
        invariant forall k :: 0 <= k < i - FCMOVB ==> InternalToHost(Required()[k]) != UNMAPPED
      {
        assert Required()[i - FCMOVB] == i;
        if internalToHost[i] == UNMAPPED {
          assert FirstMissing(i - FCMOVB);
          return i;
        }
      }
      for i := F2XM1 to FYL2XP1 + 1
        invariant forall k :: 0 <= k < 12 + i - F2XM1 ==> InternalToHost(Required()[k]) != UNMAPPED
      {
        assert Required()[12 + i - F2XM1] == i;
        if internalToHost[i] == UNMAPPED {
          assert FirstMissing(12 + i - F2XM1);
          return i;
        }
      }
      for k := 0 to |BRIDGED|
        invariant forall j :: 0 <= j < 92 + k ==> InternalToHost(Required()[j]) != UNMAPPED
      {
        op := BRIDGED[k];
        assert Required()[92 + k] == op;
        if internalToHost[op] == UNMAPPED {
          assert FirstMissing(92 + k);
          return op;
        }
      }
      op := UNMAPPED;
    }
  }
}
