/** The emitters' side of the deferred x87 stack: the cache flags a run keeps
    and the primitives that change them and append code
    (TranslatorX87Internal.hpp, with the emitters of TranslatorX87.cpp that
    touch the flags directly). */
module DeferredStack {
  import opened X87Stack
  import opened DeferredState
  import opened Guards
  import opened Flags
  import opened SlotFormat
  import opened SlotNotes

  /** What holds between two instructions: code and flags together stand for
      the eager state, with TOP held in its register or with nothing held. */
  ghost predicate Resting(c: Cache, buf: seq<Step>, ops: seq<Op>) {
    if c.gprsValid then c.run > 0 && Right(c, buf, ops, {})
    else !c.topDirty && !c.tagPending && c.deferred == 0 && AtRest(c, buf, ops)
  }

  /** X87_GATE_FLUSH_THRESHOLD_* and X87_ENABLE_ROLLBACK_*. */
  datatype GateConfig = GateConfig(topThreshold: nat, popThreshold: nat, permThreshold: nat,
                                   undoTop: bool, undoPops: bool)

  /** A threshold of zero stands for the default. */
  function Threshold(n: nat): (t: nat) {
    if n == 0 then 3 else n
  }

  /** What the gate flushed and may have to take back. */
  datatype Arm = Nothing | Top | Pops | Perm | Refused

  /** The gate refuses a short run, and a run whose one debt it may not flush
      yet; the debts are looked at in this order. */
  predicate Refuses(cfg: GateConfig, c: Cache) {
    || c.run < 3
    || (c.topDirty && !(c.gprsValid && c.run >= Threshold(cfg.topThreshold)))
    || (!c.topDirty && c.deferred != 0 && !(c.gprsValid && c.run >= Threshold(cfg.popThreshold) && c.deferred <= 2))
    || (!c.topDirty && c.deferred == 0 && c.permDirty && !(c.gprsValid && c.run >= Threshold(cfg.permThreshold)))
  }

  /** The debt that the gate looks at. */
  datatype Debt = NoDebt | TopOwed | PopsOwed | OrderOwed

  function FirstDebt(c: Cache): (d: Debt) {
    if c.topDirty then TopOwed else if c.deferred != 0 then PopsOwed else if c.permDirty then OrderOwed else NoDebt
  }

  /** The shortest run for which the gate pays that debt. */
  function LeastRun(cfg: GateConfig, d: Debt): (n: nat)
    ensures n >= 3
  {
    var t := match d
      case NoDebt => 3
      case TopOwed => Threshold(cfg.topThreshold)
      case PopsOwed => Threshold(cfg.popThreshold)
      case OrderOwed => Threshold(cfg.permThreshold);
    if t < 3 then 3 else t
  }

  /** The gate opens for runs that are long enough for the debt there is, once TOP
      is in its register, and for no more than two deferred pops; a longer run
      never closes it. */
  lemma GateOpens(cfg: GateConfig, c: Cache, more: nat)
    ensures !Refuses(cfg, c) <==>
      && c.run >= LeastRun(cfg, FirstDebt(c)) && (FirstDebt(c).NoDebt? || c.gprsValid)
      && (FirstDebt(c).PopsOwed? ==> c.deferred <= 2)
    ensures Refuses(cfg, c.(run := c.run + more)) ==> Refuses(cfg, c)
  {}

  /** With no thresholds set every run of three or more passes, whatever one debt
      it owes. */
  lemma DefaultGate(cfg: GateConfig, c: Cache)
    requires cfg.topThreshold == cfg.popThreshold == cfg.permThreshold == 0 && c.gprsValid && c.deferred <= 2
    ensures Refuses(cfg, c) <==> c.run < 3
  {}

  /** Once it has opened the first debt is paid and the others are as they were. */
  lemma GatePays(cfg: GateConfig, c: Cache)
    requires !Refuses(cfg, c)
    ensures match FirstDebt(c)
      case NoDebt => Gated(c) == c
      case TopOwed => Gated(c).(topDirty := true) == c && !Gated(c).topDirty
      case PopsOwed => Gated(c).(deferred := c.deferred) == c && Gated(c).deferred == 0
      case OrderOwed => FirstDebt(Gated(c)).NoDebt? && Gated(c).perm == Identity()
                        && Gated(c).(perm := c.perm, permDirty := true) == c
  {}

  /** The flags after the gate's one flush. */
  function Gated(c: Cache): (c': Cache) {
    if c.topDirty then c.(topDirty := false)
    else if c.deferred != 0 then c.(deferred := 0)
    else if c.permDirty then c.(perm := Identity(), permDirty := false)
    else c
  }

  /** The flags after an attempt of the IR that came to nothing: the flush is
      taken back as far as the configuration allows. */
  function Declined(cfg: GateConfig, c: Cache): (c': Cache) {
    if Refuses(cfg, c) || (if c.topDirty then cfg.undoTop else c.deferred == 0 || cfg.undoPops) then c else Gated(c)
  }

  /** The state before a speculative flush: code end, slot formats, flags. */
  datatype Saved = Saved(buf: seq<Step>, slots: Tracker, cache: Cache)

  class Emitter {
    var cache: Cache
    var slots: Tracker
    var buf: seq<Step>
    var save: Reg                      // the two scratch FP registers free during
    var chain: Reg                     //   the current instruction
    const deferFxch: bool

    /** The stack operations asked for so far. */
    ghost var ops: seq<Op>

    /** The scratch registers in which the current instruction holds values. */
    ghost var held: set<nat>

    /** Nothing has been emitted yet that is wrong on some machine with the flags
        it was emitted for (Flags.Misses). */
    ghost var sound: bool

    ghost predicate Built()
      reads this
    {
      WellKept(cache) && save != chain && save !in held && chain !in held
    }

    /** Inside an instruction: TOP is in its register. */
    ghost predicate Loaded()
      reads this
    {
      && Built()
      && (sound ==>
            && (cache.gprsValid <==> cache.run > 0)
            && (cache.run == 0 ==> !cache.tagPending && cache.deferred == 0)
            && Right(cache, buf, ops, held))
    }

    /** Between instructions. */
    ghost predicate Between()
      reads this
    {
      Built() && (sound ==> Resting(cache, buf, ops))
    }

    constructor (deferFxch: bool)
      ensures Between() && ops == [] && buf == [] && sound && held == {}
      ensures cache == Cache(false, false, 0, Identity(), false, 0, false) && this.deferFxch == deferFxch
      ensures slots == STOCK
    {
      cache := Cache(false, false, 0, Identity(), false, 0, false);
      buf := [];
      slots := STOCK;
      save, chain := 0, 1;
      this.deferFxch := deferFxch;
      ops, held, sound := [], {}, true;
      NothingYet(Cache(false, false, 0, Identity(), false, 0, false));
    }

    // ---- preamble and epilogue ----

    /** The allocator names the FP registers that are free. */
    method Prepare(save: Reg, chain: Reg)
      requires Between() && save != chain
      modifies this`save, this`chain, this`held
      ensures Between() && held == {} && this.save == save && this.chain == chain
    {
      this.save, this.chain, held := save, chain, {};
    }

    method Begin()
      requires Between() && held == {}
      modifies this`buf, this`cache
      ensures Loaded()
      ensures cache == Begun(old(cache))
      ensures buf == if old(cache).run > 0 && old(cache).gprsValid then old(buf) else old(buf) + [LoadTop]
    {
      if cache.run > 0 && cache.gprsValid {
        return;
      }
      if sound {
        BeginRight(cache, buf, ops);
      }
      buf := buf + [LoadTop];
      if cache.run > 0 {
        cache := cache.(gprsValid := true);
      }
    }

    method FlushTop()
      requires Loaded()
      modifies this`buf, this`cache
      ensures Loaded() && cache == old(cache).(topDirty := false)
      ensures buf == old(buf) + if old(cache).topDirty then [StoreTop] else []
    {
      if cache.topDirty {
        StoreTopNow();
      }
    }

    method StoreTopNow()
      requires Loaded()
      modifies this`buf, this`cache
      ensures Loaded() && cache == old(cache).(topDirty := false) && buf == old(buf) + [StoreTop]
    {
      if sound {
        FlushTopRight(cache, buf, ops, held);
      }
      buf := buf + [StoreTop];
      cache := cache.(topDirty := false);
    }

    method FlushDeferredPops()
      requires Loaded()
      modifies this`buf, this`cache
      ensures Loaded() && cache.deferred <= 0
      ensures cache == if old(cache).deferred > 0 then old(cache).(deferred := 0) else old(cache)
      ensures buf == old(buf) + if old(cache).deferred > 0 then [TagEmptyBelow(old(cache).deferred)] else []
    {
      if cache.deferred > 0 {
        if sound {
          FlushPopsRight(cache, buf, ops, held);
        }
        buf := buf + [TagEmptyBelow(cache.deferred)];
        cache := cache.(deferred := 0);
      }
    }

    method FlushPendingTag()
      requires Loaded()
      modifies this`buf, this`cache
      ensures Loaded() && cache == old(cache).(tagPending := false)
      ensures buf == old(buf) + if old(cache).tagPending then [TagValidTop] else []
    {
      if cache.tagPending {
        if sound {
          FlushTagRight(cache, buf, ops, held);
        }
        buf := buf + [TagValidTop];
        cache := cache.(tagPending := false);
      }
    }

    method FlushTags()
      requires Loaded()
      modifies this`buf, this`cache
      ensures Loaded() && cache == old(cache).(tagPending := false, deferred := Paid(old(cache).deferred))
      ensures buf == old(buf) + TagsCode(old(cache))
    {
      FlushDeferredPops();
      FlushPendingTag();
    }

    method EmitPermFlush()
      requires Loaded() && cache.permDirty
      modifies this`buf, this`cache, this`slots
      ensures Loaded() && cache == old(cache).(perm := Identity(), permDirty := false)
      ensures slots == Reordered(old(slots), old(cache))
      ensures buf == old(buf) + [Permute(old(cache).perm, save, chain)]
    {
      if sound {
        FlushPermRight(cache, buf, ops, held, save, chain);
      }
      buf := buf + [Permute(cache.perm, save, chain)];
      slots := slots.NotePermFlush(cache.perm);
      cache := cache.(perm := Identity(), permDirty := false);
    }

    method PermFlushBeforeStackChange()
      requires Loaded()
      modifies this`buf, this`cache, this`slots
      ensures Loaded() && cache == old(cache).(perm := Identity(), permDirty := false)
      ensures buf == old(buf) + OrderCode(old(cache), save, chain) && slots == Reordered(old(slots), old(cache))
    {
      if cache.permDirty {
        EmitPermFlush();
      }
    }

    /** Everything owed is paid when the run ends with this instruction. */
    method End(consumed: nat)
      requires Loaded()
      modifies this`buf, this`cache, this`slots
      ensures Loaded() && cache == Ended(old(cache), consumed)
      ensures buf == old(buf) + EndCode(old(cache), consumed, save, chain)
      ensures slots == NotedEnd(old(slots), old(cache), consumed)
    {
      if cache.run <= consumed {
        PayAll();
      }
    }

    /** The permutation, the pops, the push, TOP. */
    method PayAll()
      requires Loaded()
      modifies this`buf, this`cache, this`slots
      ensures Loaded() && cache == Ended(old(cache), cache.run)
      ensures buf == old(buf) + EndCode(old(cache), cache.run, save, chain)
      ensures slots == Reordered(old(slots), old(cache))
    {
      PermFlushBeforeStackChange();
      FlushTags();
      FlushTop();
    }

    // ---- stack operations ----

    /** Outside a run no permutation is flushed, so one left over from an
        earlier reply is read from another TOP afterwards. */
    method Push()
      requires Loaded()
      modifies this`buf, this`ops, this`cache, this`slots, this`sound
      ensures Loaded() && ops == old(ops) + [Op.Push] && cache == Flagged(old(cache), deferFxch, Op.Push)
      ensures sound == (old(sound) && !Misses(old(cache), deferFxch, Op.Push))
      ensures slots == Noted(old(slots), old(cache), deferFxch, Op.Push)
      ensures slots.topRel == Slot(old(slots.topRel), -1)
    {
      NotedTop(slots, cache, deferFxch, Op.Push);
      if cache.run > 0 {
        PushInRun();
      } else {
        PushNow();
      }
      slots := slots.NotePush();
    }

    method PushInRun()
      requires Loaded() && cache.run > 0
      modifies this`buf, this`ops, this`cache, this`slots
      ensures Loaded() && ops == old(ops) + [Op.Push] && cache == Flagged(old(cache), deferFxch, Op.Push)
      ensures slots == Reordered(old(slots), old(cache))
    {
      FlushPendingTag();
      FlushDeferredPops();
      FlushTop();
      PermFlushBeforeStackChange();
      PushFullyDeferred();
    }

    /** Only the TOP register moves; memory and tag word are owed. */
    method PushFullyDeferred()
      requires Loaded() && cache.run > 0
      requires !cache.topDirty && !cache.tagPending && cache.deferred <= 0 && !cache.permDirty
      modifies this`buf, this`ops, this`cache
      ensures Loaded() && ops == old(ops) + [Op.Push] && buf == old(buf) + [AddTop(-1)]
      ensures cache == old(cache).(topDirty := true, tagPending := true)
    {
      if sound {
        PushRight(cache, buf, ops, held);
      }
      buf := buf + [AddTop(-1)];
      cache := cache.(topDirty := true, tagPending := true);
      ops := ops + [Op.Push];
    }

    method PushNow()
      requires Loaded() && cache.run == 0
      modifies this`buf, this`ops, this`sound
      ensures Loaded() && ops == old(ops) + [Op.Push]
      ensures sound == (old(sound) && Turns(cache.perm, 1))
      ensures buf == old(buf) + [AddTop(-1), StoreTop, TagValidTop]
    {
      sound := sound && Turns(cache.perm, 1);
      if sound {
        PushNowRight(cache, buf, ops, held);
      }
      buf := buf + [AddTop(-1)] + [StoreTop] + [TagValidTop];
      ops := ops + [Op.Push];
    }

    method Pop()
      requires Loaded()
      modifies this`buf, this`ops, this`cache, this`slots, this`sound
      ensures Loaded() && ops == old(ops) + [Op.Pop] && cache == Flagged(old(cache), deferFxch, Op.Pop)
      ensures sound == (old(sound) && !Misses(old(cache), deferFxch, Op.Pop))
      ensures slots == Noted(old(slots), old(cache), deferFxch, Op.Pop)
      ensures slots.topRel == Slot(old(slots.topRel), 1)
      ensures cache.run > 0 && !old(cache).tagPending ==>
        buf == old(buf) + OrderCode(old(cache), save, chain) + [AddTop(1)]
    {
      NotedTop(slots, cache, deferFxch, Op.Pop);
      if cache.run > 0 {
        PermFlushBeforeStackChange();
        if cache.tagPending {
          PopCancelled();
        } else {
          PopDeferred();
        }
      } else {
        PopNow();
      }
      slots := slots.NotePop(1);
    }

    /** The push's and the pop's tag updates cancel.  With TOP still dirty
        memory already holds the final TOP; otherwise it is stored. */
    method PopCancelled()
      requires Loaded() && cache.tagPending && !cache.permDirty
      modifies this`buf, this`ops, this`cache
      ensures Loaded() && ops == old(ops) + [Op.Pop]
      ensures cache == old(cache).(topDirty := false, tagPending := false)
      ensures buf == old(buf) + if old(cache).topDirty then [AddTop(1)] else [AddTop(1), StoreTop]
    {
      if sound {
        CancelPopRight(cache, buf, ops, held);
      }
      buf := buf + [AddTop(1)];
      if !cache.topDirty {
        buf := buf + [StoreTop];
      }
      cache := cache.(tagPending := false, topDirty := false);
      ops := ops + [Op.Pop];
    }

    method PopDeferred()
      requires Loaded() && cache.run > 0 && !cache.tagPending && !cache.permDirty
      modifies this`buf, this`ops, this`cache, this`sound
      ensures Loaded() && ops == old(ops) + [Op.Pop] && buf == old(buf) + [AddTop(1)]
      ensures cache == old(cache).(topDirty := true, deferred := Int8(old(cache).deferred + 1))
      ensures sound == (old(sound) && old(cache).deferred < 127)
    {
      sound := sound && cache.deferred < 127;
      if sound {
        DeferPopRight(cache, buf, ops, held);
      }
      buf := buf + [AddTop(1)];
      cache := cache.(topDirty := true, deferred := Int8(cache.deferred + 1));
      ops := ops + [Op.Pop];
    }

    method PopNow()
      requires Loaded() && cache.run == 0
      modifies this`buf, this`ops, this`cache, this`sound
      ensures Loaded() && ops == old(ops) + [Op.Pop] && cache == old(cache).(topDirty := false)
      ensures sound == (old(sound) && Turns(cache.perm, 1))
      ensures buf == old(buf) + [TagEmptyAt(0), AddTop(1), StoreTop]
    {
      sound := sound && Turns(cache.perm, 1);
      if sound {
        PopNowRight(cache, buf, ops, held);
      }
      buf := buf + [TagEmptyAt(0)] + [AddTop(1)] + [StoreTop];
      cache := cache.(topDirty := false);
      ops := ops + [Op.Pop];
    }

    method PopN(n: nat)
      requires Loaded()
      modifies this`buf, this`ops, this`cache, this`slots, this`sound
      ensures Loaded() && ops == old(ops) + [Op.PopN(n)] && cache == Flagged(old(cache), deferFxch, Op.PopN(n))
      ensures sound == (old(sound) && !Misses(old(cache), deferFxch, Op.PopN(n)))
      ensures slots == Noted(old(slots), old(cache), deferFxch, Op.PopN(n))
      ensures slots.topRel == Slot(old(slots.topRel), n)
    {
      NotedTop(slots, cache, deferFxch, Op.PopN(n));
      FlushPopsTwice();
      if cache.run > 0 {
        PopManyDeferred(n);
      } else {
        PopManyNow(n);
      }
      slots := slots.NotePop(n);
    }

    method FlushPopsTwice()
      requires Loaded()
      modifies this`buf, this`cache
      ensures Loaded() && cache == old(cache).(tagPending := false, deferred := Paid(old(cache).deferred))
      ensures buf == old(buf) + TagsCode(old(cache))
    {
      FlushDeferredPops();
      FlushTags();
    }

    method PopManyDeferred(n: nat)
      requires Loaded() && !cache.tagPending && cache.deferred <= 0
      modifies this`buf, this`ops, this`cache, this`slots, this`sound
      ensures Loaded() && ops == old(ops) + [Op.PopN(n)] && cache == Ordered(old(cache)).(topDirty := true)
      ensures sound == old(sound) && slots == Reordered(old(slots), old(cache))
    {
      PermFlushBeforeStackChange();
      IdentityTurns(n);
      PopTagged(n);
    }

    method PopManyNow(n: nat)
      requires Loaded() && !cache.tagPending && cache.deferred <= 0
      modifies this`buf, this`ops, this`cache, this`sound
      ensures Loaded() && ops == old(ops) + [Op.PopN(n)] && cache == old(cache).(topDirty := false)
      ensures sound == (old(sound) && Turns(cache.perm, n))
    {
      PopTagged(n);
      StoreTopNow();
    }

    method PopTagged(n: nat)
      requires Loaded() && !cache.tagPending && cache.deferred <= 0
      modifies this`buf, this`ops, this`cache, this`sound
      ensures Loaded() && ops == old(ops) + [Op.PopN(n)] && cache == old(cache).(topDirty := true)
      ensures sound == (old(sound) && Turns(cache.perm, n))
      ensures buf == old(buf) + [TagEmptyFrom(n), AddTop(n)]
    {
      sound := sound && Turns(cache.perm, n);
      if sound {
        PopNRight(cache, buf, ops, held, n);
      }
      buf := buf + [TagEmptyFrom(n)] + [AddTop(n)];
      cache := cache.(topDirty := true);
      ops := ops + [Op.PopN(n)];
    }

    /** fxch: a change of the permutation inside a run, a swap in memory
        otherwise; fxch st(0) does nothing. */
    method Fxch(d: Index)
      requires Loaded()
      modifies this`buf, this`ops, this`cache, this`slots, this`sound
      ensures Loaded() && ops == old(ops) + [Op.Fxch(d)] && cache == Flagged(old(cache), deferFxch, Op.Fxch(d))
      ensures d == 0 || (cache.run > 0 && deferFxch) ==> buf == old(buf)
      ensures sound == (old(sound) && !Misses(old(cache), deferFxch, Op.Fxch(d)))
      ensures slots == Noted(old(slots), old(cache), deferFxch, Op.Fxch(d))
    {
      if d == 0 {
        if sound {
          FxchZeroRight(cache, buf, ops, held);
        }
        ops := ops + [Op.Fxch(d)];
      } else if cache.run > 0 && deferFxch {
        FxchDeferred(d);
      } else {
        FxchInMemory(d);
      }
    }

    method FxchDeferred(d: Index)
      requires Loaded() && cache.run > 0
      modifies this`ops, this`cache
      ensures Loaded() && ops == old(ops) + [Op.Fxch(d)]
      ensures cache == old(cache).(permDirty := true, perm := Swap(old(cache).perm, 0, d))
    {
      if sound {
        FxchRight(cache, buf, ops, held, d);
      }
      SwapKeepsPermutation(cache.perm, d);
      cache := cache.(perm := Swap(cache.perm, 0, d), permDirty := true);
      ops := ops + [Op.Fxch(d)];
    }

    method FxchInMemory(d: Index)
      requires Loaded()
      modifies this`buf, this`ops, this`slots, this`sound
      ensures Loaded() && ops == old(ops) + [Op.Fxch(d)] && buf == old(buf) + [SwapSt(d, save, chain)]
      ensures sound == (old(sound) && Pairs(cache.perm, d)) && slots == Swapped(old(slots), d)
    {
      sound := sound && Pairs(cache.perm, d);
      if sound {
        FxchNowRight(cache, buf, ops, held, d, save, chain);
      }
      buf := buf + [SwapSt(d, save, chain)];
      slots := if HoldsF80(slots.fmt[Slot(slots.topRel, 0)]) || HoldsF80(slots.fmt[Slot(slots.topRel, d)])
        then slots.NoteSwap(d) else slots.NoteWrite(d).NoteWrite(0);
      ops := ops + [Op.Fxch(d)];
    }

    /** An fxch that a fusion absorbs changes the permutation before the fused
        emitter begins, whatever the settings, and counts itself off the run.  A
        run that ends by that stays marked as holding TOP in its register, and
        keeps its debts. */
    method Absorb(d: Index)
      requires Between()
      modifies this`ops, this`cache, this`sound
      ensures Between()
      ensures ops == old(ops) + if d == 0 then [] else [Op.Fxch(d)]
      ensures cache == Absorbed(old(cache), d)
      ensures sound == (old(sound) && !(old(cache).run == 1 && old(cache).gprsValid))
    {
      sound := sound && !(cache.run == 1 && cache.gprsValid);
      if d != 0 {
        AbsorbExchange(d);
      }
      if cache.run > 0 {
        cache := cache.(run := cache.run - 1);
      }
    }

    method AbsorbExchange(d: Index)
      requires Between()
      modifies this`ops, this`cache
      ensures Between() && ops == old(ops) + [Op.Fxch(d)]
      ensures cache == old(cache).(perm := Swap(old(cache).perm, 0, d), permDirty := true)
    {
      if sound && cache.gprsValid {
        FxchRight(cache, buf, ops, {}, d);
      } else if sound {
        FxchAtRest(cache, buf, ops, d);
      }
      SwapKeepsPermutation(cache.perm, d);
      cache := cache.(perm := Swap(cache.perm, 0, d), permDirty := true);
      ops := ops + [Op.Fxch(d)];
    }

    /** The physical depth to load or store for a logical one. */
    function ResolveDepth(d: Index): (p: Index)
      requires WellKept(cache)
      reads this
      ensures p == cache.perm[d]
    {
      if !cache.permDirty then d else cache.perm[d]
    }

    method Load(d: Index, r: Reg)
      requires Loaded() && r != save && r != chain
      modifies this`buf, this`ops, this`held
      ensures Loaded() && ops == old(ops) + [Op.Load(d, r)] && held == old(held) + {r}
      ensures buf == old(buf) + [LoadSt(cache.perm[d], r)]
    {
      if sound {
        ValueRight(cache, buf, ops, held, Op.Load(d, r));
      }
      buf := buf + [LoadSt(ResolveDepth(d), r)];
      ops := ops + [Op.Load(d, r)];
      held := held + {r};
    }

    method Store(d: Index, r: Reg)
      requires Loaded() && r in held
      modifies this`buf, this`ops, this`slots
      ensures Loaded() && ops == old(ops) + [Op.Store(d, r)]
      ensures buf == old(buf) + [StoreSt(cache.perm[d], r)] && slots == old(slots).NoteWrite(cache.perm[d])
    {
      if sound {
        ValueRight(cache, buf, ops, held, Op.Store(d, r));
      }
      buf := buf + [StoreSt(ResolveDepth(d), r)];
      slots := slots.NoteWrite(ResolveDepth(d));
      ops := ops + [Op.Store(d, r)];
    }

    /** Guest loads, constants, arithmetic and guest stores. */
    method Compute(op: Op)
      requires Loaded() && (op.Const? || op.Alu? || op.GuestStore?) && Reads(op, held)
      requires !op.GuestStore? ==> op.r != save && op.r != chain
      modifies this`buf, this`ops, this`held
      ensures Loaded() && ops == old(ops) + [op] && held == Holds(op, old(held))
      ensures buf == old(buf) + [StepFor(op, cache.perm)]
    {
      if sound {
        ValueRight(cache, buf, ops, held, op);
      }
      buf := buf + [StepFor(op, cache.perm)];
      ops := ops + [op];
      held := Holds(op, held);
    }

    /** fincstp and fdecstp. */
    method Rotate(delta: Turn)
      requires Loaded()
      modifies this`buf, this`ops, this`cache, this`slots
      ensures Loaded() && ops == old(ops) + [Op.Rotate(delta)]
      ensures cache == Flagged(old(cache), deferFxch, Op.Rotate(delta))
      ensures slots == Noted(old(slots), old(cache), deferFxch, Op.Rotate(delta))
      ensures slots.topRel == Slot(old(slots.topRel), delta)
    {
      NotedTop(slots, cache, deferFxch, Op.Rotate(delta));
      PermFlushBeforeStackChange();
      FlushTags();
      MoveTop(delta);
    }

    method MoveTop(delta: Turn)
      requires Loaded()
      requires !cache.tagPending && cache.deferred <= 0 && !cache.permDirty
      modifies this`buf, this`ops, this`cache, this`slots
      ensures Loaded() && ops == old(ops) + [Op.Rotate(delta)] && cache == old(cache).(topDirty := true)
      ensures buf == old(buf) + [AddTop(delta)] && slots == old(slots).NoteRotate(delta)
    {
      if sound {
        RotateRight(cache, buf, ops, held, delta);
      }
      buf := buf + [AddTop(delta)];
      slots := slots.NoteRotate(delta);
      cache := cache.(topDirty := true);
      ops := ops + [Op.Rotate(delta)];
    }

    /** ffree: the depth is resolved through the pending permutation, although
        an fxch moves values and not tags. */
    method Free(d: Index)
      requires Loaded()
      modifies this`buf, this`ops, this`cache, this`slots, this`sound
      ensures Loaded() && ops == old(ops) + [Op.Free(d)] && cache == Flagged(old(cache), deferFxch, Op.Free(d))
      ensures sound == (old(sound) && !Misses(old(cache), deferFxch, Op.Free(d)))
      ensures slots == Noted(old(slots), old(cache), deferFxch, Op.Free(d))
    {
      FlushTags();
      FreeResolved(d);
    }

    method FreeResolved(d: Index)
      requires Loaded() && !cache.tagPending && cache.deferred <= 0
      modifies this`buf, this`ops, this`slots, this`sound
      ensures Loaded() && ops == old(ops) + [Op.Free(d)]
      ensures buf == old(buf) + [TagEmptyAt(cache.perm[d])] && slots == old(slots).NoteFree(cache.perm[d])
      ensures sound == (old(sound) && cache.perm[d] == d)
    {
      sound := sound && cache.perm[d] == d;
      if sound {
        FreeRight(cache, buf, ops, held, d);
      }
      buf := buf + [TagEmptyAt(ResolveDepth(d))];
      slots := slots.NoteFree(ResolveDepth(d));
      ops := ops + [Op.Free(d)];
    }

    /** fxam reads the tag of ST(0): TOP and a pending push are flushed, the
        deferred pops are not. */
    method Examine()
      requires Loaded()
      modifies this`buf, this`ops, this`cache, this`sound
      ensures Loaded() && ops == old(ops) + [Op.Examine] && cache == Flagged(old(cache), deferFxch, Op.Examine)
      ensures sound == (old(sound) && !Misses(old(cache), deferFxch, Op.Examine))
    {
      if cache.topDirty && cache.gprsValid {
        FlushTop();
      }
      if cache.tagPending && cache.gprsValid {
        FlushPendingTag();
      }
      StoreTopTag();
    }

    method StoreTopTag()
      requires Loaded() && (sound ==> !cache.tagPending)
      modifies this`buf, this`ops, this`sound
      ensures Loaded() && ops == old(ops) + [Op.Examine] && buf == old(buf) + [StoreTag]
      ensures sound == (old(sound) && cache.deferred < 8)
    {
      sound := sound && cache.deferred < 8;
      if sound {
        ExamineRight(cache, buf, ops, held);
      }
      buf := buf + [StoreTag];
      ops := ops + [Op.Examine];
    }

    /** fstsw pays the tag and TOP debts itself and does not call End, so a
        pending permutation outlives it. */
    method Fstsw()
      requires Between() && held == {}
      modifies this`buf, this`ops, this`cache
      ensures Between() && ops == old(ops) + [Op.ReadStatus]
      ensures cache == Asked(old(cache))
    {
      if cache.run > 0 && cache.gprsValid {
        FlushTop();
        FlushDeferredPops();
        FlushPendingTag();
        StoreStatusWord();
      } else {
        if sound {
          StatusAtRest(cache, buf, ops);
        }
        buf := buf + [StoreStatus];
        ops := ops + [Op.ReadStatus];
      }
    }

    method StoreStatusWord()
      requires Loaded() && !cache.topDirty
      modifies this`buf, this`ops
      ensures Loaded() && ops == old(ops) + [Op.ReadStatus] && buf == old(buf) + [StoreStatus]
    {
      if sound {
        StatusRight(cache, buf, ops, held);
      }
      buf := buf + [StoreStatus];
      ops := ops + [Op.ReadStatus];
    }

    /** The flush an emitter asks for before it reads the tag or status word. */
    method RequestFlush(op: Op)
      requires Loaded() && (op == Op.FlushTop || op == Op.FlushTags)
      modifies this`buf, this`ops, this`cache
      ensures Loaded() && ops == old(ops) + [op]
      ensures cache == Flagged(old(cache), deferFxch, op)
    {
      if op.FlushTop? {
        FlushTop();
      } else {
        FlushTags();
      }
      if sound {
        FlushRight(cache, buf, ops, held, op);
      }
      ops := ops + [op];
    }

    // ---- the fused emitters for a lone fld, fst or fstp ----

    /** They take ST(0) to be at depth 0 and call neither Begin nor End, so they
        are right only where a permutation left over leaves ST(0) alone, and
        turns with TOP if they move it. */
    method LoneLoad(r: Reg, v: Value)
      requires Between() && held == {} && cache.run == 0 && r != save && r != chain
      modifies this
      ensures Between() && cache == old(cache) && sound == (old(sound) && cache.perm == Identity())
      ensures save == old(save) && chain == old(chain)
      ensures ops == old(ops) + [Op.Const(r, v)] + [Op.Push] + [Op.Store(0, r)]
      ensures slots == old(slots).NotePush().NoteWrite(0)
    {
      TurnsFromZero(cache.perm);
      Begin();
      Compute(Op.Const(r, v));
      PushNow();
      slots := slots.NotePush();
      AtDepthZero(Op.Store(0, r));
      slots := slots.NoteWrite(0);
      Settle();
    }

    method LoneStore(r: Reg, pop: bool)
      requires Between() && held == {} && cache.run == 0 && r != save && r != chain
      modifies this
      ensures Between() && cache == if pop then old(cache).(topDirty := false) else old(cache)
      ensures sound == (old(sound) && if pop then cache.perm == Identity() else cache.perm[0] == 0)
      ensures save == old(save) && chain == old(chain)
      ensures ops == old(ops) + [Op.Load(0, r)] + [Op.GuestStore(r)] + if pop then [Op.Pop] else []
      ensures slots == if pop then old(slots).NotePop(1) else old(slots)
    {
      TurnsFromZero(cache.perm);
      Begin();
      AtDepthZero(Op.Load(0, r));
      Compute(Op.GuestStore(r));
      if pop {
        PopLone();
      } else {
        Settle();
      }
    }

    method PopLone()
      requires Loaded() && cache.run == 0
      modifies this`buf, this`ops, this`cache, this`slots, this`sound
      ensures Between() && cache == old(cache).(topDirty := false)
      ensures sound == (old(sound) && Turns(cache.perm, 1))
      ensures ops == old(ops) + [Op.Pop] && slots == old(slots).NotePop(1)
    {
      PopNow();
      slots := slots.NotePop(1);
      Settle();
    }

    /** A slot access that does not resolve its depth. */
    method AtDepthZero(op: Op)
      requires Loaded() && (op.Load? || op.Store?) && op.d == 0 && Reads(op, held)
      requires op.Load? ==> op.r != save && op.r != chain
      modifies this`buf, this`ops, this`held, this`sound
      ensures Loaded() && ops == old(ops) + [op] && held == Holds(op, old(held))
      ensures buf == old(buf) + [StepFor(op, Identity())] && sound == (old(sound) && cache.perm[0] == 0)
    {
      sound := sound && cache.perm[0] == 0;
      if sound {
        ValueRight(cache, buf, ops, held, op);
      }
      buf := buf + [StepFor(op, Identity())];
      ops := ops + [op];
      held := Holds(op, held);
    }

    /** Outside a run, nothing stays in registers. */
    ghost method Settle()
      requires Loaded() && (sound ==> cache.run == 0 && !cache.topDirty)
      ensures Between()
    {
      if sound {
        RightSettles(cache, buf, ops, held);
      }
    }

    // ---- the life of a run ----

    /** A reply begins (NativeLayoutScope). */
    method Enter()
      requires Between()
      modifies this`slots
      ensures Between() && slots == STOCK
    {
      slots := STOCK;
    }

    method SetRun(length: nat)
      requires Between() && cache.run == 0
      modifies this`cache
      ensures Between() && cache == old(cache).(run := if length >= 2 then length else 0)
    {
      if length >= 2 {
        cache := cache.(run := length);
      }
    }

    /** One instruction of the run is done.  The last one clears the flags
        without emitting anything, and so must owe neither tag nor TOP. */
    method Tick()
      requires Between()
      modifies this`cache, this`sound
      ensures Between() && cache == Ticked(old(cache), 1)
      ensures sound == (old(sound) && !(old(cache).run == 1 && Owes(old(cache))))
    {
      if cache.run > 0 {
        sound := sound && !(cache.run == 1 && Owes(cache));
        if sound && cache.gprsValid && cache.run == 1 {
          RightSettles(cache, buf, ops, {});
        }
        cache := cache.(run := cache.run - 1);
        if cache.run == 0 {
          cache := cache.(gprsValid := false, topDirty := false, tagPending := false, deferred := 0);
        }
      }
    }

    /** Leave an instruction or a fusion: pay what the end of the run demands,
        then count.  A fusion that has counted an absorbed fxch already is
        counted once more, and then the last tick may find a debt. */
    method EndAndTick(consumed: nat, ticks: nat)
      requires Loaded() && 1 <= consumed <= ticks <= consumed + 1
      modifies this`buf, this`cache, this`slots, this`sound
      ensures Between()
      ensures cache == Ticked(Ended(old(cache), consumed), ticks)
      ensures buf == old(buf) + EndCode(old(cache), consumed, save, chain)
      ensures slots == NotedEnd(old(slots), old(cache), consumed)
      ensures sound == (old(sound) && !(old(cache).run == ticks > consumed && Owes(old(cache))))
    {
      End(consumed);
      if sound && cache.run == 0 {
        RightSettles(cache, buf, ops, held);
      }
      for i := 0 to ticks
        invariant Between()
        invariant cache == (if i == 0 then Ended(old(cache), consumed) else Ticked(Ended(old(cache), consumed), i))
        invariant sound == (old(sound) && !(old(cache).run == i > consumed && Owes(old(cache))))
        invariant buf == old(buf) + EndCode(old(cache), consumed, save, chain)
        invariant slots == NotedEnd(old(slots), old(cache), consumed)
      {
        Tick();
      }
    }

    /** The reply is over: what follows is stock's code. */
    method Leave()
      requires Between() && cache.run == 0
      modifies this`buf
      ensures Between() && buf == old(buf) + [Step.Leave]
    {
      if sound {
        LeaveAtRest(cache, buf, ops);
      }
      buf := buf + [Step.Leave];
    }

    // ---- the IR gate ----

    /** The speculative flush of one debt before the IR is tried.  Returns
        which debt a failed attempt takes back, or Refused when the IR is not
        to be tried at all. */
    method GateFlush(cfg: GateConfig) returns (arm: Arm)
      requires Between() && held == {} && cache.run > 0
      modifies this`buf, this`cache, this`slots
      ensures Between()
      ensures arm.Refused? <==> Refuses(cfg, old(cache))
      ensures cache == if arm.Refused? then old(cache) else Gated(old(cache))
      ensures cache == old(cache) ==> buf == old(buf)
      ensures slots == if arm.Perm? then Reordered(old(slots), old(cache)) else old(slots)
      ensures arm.Top? <==> !arm.Refused? && old(cache).topDirty && cfg.undoTop
      ensures arm.Pops? <==> !arm.Refused? && !old(cache).topDirty && old(cache).deferred != 0 && cfg.undoPops
      ensures arm.Perm? <==> !arm.Refused? && !old(cache).topDirty && old(cache).deferred == 0 && old(cache).permDirty
    {
      if cache.run < 3 {
        arm := Refused;
      } else if cache.topDirty {
        if cache.gprsValid && cache.run >= Threshold(cfg.topThreshold) {
          FlushTop();
          arm := if cfg.undoTop then Top else Nothing;
        } else {
          arm := Refused;
        }
      } else if cache.deferred != 0 {
        if cache.gprsValid && cache.run >= Threshold(cfg.popThreshold) && cache.deferred <= 2 {
          FlushDeferredPops();
          cache := cache.(deferred := 0);
          arm := if cfg.undoPops then Pops else Nothing;
        } else {
          arm := Refused;
        }
      } else if cache.permDirty {
        if cache.gprsValid && cache.run >= Threshold(cfg.permThreshold) {
          EmitPermFlush();
          arm := Perm;
        } else {
          arm := Refused;
        }
      } else {
        arm := Nothing;
      }
    }

    /** Offer the next `count` instructions to the IR.  When it declines, the
        flush the gate made is either taken back exactly or kept; the state
        owed for is the same both ways. */
    method TryRegion(count: nat, region: seq<Op>, accepted: bool, writes: set<nat>, cfg: GateConfig)
      returns (consumed: nat)
      requires Between() && held == {} && 1 <= count <= cache.run && (accepted ==> Fetched(region))
      modifies this`buf, this`ops, this`cache, this`slots, this`sound
      ensures Between() && sound == old(sound)
      ensures consumed == if accepted && !Refuses(cfg, old(cache)) then count else 0
      ensures consumed == 0 ==> ops == old(ops)
      ensures consumed == 0 ==> cache == Declined(cfg, old(cache))
      ensures consumed == 0 ==> cache.perm == old(cache).perm && cache.permDirty == old(cache).permDirty
      ensures consumed == 0 ==> slots == old(slots)
      ensures consumed == 0 && cfg.undoTop && cfg.undoPops ==> buf == old(buf) && cache == old(cache)
      ensures consumed == count ==> ops == old(ops) + region && cache == Lowered(old(cache), count)
      ensures consumed == count ==> slots == NotedRegion(old(slots), old(cache), MovesAll(region), writes)
    {
      var saved := Saved(buf, slots, cache);
      var arm := GateFlush(cfg);
      if arm.Refused? {
        consumed := 0;
      } else if !accepted {
        UndoFlush(arm, saved);
        consumed := 0;
      } else {
        Lower(region, writes);
        TickCleared(count);
        consumed := count;
      }
    }

    /** Rewind the code and give the flushed debt back. */
    method UndoFlush(arm: Arm, saved: Saved)
      requires Between() && WellKept(saved.cache)
      requires sound ==> Resting(saved.cache, saved.buf, ops)
      requires match arm
        case Top => saved.cache.topDirty && cache == saved.cache.(topDirty := false)
        case Pops => cache == saved.cache.(deferred := 0)
        case Perm => cache == saved.cache.(perm := Identity(), permDirty := false)
        case Refused => false
        case Nothing => true
      modifies this`buf, this`slots, this`cache
      ensures Between()
      ensures if arm.Nothing? then buf == old(buf) && cache == old(cache) && slots == old(slots)
        else buf == saved.buf && cache == saved.cache && slots == saved.slots
    {
      if !arm.Nothing? {
        buf, slots := saved.buf, saved.slots;
        if arm.Top? {
          cache := cache.(topDirty := saved.cache.topDirty);
        } else if arm.Pops? {
          cache := cache.(deferred := saved.cache.deferred);
        } else {
          cache := cache.(perm := saved.cache.perm, permDirty := saved.cache.permDirty);
        }
      }
    }

    method TickCleared(count: nat)
      requires Between() && 1 <= count <= cache.run && !Owes(cache) && !cache.permDirty
      modifies this`cache, this`sound
      ensures Between() && cache == Ticked(old(cache), count) && sound == old(sound)
    {
      for i := 0 to count
        invariant Between() && cache == (if i == 0 then old(cache) else Ticked(old(cache), i)) && sound == old(sound)
      {
        Tick();
      }
    }

    /** lower(): pay what the gate left, then emit the whole prefix. */
    method Lower(region: seq<Op>, writes: set<nat>)
      requires Between() && held == {} && cache.run > 0 && !cache.topDirty && Fetched(region)
      modifies this`buf, this`ops, this`cache, this`slots
      ensures Between() && ops == old(ops) + region
      ensures cache == old(cache).(tagPending := false, deferred := 0, perm := Identity(),
                                   permDirty := false, gprsValid := true)
      ensures slots == NotedRegion(old(slots), old(cache), MovesAll(region), writes)
    {
      Begin();
      FlushPendingTag();
      FlushDeferredPops();
      PermFlushBeforeStackChange();
      EmitRegion(region);
      cache := cache.(deferred := 0);
      NoteRegion(MovesAll(region), writes);
    }

    /** The region's slots: TOP is moved once by what its operations move it, and
        the depths below the final TOP that hold something new are stored. */
    method NoteRegion(delta: int, writes: set<nat>)
      requires Between()
      modifies this`slots
      ensures Between() && slots == NotedWrites(NotedMove(old(slots), delta), writes, 8)
    {
      if delta > 0 {
        slots := slots.NotePop(delta);
      } else {
        for k := 0 to 0 - delta
          invariant Between() && slots == NotedMove(old(slots), 0 - k)
        {
          slots := slots.NotePush();
        }
      }
      for d := 0 to 8
        invariant Between() && slots == NotedWrites(NotedMove(old(slots), delta), writes, d)
      {
        if d in writes {
          slots := slots.NoteWrite(d);
        }
      }
    }

    method EmitRegion(region: seq<Op>)
      requires Loaded() && held == {} && !Owes(cache) && !cache.permDirty && Fetched(region)
      modifies this`buf, this`ops
      ensures Loaded() && ops == old(ops) + region && buf == old(buf) + [Region(region)]
    {
      if sound {
        RegionRight(cache, buf, ops, held, region);
      }
      buf := buf + [Region(region)];
      ops := ops + region;
    }
  }
}
