// Whole-run properties of the memory hotplug controller.
module MemHotplugSafety {
  import opened Base
  import opened Hysteresis
  import opened MemHotplug

  // ---------------------------------------------------------------- arithmetic of plugged memory

  lemma {:induction false} PluggedBounds(dimms: map<nat, int>, n: nat)
    requires forall i :: i in dimms ==> dimms[i] > 0
    ensures Plugged(dimms, n) >= 0
    ensures forall i :: i in dimms && i < n ==> dimms[i] <= Plugged(dimms, n)
  {
    if n > 0 { PluggedBounds(dimms, n - 1); }
  }

  lemma {:induction false} PluggedAdd(dimms: map<nat, int>, slot: nat, size: int, n: nat)
    requires slot !in dimms
    ensures Plugged(dimms[slot := size], n) == Plugged(dimms, n) + (if slot < n then size else 0)
  {
    if n > 0 { PluggedAdd(dimms, slot, size, n - 1); }
  }

  lemma {:induction false} PluggedRemove(dimms: map<nat, int>, slot: nat, n: nat)
    requires slot in dimms
    ensures Plugged(dimms - {slot}, n) == Plugged(dimms, n) - (if slot < n then dimms[slot] else 0)
  {
    if n > 0 { PluggedRemove(dimms, slot, n - 1); }
  }

  // The percentage loses nothing: the controller sees the sampled usage again.
  lemma ExactUsage(memory: int, usage: int)
    requires memory > 0
    ensures UsedMemory(memory, UsagePct(usage, memory)) == usage
  {
    var m, u := memory as real, usage as real;
    assert m * (u / m * 100.0) / 100.0 == u by {
      assert u / m * m == u;
      assert m * (u / m * 100.0) == (u / m * m) * 100.0;
    }
  }

  // ---------------------------------------------------------------- slots

  // Of the slots {0, .., k-1}, the next free one is k and the highest is k-1.
  lemma PrefixSlots(k: nat, n: nat)
    requires k <= n
    ensures FreeSlot(Below(k), 0, n) == UsedTop(Below(k), n) == k
  {
  }

  lemma SlotsFit(used: set<nat>, v: Vm, n: nat)
    requires SlotInv(used, v) && forall i :: i in v.dimms ==> i < n
    ensures |used| <= n
  {
    if |used| > 0 { assert |used| - 1 in used; }
  }

  lemma {:induction false} WithoutLast(k: nat)
    ensures Without(Ladder(k + 1), [k]) == Ladder(k)
  {
    WithoutAbove(Ladder(k + 1), k);
  }

  lemma {:induction false} WithoutAbove(stack: seq<nat>, k: nat)
    requires stack != [] && stack[|stack| - 1] == k
    requires forall i :: 0 <= i < |stack| - 1 ==> stack[i] != k
    ensures Without(stack, [k]) == stack[..|stack| - 1]
  {
    if |stack| == 1 {
      assert stack[1..] == [];
    } else {
      WithoutAbove(stack[1..], k);
      assert stack[..|stack| - 1] == [stack[0]] + stack[1..][..|stack| - 2];
    }
  }

  lemma StackSnoc(log: Log, e: Entry)
    ensures Stack(log + [e]) == Restack(Stack(log), e)
    ensures Lifo(log) && TakesTop(Stack(log), e) ==> Lifo(log + [e])
  {
    assert (log + [e])[..|log|] == log;
    if Lifo(log) && TakesTop(Stack(log), e) { LifoSnoc(log, e); }
  }

  lemma LifoSnoc(log: Log, e: Entry)
    requires Lifo(log) && TakesTop(Stack(log), e)
    ensures Lifo(log + [e])
  {
    var all := log + [e];
    forall i | 0 <= i < |all| ensures TakesTop(Stack(all[..i]), all[i]) {
      if i < |log| { assert all[..i] == log[..i]; } else { assert all[..i] == log; }
    }
  }

  // ---------------------------------------------------------------- every tick keeps the invariant

  // What a valid sample leads to.
  lemma DecideMeans(cfg: Config, c: Ctl, usage: int, now: int)
    requires c.currentMemory > 0
    ensures var (d, target, counted) := Decide(cfg, c, usage, now);
            && d == c.(high := d.high, low := d.low)
            && (counted.None? ==> d == c)
            && (counted.Some? ==>
                  && d.high == (if counted.value == High then c.high + 1 else 0)
                  && d.low == (if counted.value == Low then c.low + 1 else 0))
            && (target > c.currentMemory ==>
                  && target == GrowTarget(cfg, c.currentMemory)
                  && c.currentMemory - usage < cfg.Margin()
                  && d.high >= cfg.limits.upStability
                  && CooledDown(c.lastScaleUp, now, cfg.limits.upCooldown))
            && (target < c.currentMemory ==>
                  && target == ShrinkTarget(cfg, c.currentMemory)
                  && target - usage >= cfg.Margin()
                  && d.low >= cfg.limits.downStability
                  && CooledDown(c.lastScaleDown, now, cfg.limits.downCooldown))
  {
    ExactUsage(c.currentMemory, usage);
  }

  lemma CountedKeepsHistory(cfg: Config, c: Ctl, log: Log, clock: int, r: Reading)
    requires HistoryInv(cfg, c, log, clock)
    ensures HistoryInv(cfg,
                       c.(high := if r == High then c.high + 1 else 0, low := if r == Low then c.low + 1 else 0),
                       log + [Counted(r)], clock)
  {
    KeptCounted(cfg.limits, c.Counters(), log, clock, r);
    StackSnoc(log, Counted(r));
  }

  lemma HistoryLater(cfg: Config, c: Ctl, log: Log, clock: int, later: int)
    requires HistoryInv(cfg, c, log, clock) && clock <= later
    ensures HistoryInv(cfg, c, log, later)
  {
    KeptLater(cfg.limits, c.Counters(), log, clock, later);
  }

  lemma LeakKeepsHistory(cfg: Config, c: Ctl, log: Log, clock: int, slot: nat, amount: int, later: int)
    requires HistoryInv(cfg, c, log, clock) && clock <= later
    ensures HistoryInv(cfg, c, log + [Leak(slot, amount)], later)
  {
    KeptLeak(cfg.limits, c.Counters(), log, clock, Leak(slot, amount), later);
    StackSnoc(log, Leak(slot, amount));
  }

  lemma UpKeepsHistory(cfg: Config, c: Ctl, log: Log, clock: int, amount: int, at: int, memory: int)
    requires HistoryInv(cfg, c, log, clock)
    requires c.usedSlots == Below(|c.usedSlots|)
    requires c.high >= cfg.limits.upStability && clock <= at
    requires CooledDown(c.lastScaleUp, at, cfg.limits.upCooldown)
    ensures var slot := |c.usedSlots|;
            HistoryInv(cfg, c.(usedSlots := c.usedSlots + {slot}, lastScaleUp := Some(at),
                               high := 0, currentMemory := memory),
                       log + [Up([slot], amount, at)], at)
  {
    var slot := |c.usedSlots|;
    KeptUp(cfg.limits, c.Counters(), log, clock, Up([slot], amount, at));
    StackGrows(log, slot, amount, at);
    assert slot !in c.usedSlots;
    var d := c.(usedSlots := c.usedSlots + {slot}, lastScaleUp := Some(at), high := 0, currentMemory := memory);
    assert |d.usedSlots| == slot + 1;
    assert d.Counters() == c.Counters().(high := 0, lastUp := Some(at));
  }

  lemma StackGrows(log: Log, slot: nat, amount: int, at: int)
    requires Stack(log) == Ladder(slot) && Lifo(log)
    ensures var more := log + [Up([slot], amount, at)]; Stack(more) == Ladder(slot + 1) && Lifo(more)
  {
    StackSnoc(log, Up([slot], amount, at));
    assert Ladder(slot) + [slot] == Ladder(slot + 1);
  }

  lemma StackShrinks(log: Log, slot: nat, amount: int, at: int)
    requires Stack(log) == Ladder(slot + 1) && Lifo(log)
    ensures var more := log + [Down([slot], amount, at)]; Stack(more) == Ladder(slot) && Lifo(more)
  {
    StackSnoc(log, Down([slot], amount, at));
    WithoutLast(slot);
  }

  lemma DownKeepsHistory(cfg: Config, c: Ctl, log: Log, clock: int, amount: int, at: int, memory: int)
    requires HistoryInv(cfg, c, log, clock)
    requires c.usedSlots == Below(|c.usedSlots|) && c.usedSlots != {}
    requires c.low >= cfg.limits.downStability && clock <= at
    requires CooledDown(c.lastScaleDown, at, cfg.limits.downCooldown)
    ensures var slot := |c.usedSlots| - 1;
            && Stack(log) != [] && Stack(log)[|Stack(log)| - 1] == slot
            && HistoryInv(cfg, c.(usedSlots := c.usedSlots - {slot}, lastScaleDown := Some(at),
                                  low := 0, currentMemory := memory),
                          log + [Down([slot], amount, at)], at)
  {
    var slot := |c.usedSlots| - 1;
    KeptDown(cfg.limits, c.Counters(), log, clock, Down([slot], amount, at));
    StackShrinks(log, slot, amount, at);
    var d := c.(usedSlots := c.usedSlots - {slot}, lastScaleDown := Some(at), low := 0, currentMemory := memory);
    assert |d.usedSlots| == slot;
    assert d.Counters() == c.Counters().(low := 0, lastDown := Some(at));
  }

  // One DIMM more, above every used slot.
  lemma PlugKeepsVm(cfg: Config, used: set<nat>, v: Vm, w: Vm, slot: nat, size: int)
    requires Validated(cfg) && VmInv(cfg, v) && SlotInv(used, v)
    requires slot < cfg.maxSlots && slot !in v.dimms && used == Below(slot)
    requires 0 < size <= cfg.increment && Total(v, cfg.maxSlots) + size <= cfg.maxMemory
    requires w.base == v.base && w.dimms == v.dimms[slot := size] && w.backends == v.backends + {slot}
    requires w.online <= v.online + {slot}
    ensures VmInv(cfg, w) && SlotInv(used, w) && SlotInv(used + {slot}, w)
    ensures Total(w, cfg.maxSlots) == Total(v, cfg.maxSlots) + size
  {
    PluggedAdd(v.dimms, slot, size, cfg.maxSlots);
    assert used + {slot} == Below(slot + 1);
    assert |used + {slot}| == slot + 1;
  }

  // The top DIMM of the stack less: it is no larger than what a shrink plans to remove.
  lemma UnplugKeepsVm(cfg: Config, used: set<nat>, v: Vm, w: Vm, slot: nat)
    requires Validated(cfg) && VmInv(cfg, v) && SlotInv(used, v)
    requires used == Below(slot + 1)
    requires w.base == v.base && w.dimms == v.dimms - {slot} && v.backends - {slot} <= w.backends
    requires w.online == v.online - {slot}
    ensures VmInv(cfg, w) && SlotInv(used - {slot}, w)
    ensures slot in v.dimms
    ensures Total(w, cfg.maxSlots) == Total(v, cfg.maxSlots) - v.dimms[slot]
    ensures Total(w, cfg.maxSlots) >= ShrinkTarget(cfg, Total(v, cfg.maxSlots))
  {
    PluggedBounds(v.dimms, cfg.maxSlots);
    PluggedRemove(v.dimms, slot, cfg.maxSlots);
    PluggedBounds(w.dimms, cfg.maxSlots);
  }

  // The three outcomes of a scale-up: nothing happened, a DIMM leaked, or the stack grew by one.
  lemma HotplugCases(v: Vm, slot: nat, size: int, e: Env)
    requires v.dimms.Keys <= v.backends && Aligned(size)
    ensures var (w, ok) := HotplugMemory(v, slot, size, e);
            && (ok ==> slot !in v.dimms && w == v.(dimms := v.dimms[slot := size], backends := v.backends + {slot}))
            && (!ok ==> || (w.dimms == v.dimms && w.base == v.base && v.dimms.Keys <= w.backends
                            && w.online == v.online)
                        || (slot !in v.dimms &&
                            w == v.(dimms := v.dimms[slot := size], backends := v.backends + {slot})))
  {
  }

  // Unplugging what was just plugged.
  lemma UnplugCases(v: Vm, slot: nat, size: int, e: Env)
    requires v.dimms.Keys <= v.backends && slot !in v.dimms
    ensures var w := v.(dimms := v.dimms[slot := size], backends := v.backends + {slot});
            var (x, gone) := UnplugMemory(w, slot, e);
            && (gone ==> x.dimms == v.dimms && x.base == v.base && v.dimms.Keys <= x.backends && x.online == v.online)
            && (!gone ==> x == w)
  {
    assert v.dimms[slot := size] - {slot} == v.dimms;
  }

  predicate UpOutcome(cfg: Config, c: Ctl, v: Vm, target: int, at: int, o: Outcome) {
    var slot, amount := |c.usedSlots|, target - c.currentMemory;
    && o.counted.None?
    && (o.op.None? ==>
          && o.ctl == c && o.vm.dimms == v.dimms && o.vm.base == v.base
          && v.dimms.Keys <= o.vm.backends && o.vm.online == v.online)
    && (o.op.Some? ==>
          && slot < cfg.maxSlots && slot !in v.dimms
          && o.vm.base == v.base && o.vm.dimms == v.dimms[slot := amount]
          && o.vm.backends == v.backends + {slot} && v.online <= o.vm.online <= v.online + {slot}
          && if o.op.value.Leak? then
               o.op.value == Leak(slot, amount) && o.ctl == c
             else
               && o.op.value == Up([slot], amount, at)
               && o.ctl == c.(usedSlots := c.usedSlots + {slot}, lastScaleUp := Some(at), high := 0,
                              currentMemory := target))
  }

  lemma ScaleUpCases(cfg: Config, c: Ctl, v: Vm, target: int, e: Env)
    requires v.dimms.Keys <= v.backends && c.usedSlots == Below(|c.usedSlots|) && |c.usedSlots| <= cfg.maxSlots
    requires target > c.currentMemory && Aligned(target - c.currentMemory)
    ensures UpOutcome(cfg, c, v, target, e.doneAt, ScaleUp(cfg, c, v, target, e))
  {
    var slot, amount := |c.usedSlots|, target - c.currentMemory;
    PrefixSlots(slot, cfg.maxSlots);
    if slot < cfg.maxSlots {
      assert Request(cfg, c, target) == Some((slot, amount));
      HotplugCases(v, slot, amount, e);
      var o := ScaleUp(cfg, c, v, target, e);
      var h := HotplugMemory(v, slot, amount, e);
      if !h.1 {
        assert o.vm == h.0 && o.op == if slot in h.0.dimms && slot !in v.dimms then Some(Leak(slot, amount)) else None;
      } else if e.onlineOk {
        assert o.vm == h.0.(online := h.0.online + {slot}) && o.op == Some(Up([slot], amount, e.doneAt));
      } else {
        UnplugCases(v, slot, amount, e);
        var u := UnplugMemory(h.0, slot, e);
        assert c.usedSlots - {slot} == c.usedSlots;
        assert o == Outcome(c, u.0, None, if u.1 then None else Some(Leak(slot, amount)));
      }
    }
  }

  lemma UpKeeps(cfg: Config, c: Ctl, v: Vm, log: Log, clock: int, target: int, at: int, o: Outcome)
    requires Validated(cfg) && Inv(cfg, Sys(c, v, log, clock)) && clock <= at
    requires c.currentMemory == Total(v, cfg.maxSlots) < target == GrowTarget(cfg, c.currentMemory)
    requires c.high >= cfg.limits.upStability && CooledDown(c.lastScaleUp, at, cfg.limits.upCooldown)
    requires UpOutcome(cfg, c, v, target, at, o)
    ensures Inv(cfg, Sys(o.ctl, o.vm, Append(log, o.op), at))
    ensures o.op.None? ==> Total(o.vm, cfg.maxSlots) == c.currentMemory
    ensures o.op.Some? ==> (o.op.value.Up? || o.op.value.Leak?) && Total(o.vm, cfg.maxSlots) == target
  {
    var slot, amount := |c.usedSlots|, target - c.currentMemory;
    if o.op.None? {
      HistoryLater(cfg, c, log, clock, at);
    } else {
      PlugKeepsVm(cfg, c.usedSlots, v, o.vm, slot, amount);
      if o.op.value.Leak? {
        LeakKeepsHistory(cfg, c, log, clock, slot, amount, at);
      } else {
        UpKeepsHistory(cfg, c, log, clock, amount, at, target);
      }
    }
  }

  // A completed scale-up plugged one aligned DIMM into the next slot of the stack; a failed one
  // changed nothing, or left a DIMM above every used slot.
  lemma ScaleUpKeeps(cfg: Config, c: Ctl, v: Vm, log: Log, clock: int, target: int, e: Env)
    requires Validated(cfg) && Inv(cfg, Sys(c, v, log, clock)) && clock <= e.now <= e.doneAt
    requires c.currentMemory == Total(v, cfg.maxSlots) < target == GrowTarget(cfg, c.currentMemory)
    requires Aligned(target - c.currentMemory)
    requires c.high >= cfg.limits.upStability
    requires CooledDown(c.lastScaleUp, e.now, cfg.limits.upCooldown)
    ensures var o := ScaleUp(cfg, c, v, target, e);
            && Inv(cfg, Sys(o.ctl, o.vm, Append(log, o.op), e.doneAt))
            && (o.op.None? ==> Total(o.vm, cfg.maxSlots) == c.currentMemory)
            && (o.op.Some? ==> (o.op.value.Up? || o.op.value.Leak?) && Total(o.vm, cfg.maxSlots) == target)
  {
    SlotsFit(c.usedSlots, v, cfg.maxSlots);
    ScaleUpCases(cfg, c, v, target, e);
    UpKeeps(cfg, c, v, log, clock, target, e.doneAt, ScaleUp(cfg, c, v, target, e));
  }

  // The two outcomes of a scale-down: the stack stays, and only what is online may change, or its top is gone.
  predicate DownOutcome(c: Ctl, v: Vm, target: int, at: int, o: Outcome)
    requires c.usedSlots == Below(|c.usedSlots|) && c.usedSlots <= v.dimms.Keys
  {
    var slot := |c.usedSlots| - 1;
    && o.counted.None? && o.vm.base == v.base
    && (o.op.None? ==>
          && o.ctl == c && o.vm.dimms == v.dimms && o.vm.backends == v.backends
          && o.vm.online <= v.online + c.usedSlots)
    && (o.op.Some? ==>
          && slot >= 0 && target < c.currentMemory && o.op == Some(Down([slot], v.dimms[slot], at))
          && o.vm.dimms == v.dimms - {slot} && v.backends - {slot} <= o.vm.backends
          && o.vm.online == v.online - {slot}
          && o.ctl == c.(usedSlots := c.usedSlots - {slot}, lastScaleDown := Some(at), low := 0,
                         currentMemory := target))
  }

  lemma ScaleDownCases(cfg: Config, c: Ctl, v: Vm, target: int, e: Env)
    requires c.usedSlots == Below(|c.usedSlots|) && |c.usedSlots| <= cfg.maxSlots && c.usedSlots <= v.dimms.Keys
    ensures DownOutcome(c, v, target, e.doneAt, ScaleDown(cfg, c, v, target, e))
    ensures c.usedSlots != {} && target < c.currentMemory && e.offlineOk && e.deviceDelOk ==>
              ScaleDown(cfg, c, v, target, e).op.Some?
  {
    PrefixSlots(|c.usedSlots|, cfg.maxSlots);
    if c.usedSlots != {} {
      var slot: nat := |c.usedSlots| - 1;
      assert slot in c.usedSlots;
      UnplugTop(v.(online := v.online - {slot}), slot, e);
    }
  }

  lemma UnplugTop(v: Vm, slot: nat, e: Env)
    requires slot in v.dimms
    ensures var (w, gone) := UnplugMemory(v, slot, e);
            && (gone <==> e.deviceDelOk) && w.base == v.base && w.online == v.online
            && w.dimms == (if gone then v.dimms - {slot} else v.dimms)
            && (if gone then v.backends - {slot} <= w.backends else w.backends == v.backends)
  {
  }

  lemma DownKeeps(cfg: Config, c: Ctl, v: Vm, log: Log, clock: int, target: int, at: int, o: Outcome)
    requires Validated(cfg) && Inv(cfg, Sys(c, v, log, clock)) && clock <= at
    requires c.currentMemory == Total(v, cfg.maxSlots) > target == ShrinkTarget(cfg, c.currentMemory)
    requires c.low >= cfg.limits.downStability && CooledDown(c.lastScaleDown, at, cfg.limits.downCooldown)
    requires DownOutcome(c, v, target, at, o)
    ensures Inv(cfg, Sys(o.ctl, o.vm, Append(log, o.op), at))
    ensures o.op.None? ==> Total(o.vm, cfg.maxSlots) == Total(v, cfg.maxSlots)
    ensures o.op.Some? ==>
              && o.op.value.Down? && |o.op.value.ids| == 1
              && o.op.value.ids[0] in v.dimms && o.op.value.amount == v.dimms[o.op.value.ids[0]]
              && target <= Total(o.vm, cfg.maxSlots) == c.currentMemory - o.op.value.amount < c.currentMemory
  {
    if o.op.None? {
      HistoryLater(cfg, c, log, clock, at);
    } else {
      var slot := |c.usedSlots| - 1;
      UnplugKeepsVm(cfg, c.usedSlots, v, o.vm, slot);
      DownKeepsHistory(cfg, c, log, clock, v.dimms[slot], at, target);
    }
  }

  // A completed scale-down removed the last added DIMM, and no more than was planned.
  lemma ScaleDownKeeps(cfg: Config, c: Ctl, v: Vm, log: Log, clock: int, target: int, e: Env)
    requires Validated(cfg) && Inv(cfg, Sys(c, v, log, clock)) && clock <= e.now <= e.doneAt
    requires c.currentMemory == Total(v, cfg.maxSlots) > target == ShrinkTarget(cfg, c.currentMemory)
    requires c.low >= cfg.limits.downStability
    requires CooledDown(c.lastScaleDown, e.now, cfg.limits.downCooldown)
    ensures var o := ScaleDown(cfg, c, v, target, e);
            && Inv(cfg, Sys(o.ctl, o.vm, Append(log, o.op), e.doneAt))
            && (o.op.None? ==> Total(o.vm, cfg.maxSlots) == Total(v, cfg.maxSlots))
            && (o.op.Some? ==>
                  && o.op.value.Down? && |o.op.value.ids| == 1
                  && o.op.value.ids[0] in v.dimms && o.op.value.amount == v.dimms[o.op.value.ids[0]]
                  && target <= Total(o.vm, cfg.maxSlots) == c.currentMemory - o.op.value.amount < c.currentMemory)
  {
    SlotsFit(c.usedSlots, v, cfg.maxSlots);
    ScaleDownCases(cfg, c, v, target, e);
    DownKeeps(cfg, c, v, log, clock, target, e.doneAt, ScaleDown(cfg, c, v, target, e));
  }

  // ---------------------------------------------------------------- one tick

  lemma GrowAligned(cfg: Config, memory: int)
    requires AlignedConfig(cfg) && Aligned(memory)
    ensures Aligned(GrowTarget(cfg, memory) - memory)
  {
  }

  // All that a tick may do to the total memory of a reachable state.
  ghost predicate Effect(cfg: Config, before: int, e: Env, op: Option<Entry>, after: int) {
    && (op.None? ==> after == before)
    && (op.Some? && (op.value.Up? || op.value.Leak?) ==>
          && e.usage.Some? && before - e.usage.value < cfg.Margin()
          && before < after == GrowTarget(cfg, before))
    && (op.Some? && op.value.Down? ==>
          && e.usage.Some? && ShrinkTarget(cfg, before) - e.usage.value >= cfg.Margin()
          && ShrinkTarget(cfg, before) <= after == before - op.value.amount < before)
    && (op.Some? ==> !op.value.Counted?)
  }

  lemma DecideKeeps(cfg: Config, c: Ctl, v: Vm, log: Log, clock: int, usage: int, now: int)
    requires Inv(cfg, Sys(c, v, log, clock)) && c.currentMemory > 0
    ensures var (d, target, counted) := Decide(cfg, c, usage, now);
            Inv(cfg, Sys(d, v, Note(log, counted), clock))
  {
    DecideMeans(cfg, c, usage, now);
    var (d, target, counted) := Decide(cfg, c, usage, now);
    if counted.Some? {
      CountedKeepsHistory(cfg, c, log, clock, counted.value);
      assert HistoryInv(cfg, d, log + [Counted(counted.value)], clock);
    }
  }

  // Every tick keeps the invariant, whatever QEMU and the guest answer.
  lemma TickKeeps(cfg: Config, s: Sys, e: Env)
    requires Validated(cfg) && Inv(cfg, s) && Timely(s, e) && Total(s.vm, cfg.maxSlots) > 0
    requires Aligned(GrowTarget(cfg, Total(s.vm, cfg.maxSlots)) - Total(s.vm, cfg.maxSlots))
    ensures var o := Tick(cfg, s.ctl, s.vm, e);
            && Inv(cfg, Step(cfg, s, e))
            && Effect(cfg, Total(s.vm, cfg.maxSlots), e, o.op, Total(o.vm, cfg.maxSlots))
  {
    var before := Total(s.vm, cfg.maxSlots);
    var c1 := s.ctl.(currentMemory := before);
    if e.queryOk && e.usage.Some? && s.ctl.sampled {
      var u := e.usage.value;
      var c2 := c1.(sampled := true, lastUsage := u);
      assert HistoryInv(cfg, c2, s.log, s.clock);
      DecideMeans(cfg, c2, u, e.now);
      DecideKeeps(cfg, c2, s.vm, s.log, s.clock, u, e.now);
      var (c3, target, counted) := Decide(cfg, c2, u, e.now);
      var log3 := Note(s.log, counted);
      if target > before {
        ScaleUpKeeps(cfg, c3, s.vm, log3, s.clock, target, e);
      } else if target < before && cfg.enableScaleDown {
        ScaleDownKeeps(cfg, c3, s.vm, log3, s.clock, target, e);
      } else {
        HistoryLater(cfg, c3, log3, s.clock, e.doneAt);
      }
      assert Inv(cfg, Step(cfg, s, e));
    } else {
      HistoryLater(cfg, s.ctl, s.log, s.clock, e.doneAt);
      assert Step(cfg, s, e).log == s.log;
      assert HistoryInv(cfg, Step(cfg, s, e).ctl, s.log, e.doneAt);
    }
  }

  // ---------------------------------------------------------------- runs

  // Any number of ticks with any answers, in time order.
  ghost predicate IsRun(cfg: Config, run: seq<Sys>, envs: seq<Env>) {
    && |run| == |envs| + 1
    && forall i :: 0 <= i < |envs| ==>
         Timely(run[i], envs[i]) && (Total(run[i].vm, cfg.maxSlots) > 0 ==> run[i + 1] == Step(cfg, run[i], envs[i]))
  }

  ghost predicate AlignedVm(v: Vm) {
    Aligned(v.base) && forall i :: i in v.dimms ==> Aligned(v.dimms[i])
  }

  lemma AlignedSum(a: int, b: int)
    requires Aligned(a) && Aligned(b)
    ensures Aligned(a + b)
  {
  }

  lemma {:induction false} AlignedTotal(v: Vm, n: nat)
    requires AlignedVm(v)
    ensures Aligned(Total(v, n))
  {
    if n > 0 {
      AlignedTotal(v, n - 1);
      if n - 1 in v.dimms { AlignedSum(Total(v, n - 1), v.dimms[n - 1]); }
    }
  }

  lemma HotplugKeepsAligned(v: Vm, slot: nat, size: int, e: Env)
    requires AlignedVm(v)
    ensures AlignedVm(HotplugMemory(v, slot, size, e).0)
  {
  }

  lemma TickKeepsAligned(cfg: Config, c: Ctl, v: Vm, e: Env)
    requires AlignedVm(v) && Total(v, cfg.maxSlots) > 0
    ensures AlignedVm(Tick(cfg, c, v, e).vm)
  {
    var c2 := c.(currentMemory := Total(v, cfg.maxSlots), sampled := true);
    if e.usage.Some? {
      var (c3, target, _) := Decide(cfg, c2.(lastUsage := e.usage.value), e.usage.value, e.now);
      var request := Request(cfg, c3, target);
      if request.Some? { HotplugKeepsAligned(v, request.value.0, request.value.1, e); }
    }
  }

  ghost predicate Safe(cfg: Config, s: Sys) {
    && Inv(cfg, s)
    && AlignedVm(s.vm)
    && cfg.bootMemory <= Total(s.vm, cfg.maxSlots) <= cfg.maxMemory
  }

  lemma BootIsSafe(cfg: Config, clock: int)
    requires Validated(cfg) && AlignedConfig(cfg)
    ensures Safe(cfg, Boot(cfg, clock))
  {
    var s := Boot(cfg, clock);
    PluggedBounds(s.vm.dimms, cfg.maxSlots);
    PluggedNone(cfg.maxSlots);
  }

  lemma {:induction false} PluggedNone(n: nat)
    ensures Plugged(map[], n) == 0
  {
    if n > 0 { PluggedNone(n - 1); }
  }

  lemma StepKeepsSafe(cfg: Config, s: Sys, e: Env)
    requires Validated(cfg) && AlignedConfig(cfg) && Safe(cfg, s) && Timely(s, e)
    ensures Safe(cfg, Step(cfg, s, e))
    ensures Effect(cfg, Total(s.vm, cfg.maxSlots), e, Tick(cfg, s.ctl, s.vm, e).op,
                   Total(Step(cfg, s, e).vm, cfg.maxSlots))
  {
    AlignedTotal(s.vm, cfg.maxSlots);
    GrowAligned(cfg, Total(s.vm, cfg.maxSlots));
    TickKeeps(cfg, s, e);
    TickKeepsAligned(cfg, s.ctl, s.vm, e);
    PluggedBounds(Step(cfg, s, e).vm.dimms, cfg.maxSlots);
  }

  lemma {:induction false} RunsStaySafe(cfg: Config, run: seq<Sys>, envs: seq<Env>)
    requires Validated(cfg) && AlignedConfig(cfg)
    requires IsRun(cfg, run, envs) && Safe(cfg, run[0])
    ensures forall i :: 0 <= i < |run| ==> Safe(cfg, run[i])
  {
    var n := 0;
    while n < |envs|
      invariant 0 <= n <= |envs|
      invariant forall i :: 0 <= i <= n ==> Safe(cfg, run[i])
    {
      StepKeepsSafe(cfg, run[n], envs[n]);
      n := n + 1;
    }
  }

  // In every reachable state: the used slots are {0, .., k-1} with k at most MaxSlots, slots were
  // removed in LIFO order, the history obeys the counted hysteresis, every size is a multiple of
  // 128 MiB, and the total stays between boot and max memory -- across failed onlines, failed
  // unplugs and leaked DIMMs.
  lemma RunsAreSafe(cfg: Config, run: seq<Sys>, envs: seq<Env>, clock: int)
    requires Validated(cfg) && AlignedConfig(cfg)
    requires IsRun(cfg, run, envs) && run[0] == Boot(cfg, clock)
    ensures forall i :: 0 <= i < |run| ==> Safe(cfg, run[i])
  {
    BootIsSafe(cfg, clock);
    RunsStaySafe(cfg, run, envs);
  }

  // Counted hysteresis in every run: each operation was asked for by the configured number of latest
  // readings, and operations of one direction are a cooldown apart.
  lemma RunsAreCounted(cfg: Config, run: seq<Sys>, envs: seq<Env>, clock: int)
    requires Validated(cfg) && AlignedConfig(cfg)
    requires IsRun(cfg, run, envs) && run[0] == Boot(cfg, clock)
    ensures forall i :: 0 <= i < |run| ==> Counts(run[i].log, cfg.limits)
  {
    RunsAreSafe(cfg, run, envs, clock);
    forall i | 0 <= i < |run| ensures Counts(run[i].log, cfg.limits) {
      assert Safe(cfg, run[i]);
      DisciplineCounts(run[i].log, cfg.limits);
    }
  }

  // What Safe says about slots, in the controller's own terms.
  lemma SlotsFormAStack(cfg: Config, s: Sys)
    requires Safe(cfg, s)
    ensures |s.ctl.usedSlots| <= cfg.maxSlots
    ensures forall i: nat :: i in s.ctl.usedSlots <==> i < |s.ctl.usedSlots|
    ensures FreeSlot(s.ctl.usedSlots, 0, cfg.maxSlots) == |s.ctl.usedSlots|
    ensures s.ctl.usedSlots != {} ==>
              UsedTop(s.ctl.usedSlots, cfg.maxSlots) - 1 == Stack(s.log)[|Stack(s.log)| - 1]
  {
    SlotsFit(s.ctl.usedSlots, s.vm, cfg.maxSlots);
    PrefixSlots(|s.ctl.usedSlots|, cfg.maxSlots);
  }

  // Every size a reachable controller asks QEMU for passes the alignment check and fits.
  lemma RequestsAreAccepted(cfg: Config, s: Sys, usage: int, now: int)
    requires Validated(cfg) && AlignedConfig(cfg) && Safe(cfg, s)
    ensures var c := s.ctl.(currentMemory := Total(s.vm, cfg.maxSlots));
            var (d, target, _) := Decide(cfg, c, usage, now);
            var request := Request(cfg, d, target);
            request.Some? ==>
              && request.value.0 < cfg.maxSlots
              && 0 < request.value.1 && Aligned(request.value.1)
              && Total(s.vm, cfg.maxSlots) + request.value.1 <= cfg.maxMemory
  {
    var c := s.ctl.(currentMemory := Total(s.vm, cfg.maxSlots));
    DecideMeans(cfg, c, usage, now);
    AlignedTotal(s.vm, cfg.maxSlots);
    GrowAligned(cfg, Total(s.vm, cfg.maxSlots));
  }

  // ---------------------------------------------------------------- no oscillation

  // From here on the controller cannot shrink.
  predicate TooTight(cfg: Config, total: int, usage: int) { ShrinkTarget(cfg, total) - usage < cfg.Margin() }

  // From here on the controller cannot grow.
  predicate Roomy(cfg: Config, total: int, usage: int) { total - usage >= cfg.Margin() }

  // Under constant usage, growing pins the total where it cannot shrink, and the other way round.
  ghost predicate StepsOneWay(cfg: Config, usage: int, t: int, t': int) {
    OneWay(x => TooTight(cfg, x, usage), x => Roomy(cfg, x, usage), t, t')
  }

  lemma StepIsOneWay(cfg: Config, s: Sys, e: Env, usage: int)
    requires Validated(cfg) && AlignedConfig(cfg) && Safe(cfg, s) && Timely(s, e)
    requires e.usage.Some? ==> e.usage.value == usage
    ensures Safe(cfg, Step(cfg, s, e))
    ensures StepsOneWay(cfg, usage, Total(s.vm, cfg.maxSlots), Total(Step(cfg, s, e).vm, cfg.maxSlots))
  {
    StepKeepsSafe(cfg, s, e);
  }

  function Totals(cfg: Config, run: seq<Sys>): seq<int> {
    seq(|run|, k requires 0 <= k < |run| => Total(run[k].vm, cfg.maxSlots))
  }

  lemma RunIsOneWayAt(cfg: Config, run: seq<Sys>, envs: seq<Env>, usage: int, k: nat)
    requires Validated(cfg) && AlignedConfig(cfg)
    requires IsRun(cfg, run, envs) && k < |envs| && Safe(cfg, run[k])
    requires envs[k].usage.Some? ==> envs[k].usage.value == usage
    ensures StepsOneWay(cfg, usage, Totals(cfg, run)[k], Totals(cfg, run)[k + 1])
  {
    StepIsOneWay(cfg, run[k], envs[k], usage);
    assert run[k + 1] == Step(cfg, run[k], envs[k]);
  }

  lemma RunIsOneWay(cfg: Config, run: seq<Sys>, envs: seq<Env>, usage: int)
    requires Validated(cfg) && AlignedConfig(cfg)
    requires IsRun(cfg, run, envs) && Safe(cfg, run[0])
    requires forall k :: 0 <= k < |envs| && envs[k].usage.Some? ==> envs[k].usage.value == usage
    ensures forall k :: 0 <= k < |envs| ==> StepsOneWay(cfg, usage, Totals(cfg, run)[k], Totals(cfg, run)[k + 1])
  {
    RunsStaySafe(cfg, run, envs);
    forall k | 0 <= k < |envs| ensures StepsOneWay(cfg, usage, Totals(cfg, run)[k], Totals(cfg, run)[k + 1]) {
      RunIsOneWayAt(cfg, run, envs, usage, k);
    }
  }

  // With constant usage no stretch of a run both adds and removes memory, from any reachable
  // state, for every increment, margin and cap, and every pattern of failures.
  lemma NeverOscillates(cfg: Config, run: seq<Sys>, envs: seq<Env>, usage: int, i: nat, j: nat)
    requires Validated(cfg) && AlignedConfig(cfg)
    requires IsRun(cfg, run, envs) && Safe(cfg, run[0])
    requires forall k :: 0 <= k < |envs| && envs[k].usage.Some? ==> envs[k].usage.value == usage
    requires i < |envs| && j < |envs|
    ensures !(Total(run[i + 1].vm, cfg.maxSlots) > Total(run[i].vm, cfg.maxSlots)
              && Total(run[j + 1].vm, cfg.maxSlots) < Total(run[j].vm, cfg.maxSlots))
  {
    RunIsOneWay(cfg, run, envs, usage);
    OneWayForever(x => TooTight(cfg, x, usage), x => Roomy(cfg, x, usage), Totals(cfg, run));
    var totals := Totals(cfg, run);
    assert totals[i] == Total(run[i].vm, cfg.maxSlots) && totals[i + 1] == Total(run[i + 1].vm, cfg.maxSlots);
    assert totals[j] == Total(run[j].vm, cfg.maxSlots) && totals[j + 1] == Total(run[j + 1].vm, cfg.maxSlots);
  }
}
