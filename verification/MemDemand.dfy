// What the memory controller does at each tick of a run, from the configuration, the VM's total and the usage
// alone.
module MemDemand {
  import opened Base
  import opened Hysteresis
  import opened MemHotplug
  import opened MemHotplugSafety

  // ---------------------------------------------------------------- what a reading asks for

  predicate AsksUp(cfg: Config, total: int, usage: int) {
    usage as real * 100.0 >= cfg.upThreshold * total as real && total - usage < cfg.Margin()
  }

  predicate AsksDown(cfg: Config, total: int, usage: int) {
    usage as real * 100.0 < cfg.downThreshold * total as real
  }

  function Asks(cfg: Config, total: int, usage: int): Reading {
    if AsksUp(cfg, total, usage) then High else if AsksDown(cfg, total, usage) then Low else Neutral
  }

  // One increment more, but not more than the maximum; a sum of 2^63 or more is negative in 64 bits.
  function Larger(cfg: Config, total: int): int {
    if total + cfg.increment >= TWO63 then total
    else if total + cfg.increment > cfg.maxMemory then cfg.maxMemory
    else total + cfg.increment
  }

  // One increment less, but not less than at boot.
  function Smaller(cfg: Config, total: int): int {
    if total - cfg.increment < cfg.bootMemory then cfg.bootMemory else total - cfg.increment
  }

  lemma PctMeans(usage: int, total: int, t: real)
    requires total > 0
    ensures UsagePct(usage, total) >= t <==> usage as real * 100.0 >= t * total as real
  {
    var u, m := usage as real, total as real;
    var q := u / m;
    assert q * m == u;
    assert (q * 100.0 - t) * m == u * 100.0 - t * m;
  }

  // Where a counted reading wants to go.
  function Target(cfg: Config, total: int, usage: int, noted: Log): int {
    var asked := Asks(cfg, total, usage);
    if asked == High && Streak(noted, High) >= cfg.limits.upStability && Larger(cfg, total) > total then
      Larger(cfg, total)
    else if
      && asked == Low && Streak(noted, Low) >= cfg.limits.downStability
      && Smaller(cfg, total) - usage >= cfg.Margin() && Smaller(cfg, total) < total
    then Smaller(cfg, total)
    else total
  }

  // What Decide answers, given which of the two limits is crossed.
  lemma DecideBy(cfg: Config, c: Ctl, usage: int, now: int, up: bool, down: bool)
    requires c.currentMemory > 0
    requires up <==> UsagePct(usage, c.currentMemory) >= cfg.upThreshold && c.currentMemory - usage < cfg.Margin()
    requires down <==> UsagePct(usage, c.currentMemory) < cfg.downThreshold
    ensures var (d, target, counted) := Decide(cfg, c, usage, now);
            var more, less := GrowTarget(cfg, c.currentMemory), ShrinkTarget(cfg, c.currentMemory);
            if up && !CooledDown(c.lastScaleUp, now, cfg.limits.upCooldown) then
              target == c.currentMemory && counted == None
            else if up then
              && target == (if c.high + 1 >= cfg.limits.upStability && more > c.currentMemory then more
                            else c.currentMemory)
              && counted == Some(High)
            else if down && !CooledDown(c.lastScaleDown, now, cfg.limits.downCooldown) then
              target == c.currentMemory && counted == None
            else if down then
              && target == (if && c.low + 1 >= cfg.limits.downStability && less - usage >= cfg.Margin()
                               && less < c.currentMemory
                            then less else c.currentMemory)
              && counted == Some(Low)
            else target == c.currentMemory && counted == Some(Neutral)
  {
    ExactUsage(c.currentMemory, usage);
  }

  // The target in terms of the history before the reading.
  lemma TargetBy(cfg: Config, total: int, usage: int, log: Log)
    ensures var more, less := GrowTarget(cfg, total), ShrinkTarget(cfg, total);
            Target(cfg, total, usage, log + [Counted(Asks(cfg, total, usage))]) ==
            if AsksUp(cfg, total, usage) then
              (if Streak(log, High) + 1 >= cfg.limits.upStability && more > total then more else total)
            else if AsksDown(cfg, total, usage) then
              (if && Streak(log, Low) + 1 >= cfg.limits.downStability && less - usage >= cfg.Margin() && less < total
               then less else total)
            else total
  {
    StreakSnoc(log, Asks(cfg, total, usage));
  }

  // calculateTargetMemory goes up, or down, exactly when the reading asks for it and counter and cooldown allow
  // it; a reading that asks for nothing starts both counts again.
  lemma TargetIsExact(cfg: Config, c: Ctl, usage: int, now: int)
    requires c.currentMemory > 0
    ensures var (d, target, _) := Decide(cfg, c, usage, now);
            var total := c.currentMemory;
            var asked := Asks(cfg, total, usage);
            && (target > total <==>
                && asked == High && CooledDown(c.lastScaleUp, now, cfg.limits.upCooldown)
                && c.high + 1 >= cfg.limits.upStability && Larger(cfg, total) > total)
            && (target < total <==>
                && asked == Low && CooledDown(c.lastScaleDown, now, cfg.limits.downCooldown)
                && c.low + 1 >= cfg.limits.downStability && Smaller(cfg, total) < total
                && Smaller(cfg, total) - usage >= cfg.Margin())
            && (target > total ==> target == Larger(cfg, total)) && (target < total ==> target == Smaller(cfg, total))
            && (asked == Neutral ==> d.high == 0 == d.low)
  {
    PctMeans(usage, c.currentMemory, cfg.upThreshold);
    PctMeans(usage, c.currentMemory, cfg.downThreshold);
    DecideBy(cfg, c, usage, now, AsksUp(cfg, c.currentMemory, usage), AsksDown(cfg, c.currentMemory, usage));
    DecideMeans(cfg, c, usage, now);
  }

  lemma DecideIsAsked(cfg: Config, c: Ctl, usage: int, now: int, log: Log, clock: int)
    requires c.currentMemory > 0 && Kept(cfg.limits, c.Counters(), log, clock)
    ensures var (d, target, counted) := Decide(cfg, c, usage, now);
            var asked := Asks(cfg, c.currentMemory, usage);
            && counted == (if Ignored(cfg.limits, log, asked, now) then None else Some(asked))
            && target == (if Ignored(cfg.limits, log, asked, now) then c.currentMemory
                          else Target(cfg, c.currentMemory, usage, log + [Counted(asked)]))
  {
    var total := c.currentMemory;
    PctMeans(usage, total, cfg.upThreshold);
    PctMeans(usage, total, cfg.downThreshold);
    DecideBy(cfg, c, usage, now, AsksUp(cfg, total, usage), AsksDown(cfg, total, usage));
    TargetBy(cfg, total, usage, log);
  }

  // ---------------------------------------------------------------- what an operation does

  // QEMU takes a new DIMM for the slot.
  predicate Takes(v: Vm, slot: nat, slots: nat, e: Env) {
    slot < slots && slot !in v.backends && e.objectAddOk && e.deviceAddOk
  }

  // A backend was made in vain, and cannot be taken back.
  predicate StaysBehind(v: Vm, slot: nat, slots: nat, e: Env) {
    slot < slots && slot !in v.backends && e.objectAddOk && !e.objectDelOk
  }

  // The next slot gets a DIMM and the guest brings it online. A DIMM that is not seen, or can be neither onlined
  // nor unplugged, stays; otherwise nothing is plugged.
  ghost predicate Grows(v: Vm, slot: nat, amount: int, slots: nat, log: Log, e: Env, v': Vm, log': Log) {
    if Takes(v, slot, slots, e) && e.growthSeen && e.onlineOk then
      && v' == Vm(v.base, v.dimms[slot := amount], v.backends + {slot}, v.online + {slot})
      && log' == log + [Up([slot], amount, e.doneAt)]
    else if Takes(v, slot, slots, e) && (!e.growthSeen || !e.deviceDelOk) then
      && v' == Vm(v.base, v.dimms[slot := amount], v.backends + {slot}, v.online)
      && log' == log + [Leak(slot, amount)]
    else
      && v' == v.(backends := if StaysBehind(v, slot, slots, e) then v.backends + {slot} else v.backends)
      && log' == log
  }

  // The DIMM that was added last is taken offline and unplugged, or brought back online when it cannot be.
  ghost predicate Shrinks(v: Vm, stack: seq<nat>, log: Log, e: Env, v': Vm, log': Log) {
    if stack == [] || !e.offlineOk then v' == v && log' == log
    else
      var slot := stack[|stack| - 1];
      if !e.deviceDelOk then
        v' == v.(online := if e.onlineAgainOk then v.online + {slot} else v.online - {slot}) && log' == log
      else
        && slot in v.dimms && log' == log + [Down([slot], v.dimms[slot], e.doneAt)]
        && v' == Vm(v.base, v.dimms - {slot}, if e.objectDelOk then v.backends - {slot} else v.backends,
                    v.online - {slot})
  }

  lemma PluggedThenUnplugged(v: Vm, slot: nat, size: int, e: Env)
    requires slot !in v.dimms && slot !in v.backends && slot !in v.online
    ensures var w := v.(dimms := v.dimms[slot := size], backends := v.backends + {slot});
            var x := UnplugMemory(w, slot, e);
            && x.1 == e.deviceDelOk
            && x.0 == if !e.deviceDelOk then w else if e.objectDelOk then v else v.(backends := v.backends + {slot})
  {
    assert v.dimms[slot := size] - {slot} == v.dimms;
    assert v.backends + {slot} - {slot} == v.backends;
  }

  lemma HotplugIs(v: Vm, slot: nat, size: int, slots: nat, e: Env)
    requires v.dimms.Keys <= v.backends && Aligned(size) && slot < slots
    ensures var h := HotplugMemory(v, slot, size, e);
            && (Takes(v, slot, slots, e) ==>
                  h == (v.(dimms := v.dimms[slot := size], backends := v.backends + {slot}), e.growthSeen))
            && (!Takes(v, slot, slots, e) ==>
                  h == (v.(backends := if StaysBehind(v, slot, slots, e) then v.backends + {slot} else v.backends),
                        false))
  {
  }

  ghost predicate Stacked(cfg: Config, c: Ctl, v: Vm) {
    VmInv(cfg, v) && SlotInv(c.usedSlots, v) && |c.usedSlots| <= cfg.maxSlots
  }

  lemma ScaleUpIs(cfg: Config, c: Ctl, v: Vm, target: int, e: Env, log: Log)
    requires Stacked(cfg, c, v) && target > c.currentMemory && Aligned(target - c.currentMemory)
    ensures var o := ScaleUp(cfg, c, v, target, e);
            Grows(v, |c.usedSlots|, target - c.currentMemory, cfg.maxSlots, log, e, o.vm, Append(log, o.op))
  {
    var slot, amount := |c.usedSlots|, target - c.currentMemory;
    PrefixSlots(slot, cfg.maxSlots);
    if slot < cfg.maxSlots {
      assert Request(cfg, c, target) == Some((slot, amount));
      RequestIs(cfg, c, v, target, e, log, slot, amount);
    } else {
      assert Request(cfg, c, target) == None;
    }
  }

  lemma RequestIs(cfg: Config, c: Ctl, v: Vm, target: int, e: Env, log: Log, slot: nat, amount: int)
    requires Request(cfg, c, target) == Some((slot, amount)) && slot < cfg.maxSlots && Aligned(amount)
    requires v.online <= v.dimms.Keys <= v.backends
    ensures var o := ScaleUp(cfg, c, v, target, e);
            Grows(v, slot, amount, cfg.maxSlots, log, e, o.vm, Append(log, o.op))
  {
    HotplugIs(v, slot, amount, cfg.maxSlots, e);
    if Takes(v, slot, cfg.maxSlots, e) {
      PluggedThenUnplugged(v, slot, amount, e);
      TakenIs(cfg, c, v, target, e);
    } else {
      RefusedIs(cfg, c, v, target, e);
    }
  }

  lemma TakenIs(cfg: Config, c: Ctl, v: Vm, target: int, e: Env)
    requires Request(cfg, c, target).Some? && Request(cfg, c, target).value.0 !in v.dimms
    requires var r := Request(cfg, c, target).value;
             HotplugMemory(v, r.0, r.1, e)
             == (v.(dimms := v.dimms[r.0 := r.1], backends := v.backends + {r.0}), e.growthSeen)
    ensures var r, o := Request(cfg, c, target).value, ScaleUp(cfg, c, v, target, e);
            var w := v.(dimms := v.dimms[r.0 := r.1], backends := v.backends + {r.0});
            && (e.growthSeen && e.onlineOk ==>
                  o.vm == w.(online := w.online + {r.0}) && o.op == Some(Up([r.0], r.1, e.doneAt)))
            && (!e.growthSeen ==> o.vm == w && o.op == Some(Leak(r.0, r.1)))
            && (e.growthSeen && !e.onlineOk ==>
                  var x := UnplugMemory(w, r.0, e);
                  o.vm == x.0 && o.op == if x.1 then None else Some(Leak(r.0, r.1)))
  {
  }

  lemma RefusedIs(cfg: Config, c: Ctl, v: Vm, target: int, e: Env)
    requires Request(cfg, c, target).Some?
    requires var r := Request(cfg, c, target).value;
             var h := HotplugMemory(v, r.0, r.1, e);
             !h.1 && h.0.dimms == v.dimms
    ensures var r, o := Request(cfg, c, target).value, ScaleUp(cfg, c, v, target, e);
            o.vm == HotplugMemory(v, r.0, r.1, e).0 && o.op.None?
  {
  }

  lemma ScaleDownIs(cfg: Config, c: Ctl, v: Vm, target: int, e: Env, log: Log)
    requires Stacked(cfg, c, v) && target < c.currentMemory
    ensures var o := ScaleDown(cfg, c, v, target, e);
            Shrinks(v, Ladder(|c.usedSlots|), log, e, o.vm, Append(log, o.op))
  {
    PrefixSlots(|c.usedSlots|, cfg.maxSlots);
    if c.usedSlots != {} {
      var slot: nat := |c.usedSlots| - 1;
      assert slot in c.usedSlots;
      TopIsRemoved(cfg, c, v, target, e, log, slot);
    }
  }

  lemma UnplugIs(v: Vm, slot: nat, e: Env)
    requires slot in v.dimms
    ensures var x := UnplugMemory(v, slot, e);
            && x.1 == e.deviceDelOk
            && x.0 == if !e.deviceDelOk then v
                      else Vm(v.base, v.dimms - {slot}, if e.objectDelOk then v.backends - {slot} else v.backends,
                              v.online)
  {
  }

  lemma TopIsRemoved(cfg: Config, c: Ctl, v: Vm, target: int, e: Env, log: Log, slot: nat)
    requires UsedTop(c.usedSlots, cfg.maxSlots) == slot + 1 && target < c.currentMemory && slot in v.dimms
    ensures var o := ScaleDown(cfg, c, v, target, e);
            Shrinks(v, Ladder(slot + 1), log, e, o.vm, Append(log, o.op))
  {
    UnplugIs(v.(online := v.online - {slot}), slot, e);
    assert v.online - {slot} + {slot} == v.online + {slot};
    DownIs(cfg, c, v, target, e, slot);
  }

  lemma DownIs(cfg: Config, c: Ctl, v: Vm, target: int, e: Env, slot: nat)
    requires UsedTop(c.usedSlots, cfg.maxSlots) == slot + 1 && target < c.currentMemory && slot in v.dimms
    ensures var o := ScaleDown(cfg, c, v, target, e);
            var x := UnplugMemory(v.(online := v.online - {slot}), slot, e);
            if !e.offlineOk then o.vm == v && o.op.None?
            else if x.1 then o.vm == x.0 && o.op == Some(Down([slot], v.dimms[slot], e.doneAt))
            else o.vm == (if e.onlineAgainOk then x.0.(online := x.0.online + {slot}) else x.0) && o.op.None?
  {
  }

  // ---------------------------------------------------------------- one tick

  // The tick has a reading to act on: QEMU and the cgroup answer, and this is not the first sample.
  predicate Reads(sampled: bool, e: Env) { e.queryOk && e.usage.Some? && sampled }

  // What a tick makes of the VM and the history.
  ghost predicate Follows(cfg: Config, v: Vm, log: Log, sampled: bool, e: Env, v': Vm, log': Log) {
    var total := Total(v, cfg.maxSlots);
    if !Reads(sampled, e) || Ignored(cfg.limits, log, Asks(cfg, total, e.usage.value), e.now) then
      v' == v && log' == log
    else
      var noted := log + [Counted(Asks(cfg, total, e.usage.value))];
      var target := Target(cfg, total, e.usage.value, noted);
      if target > total then Grows(v, |Stack(log)|, target - total, cfg.maxSlots, noted, e, v', log')
      else if target < total && cfg.enableScaleDown then Shrinks(v, Stack(log), noted, e, v', log')
      else v' == v && log' == noted
  }

  lemma SafeIsStacked(cfg: Config, s: Sys)
    requires Safe(cfg, s)
    ensures Stacked(cfg, s.ctl, s.vm) && Stack(s.log) == Ladder(|s.ctl.usedSlots|)
  {
    SlotsFit(s.ctl.usedSlots, s.vm, cfg.maxSlots);
  }

  lemma LargerIsAligned(cfg: Config, v: Vm)
    requires Validated(cfg) && AlignedConfig(cfg) && AlignedVm(v)
    ensures var total := Total(v, cfg.maxSlots);
            Larger(cfg, total) == GrowTarget(cfg, total) && Aligned(Larger(cfg, total) - total)
  {
    AlignedTotal(v, cfg.maxSlots);
    GrowAligned(cfg, Total(v, cfg.maxSlots));
  }

  lemma ReadingFollows(cfg: Config, s: Sys, c: Ctl, e: Env)
    requires Validated(cfg) && AlignedConfig(cfg) && Safe(cfg, s) && Reads(s.ctl.sampled, e)
    requires c == s.ctl.(currentMemory := Total(s.vm, cfg.maxSlots), sampled := true, lastUsage := e.usage.value)
    ensures var s' := Step(cfg, s, e);
            Follows(cfg, s.vm, s.log, s.ctl.sampled, e, s'.vm, s'.log)
  {
    var total := Total(s.vm, cfg.maxSlots);
    var asked := Asks(cfg, total, e.usage.value);
    DecideIsAsked(cfg, c, e.usage.value, e.now, s.log, s.clock);
    DecideMeans(cfg, c, e.usage.value, e.now);
    var (d, target, counted) := Decide(cfg, c, e.usage.value, e.now);
    SafeIsStacked(cfg, s);
    var noted := s.log + [Counted(asked)];
    if target > total {
      LargerIsAligned(cfg, s.vm);
      ScaleUpIs(cfg, d, s.vm, target, e, noted);
    } else if target < total && cfg.enableScaleDown {
      ScaleDownIs(cfg, d, s.vm, target, e, noted);
    }
  }

  lemma TickSamples(cfg: Config, s: Sys, e: Env)
    requires Total(s.vm, cfg.maxSlots) > 0
    ensures Step(cfg, s, e).ctl.sampled == (s.ctl.sampled || (e.queryOk && e.usage.Some?))
  {
    if Reads(s.ctl.sampled, e) {
      var c := s.ctl.(currentMemory := Total(s.vm, cfg.maxSlots), sampled := true, lastUsage := e.usage.value);
      DecideMeans(cfg, c, e.usage.value, e.now);
    }
  }

  lemma TickFollows(cfg: Config, s: Sys, e: Env)
    requires Validated(cfg) && AlignedConfig(cfg) && Safe(cfg, s)
    ensures var s' := Step(cfg, s, e);
            && Follows(cfg, s.vm, s.log, s.ctl.sampled, e, s'.vm, s'.log)
            && s'.ctl.sampled == (s.ctl.sampled || (e.queryOk && e.usage.Some?))
  {
    TickSamples(cfg, s, e);
    if Reads(s.ctl.sampled, e) {
      var c := s.ctl.(currentMemory := Total(s.vm, cfg.maxSlots), sampled := true, lastUsage := e.usage.value);
      ReadingFollows(cfg, s, c, e);
    } else {
      assert Step(cfg, s, e).vm == s.vm && Step(cfg, s, e).log == s.log;
    }
  }

  // ---------------------------------------------------------------- runs

  ghost predicate BootRun(cfg: Config, run: seq<Sys>, envs: seq<Env>, clock: int) {
    Validated(cfg) && AlignedConfig(cfg) && IsRun(cfg, run, envs) && run[0] == Boot(cfg, clock)
  }

  // An earlier tick has sampled the usage.
  predicate Sampled(envs: seq<Env>) { exists i :: 0 <= i < |envs| && envs[i].queryOk && envs[i].usage.Some? }

  lemma TickOfRun(cfg: Config, run: seq<Sys>, envs: seq<Env>, clock: int, i: nat)
    requires BootRun(cfg, run, envs, clock) && i < |envs|
    ensures Safe(cfg, run[i]) && run[i + 1] == Step(cfg, run[i], envs[i])
  {
    RunsAreSafe(cfg, run, envs, clock);
    assert Safe(cfg, run[i]);
  }

  lemma SampledSnoc(envs: seq<Env>, e: Env)
    ensures Sampled(envs + [e]) <==> Sampled(envs) || (e.queryOk && e.usage.Some?)
  {
    var all := envs + [e];
    assert all[|envs|] == e;
    if Sampled(envs) {
      var i :| 0 <= i < |envs| && envs[i].queryOk && envs[i].usage.Some?;
      assert all[i] == envs[i];
    }
  }

  lemma {:induction false} SampledFold(run: seq<Sys>, envs: seq<Env>, i: nat)
    requires i <= |envs| < |run| && !run[0].ctl.sampled
    requires forall j :: 0 <= j < i ==>
               run[j + 1].ctl.sampled == (run[j].ctl.sampled || (envs[j].queryOk && envs[j].usage.Some?))
    ensures run[i].ctl.sampled <==> Sampled(envs[..i])
  {
    if i > 0 {
      var j := i - 1;
      SampledFold(run, envs, j);
      assert run[j + 1].ctl.sampled == (run[j].ctl.sampled || (envs[j].queryOk && envs[j].usage.Some?));
      SampledSnoc(envs[..j], envs[j]);
      assert envs[..j] + [envs[j]] == envs[..i];
    }
  }

  lemma SampledIsKept(cfg: Config, run: seq<Sys>, envs: seq<Env>, clock: int, i: nat)
    requires BootRun(cfg, run, envs, clock) && i <= |envs|
    ensures run[i].ctl.sampled <==> Sampled(envs[..i])
  {
    forall j | 0 <= j < i
      ensures run[j + 1].ctl.sampled == (run[j].ctl.sampled || (envs[j].queryOk && envs[j].usage.Some?))
    {
      TickOfRun(cfg, run, envs, clock, j);
      TickSamples(cfg, run[j], envs[j]);
    }
    SampledFold(run, envs, i);
  }

  // In every run from boot, every tick does exactly what the total and the usage ask for.
  lemma RunsFollow(cfg: Config, run: seq<Sys>, envs: seq<Env>, clock: int, i: nat)
    requires BootRun(cfg, run, envs, clock) && i < |envs|
    ensures Follows(cfg, run[i].vm, run[i].log, Sampled(envs[..i]), envs[i], run[i + 1].vm, run[i + 1].log)
  {
    TickOfRun(cfg, run, envs, clock, i);
    SampledIsKept(cfg, run, envs, clock, i);
    TickFollows(cfg, run[i], envs[i]);
  }

  // What a tick counts, if anything: what its reading asks for, unless that is inside a cooldown.
  function CountedNow(cfg: Config, total: int, log: Log, sampled: bool, e: Env): seq<Reading> {
    if !Reads(sampled, e) || Ignored(cfg.limits, log, Asks(cfg, total, e.usage.value), e.now) then []
    else [Asks(cfg, total, e.usage.value)]
  }

  // The readings counted in the first k ticks.
  function Asked(cfg: Config, run: seq<Sys>, envs: seq<Env>, k: nat): seq<Reading>
    requires k <= |envs| < |run|
  {
    if k == 0 then []
    else
      Asked(cfg, run, envs, k - 1)
      + CountedNow(cfg, Total(run[k - 1].vm, cfg.maxSlots), run[k - 1].log, Sampled(envs[..k - 1]), envs[k - 1])
  }

  lemma FollowsReads(cfg: Config, v: Vm, log: Log, sampled: bool, e: Env, v': Vm, log': Log)
    requires Follows(cfg, v, log, sampled, e, v', log')
    ensures Readings(log') == Readings(log) + CountedNow(cfg, Total(v, cfg.maxSlots), log, sampled, e)
  {
    var total := Total(v, cfg.maxSlots);
    if Reads(sampled, e) && !Ignored(cfg.limits, log, Asks(cfg, total, e.usage.value), e.now) {
      var entry := Counted(Asks(cfg, total, e.usage.value));
      var noted := log + [entry];
      ReadingsSnoc(log, entry);
      if log' != noted {
        var last := log'[|log'| - 1];
        assert log' == noted + [last] && !last.Counted?;
        ReadingsSnoc(noted, last);
      }
    }
  }

  // The readings of the history are exactly those of the environment.
  lemma {:induction false} ReadingsAreAsked(cfg: Config, run: seq<Sys>, envs: seq<Env>, clock: int, k: nat)
    requires BootRun(cfg, run, envs, clock) && k <= |envs|
    ensures Readings(run[k].log) == Asked(cfg, run, envs, k)
    decreases k
  {
    if k > 0 {
      ReadingsAreAsked(cfg, run, envs, clock, k - 1);
      RunsFollow(cfg, run, envs, clock, k - 1);
      FollowsReads(cfg, run[k - 1].vm, run[k - 1].log, Sampled(envs[..k - 1]), envs[k - 1], run[k].vm, run[k].log);
    }
  }

  // The reading of the tick counts, asks for r, and completes a streak of n.
  ghost predicate Completes(cfg: Config, v: Vm, log: Log, sampled: bool, e: Env, r: Reading, n: int) {
    && CountedNow(cfg, Total(v, cfg.maxSlots), log, sampled, e) == [r]
    && Streak(log + [Counted(r)], r) >= n
  }

  lemma ChangeCompletes(cfg: Config, v: Vm, log: Log, sampled: bool, e: Env, v': Vm, log': Log)
    requires Follows(cfg, v, log, sampled, e, v', log')
    ensures v'.dimms.Keys > v.dimms.Keys ==> Completes(cfg, v, log, sampled, e, High, cfg.limits.upStability)
    ensures v'.dimms.Keys < v.dimms.Keys ==> Completes(cfg, v, log, sampled, e, Low, cfg.limits.downStability)
  {
  }

  lemma CompleteIsEarned(cfg: Config, v: Vm, log: Log, sampled: bool, e: Env, log': Log, r: Reading, n: int)
    requires Completes(cfg, v, log, sampled, e, r, n)
    requires Readings(log') == Readings(log) + CountedNow(cfg, Total(v, cfg.maxSlots), log, sampled, e)
    ensures EndsWith(Readings(log'), r, n)
  {
    var noted := log + [Counted(r)];
    ReadingsSnoc(log, Counted(r));
    StreakMeansLatestReadings(noted, r);
  }

  lemma ChangeIsEarned(cfg: Config, v: Vm, log: Log, sampled: bool, e: Env, v': Vm, log': Log)
    requires Follows(cfg, v, log, sampled, e, v', log')
    ensures v'.dimms.Keys > v.dimms.Keys ==> EndsWith(Readings(log'), High, cfg.limits.upStability)
    ensures v'.dimms.Keys < v.dimms.Keys ==> EndsWith(Readings(log'), Low, cfg.limits.downStability)
  {
    FollowsReads(cfg, v, log, sampled, e, v', log');
    ChangeCompletes(cfg, v, log, sampled, e, v', log');
    if v'.dimms.Keys > v.dimms.Keys {
      CompleteIsEarned(cfg, v, log, sampled, e, log', High, cfg.limits.upStability);
    } else if v'.dimms.Keys < v.dimms.Keys {
      CompleteIsEarned(cfg, v, log, sampled, e, log', Low, cfg.limits.downStability);
    }
  }

  // Counted hysteresis over the environment: a DIMM is added, or removed, only when the latest readings that
  // count asked for it as often as configured.
  lemma ChangesAreAsked(cfg: Config, run: seq<Sys>, envs: seq<Env>, clock: int, i: nat)
    requires BootRun(cfg, run, envs, clock) && i < |envs|
    ensures run[i + 1].vm.dimms.Keys > run[i].vm.dimms.Keys ==>
              EndsWith(Asked(cfg, run, envs, i + 1), High, cfg.limits.upStability)
    ensures run[i + 1].vm.dimms.Keys < run[i].vm.dimms.Keys ==>
              EndsWith(Asked(cfg, run, envs, i + 1), Low, cfg.limits.downStability)
  {
    RunsFollow(cfg, run, envs, clock, i);
    ReadingsAreAsked(cfg, run, envs, clock, i + 1);
    ChangeIsEarned(cfg, run[i].vm, run[i].log, Sampled(envs[..i]), envs[i], run[i + 1].vm, run[i + 1].log);
  }

  // Nothing outside the controller fails in this tick.
  predicate Works(e: Env) {
    e.queryOk && e.objectAddOk && e.deviceAddOk && e.growthSeen && e.onlineOk && e.offlineOk && e.deviceDelOk
  }

  // A reading that asks for growth adds a DIMM once the counter and the cooldown allow it.
  lemma GrowthHappens(cfg: Config, run: seq<Sys>, envs: seq<Env>, clock: int, i: nat)
    requires BootRun(cfg, run, envs, clock) && i < |envs|
    requires Works(envs[i]) && envs[i].usage.Some? && Sampled(envs[..i])
    requires var total := Total(run[i].vm, cfg.maxSlots);
             total < cfg.maxMemory && total + cfg.increment < TWO63 && AsksUp(cfg, total, envs[i].usage.value)
    requires CooledDown(LastUp(run[i].log), envs[i].now, cfg.limits.upCooldown)
    requires Streak(run[i].log, High) + 1 >= cfg.limits.upStability
    requires |Stack(run[i].log)| < cfg.maxSlots && |Stack(run[i].log)| !in run[i].vm.backends
    ensures var total, slot := Total(run[i].vm, cfg.maxSlots), |Stack(run[i].log)|;
            run[i + 1].vm.dimms == run[i].vm.dimms[slot := Larger(cfg, total) - total]
            && run[i + 1].vm.online == run[i].vm.online + {slot}
  {
    RunsFollow(cfg, run, envs, clock, i);
    StreakSnoc(run[i].log, High);
  }

  // A reading that asks for less, and leaves the margin, removes the DIMM that was added last.
  lemma ShrinkingHappens(cfg: Config, run: seq<Sys>, envs: seq<Env>, clock: int, i: nat)
    requires BootRun(cfg, run, envs, clock) && i < |envs| && cfg.enableScaleDown
    requires Works(envs[i]) && envs[i].usage.Some? && Sampled(envs[..i])
    requires var total, usage := Total(run[i].vm, cfg.maxSlots), envs[i].usage.value;
             && !AsksUp(cfg, total, usage) && AsksDown(cfg, total, usage) && Smaller(cfg, total) < total
             && Smaller(cfg, total) - usage >= cfg.Margin()
    requires CooledDown(LastDown(run[i].log), envs[i].now, cfg.limits.downCooldown)
    requires Streak(run[i].log, Low) + 1 >= cfg.limits.downStability && Stack(run[i].log) != []
    ensures run[i + 1].vm.dimms == run[i].vm.dimms - {Stack(run[i].log)[|Stack(run[i].log)| - 1]}
  {
    RunsFollow(cfg, run, envs, clock, i);
    StreakSnoc(run[i].log, Low);
  }

  // A reading between the thresholds starts both counts again.
  lemma NeutralResets(cfg: Config, run: seq<Sys>, envs: seq<Env>, clock: int, i: nat)
    requires BootRun(cfg, run, envs, clock) && i < |envs| && Reads(Sampled(envs[..i]), envs[i])
    requires Asks(cfg, Total(run[i].vm, cfg.maxSlots), envs[i].usage.value) == Neutral
    ensures run[i + 1].vm == run[i].vm && Streak(run[i + 1].log, High) == 0 == Streak(run[i + 1].log, Low)
  {
    RunsFollow(cfg, run, envs, clock, i);
    assert (run[i].log + [Counted(Neutral)])[..|run[i].log|] == run[i].log;
  }
}
