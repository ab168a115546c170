// What a scale-down leaves the guest: the OOM margin, as far as the plugged memory is online.
module MemMargin {
  import opened Base
  import opened Hysteresis
  import opened MemHotplug
  import opened MemHotplugSafety

  // ---------------------------------------------------------------- online and offline memory

  lemma {:induction false} PluggedSplits(dimms: map<nat, int>, online: set<nat>, n: nat)
    ensures Plugged(dimms, n) == Online(dimms, online, n) + Offline(dimms, online, n)
  {
    if n > 0 { PluggedSplits(dimms, online, n - 1); }
  }

  // Nothing is lost exactly when every DIMM is online.
  lemma {:induction false} OfflineIsNone(dimms: map<nat, int>, online: set<nat>, n: nat)
    requires forall i :: i in dimms ==> dimms[i] > 0
    ensures Offline(dimms, online, n) >= 0
    ensures Offline(dimms, online, n) == 0 <==> forall i :: i in dimms && i < n ==> i in online
  {
    if n > 0 { OfflineIsNone(dimms, online, n - 1); }
  }

  // ---------------------------------------------------------------- when a tick shrinks

  // A reading that asks for less memory and leaves the margin.
  predicate Shrinks(cfg: Config, total: int, usage: int)
    requires total > 0
  {
    && UsagePct(usage, total) < cfg.downThreshold
    && ShrinkTarget(cfg, total) < total && ShrinkTarget(cfg, total) - usage >= cfg.Margin()
  }

  // The largest integer below x.
  function Under(x: real): int { if x.Floor as real == x then x.Floor - 1 else x.Floor }

  // The highest usage at which a tick shrinks.
  function Most(cfg: Config, total: int): int {
    Min(ShrinkTarget(cfg, total) - cfg.Margin(), Under(cfg.downThreshold * total as real / 100.0))
  }

  lemma UnderIs(x: real, u: int)
    ensures u <= Under(x) <==> u as real < x
  {
  }

  lemma PctBelow(usage: int, total: int, t: real)
    requires total > 0
    ensures UsagePct(usage, total) < t <==> usage as real < t * total as real / 100.0
  {
    var u, m := usage as real, total as real;
    var q := u / m;
    assert q * m == u;
    assert q * 100.0 < t ==> q * 100.0 * m < t * m;
    assert q * 100.0 >= t ==> q * 100.0 * m >= t * m;
    assert q * 100.0 * m == u * 100.0;
  }

  lemma MostIs(cfg: Config, total: int, usage: int)
    requires total > 0 && ShrinkTarget(cfg, total) < total
    ensures Shrinks(cfg, total, usage) <==> usage <= Most(cfg, total)
  {
    PctBelow(usage, total, cfg.downThreshold);
    UnderIs(cfg.downThreshold * total as real / 100.0, usage);
  }

  lemma DecideShrinks(cfg: Config, c: Ctl, usage: int, now: int)
    requires Validated(cfg) && c.currentMemory > 0
    ensures Decide(cfg, c, usage, now).1 < c.currentMemory ==>
              Shrinks(cfg, c.currentMemory, usage) && Decide(cfg, c, usage, now).1 == ShrinkTarget(cfg, c.currentMemory)
    ensures
      && Shrinks(cfg, c.currentMemory, usage) && c.low + 1 >= cfg.limits.downStability
      && CooledDown(c.lastScaleDown, now, cfg.limits.downCooldown) ==>
        Decide(cfg, c, usage, now).1 < c.currentMemory
  {
    ExactUsage(c.currentMemory, usage);
  }

  // What is left when the DIMM that was added last is gone.
  function Rest(s: Sys): Vm
    requires s.ctl.usedSlots != {}
  {
    var slot: nat := |s.ctl.usedSlots| - 1;
    s.vm.(dimms := s.vm.dimms - {slot}, online := s.vm.online - {slot})
  }

  // The tick e ends in a scale-down.
  ghost predicate Unplugs(cfg: Config, s: Sys, e: Env)
    requires Total(s.vm, cfg.maxSlots) > 0
  {
    var op := Tick(cfg, s.ctl, s.vm, e).op;
    Timely(s, e) && e.usage.Some? && e.usage.value >= 0 && op.Some? && op.value.Down?
  }

  // Counters and settings let a tick shrink.
  predicate Ready(cfg: Config, s: Sys) {
    && cfg.enableScaleDown && s.ctl.sampled && s.ctl.usedSlots != {}
    && s.ctl.low + 1 >= cfg.limits.downStability
  }

  lemma ScaleDownLeaves(cfg: Config, s: Sys, c: Ctl, target: int, e: Env)
    requires Safe(cfg, s) && c.usedSlots == s.ctl.usedSlots
    ensures var o := ScaleDown(cfg, c, s.vm, target, e);
            && (o.op.Some? ==>
                  && c.usedSlots != {} && target < c.currentMemory
                  && o.vm.base == s.vm.base && o.vm.dimms == Rest(s).dimms && o.vm.online == Rest(s).online)
            && (c.usedSlots != {} && target < c.currentMemory && e.offlineOk && e.deviceDelOk ==>
                  o.op.Some? && o.op.value.Down?)
  {
    SlotsFit(s.ctl.usedSlots, s.vm, cfg.maxSlots);
    ScaleDownCases(cfg, c, s.vm, target, e);
  }

  // Every scale-down follows a reading that asks for it, and takes the last DIMM away.
  lemma UnplugMeans(cfg: Config, s: Sys, e: Env)
    requires Validated(cfg) && Safe(cfg, s) && Unplugs(cfg, s, e)
    ensures s.ctl.usedSlots != {} && Shrinks(cfg, Total(s.vm, cfg.maxSlots), e.usage.value)
    ensures var w := Step(cfg, s, e).vm;
            w.base == s.vm.base && w.dimms == Rest(s).dimms && w.online == Rest(s).online
  {
    var total := Total(s.vm, cfg.maxSlots);
    var c2 := s.ctl.(currentMemory := total, sampled := true, lastUsage := e.usage.value);
    DecideMeans(cfg, c2, e.usage.value, e.now);
    DecideShrinks(cfg, c2, e.usage.value, e.now);
    var (c3, target, _) := Decide(cfg, c2, e.usage.value, e.now);
    ScaleDownLeaves(cfg, s, c3, target, e);
  }

  // With the counters ready every such reading leads to a scale-down, if nothing fails.
  lemma UnplugHappens(cfg: Config, s: Sys, usage: int) returns (e: Env)
    requires Validated(cfg) && Safe(cfg, s) && Ready(cfg, s)
    requires usage >= 0 && Shrinks(cfg, Total(s.vm, cfg.maxSlots), usage)
    ensures Unplugs(cfg, s, e) && e.usage == Some(usage)
  {
    var now := s.clock;
    if s.ctl.lastScaleDown.Some? { now := Max(now, s.ctl.lastScaleDown.value + cfg.limits.downCooldown); }
    e := Env(now, now, true, Some(usage), true, true, true, true, true, true, true, true);
    var total := Total(s.vm, cfg.maxSlots);
    var c2 := s.ctl.(currentMemory := total, sampled := true, lastUsage := usage);
    DecideMeans(cfg, c2, usage, now);
    DecideShrinks(cfg, c2, usage, now);
    var (c3, target, _) := Decide(cfg, c2, usage, now);
    ScaleDownLeaves(cfg, s, c3, target, e);
  }

  // ---------------------------------------------------------------- the margin

  // Whatever DIMM a scale-down really removes, the OOM margin is free afterwards by QEMU's count, which is
  // short of what the guest can use by just the bytes that are plugged but offline. So the guest has the
  // margin too if every DIMM that is left is online.
  lemma MarginSurvivesUnplug(cfg: Config, s: Sys, e: Env)
    requires Validated(cfg) && AlignedConfig(cfg) && Safe(cfg, s) && Unplugs(cfg, s, e)
    ensures var v, n, usage := Step(cfg, s, e).vm, cfg.maxSlots, e.usage.value;
            && Tick(cfg, s.ctl, s.vm, e).op.value.amount <= Total(s.vm, n) - ShrinkTarget(cfg, Total(s.vm, n))
            && Total(v, n) - usage >= cfg.Margin()
            && Available(v, n) - usage == Total(v, n) - usage - Offline(v.dimms, v.online, n)
            && (v.dimms.Keys == v.online ==> Available(v, n) - usage >= cfg.Margin())
  {
    StepKeepsSafe(cfg, s, e);
    var v := Step(cfg, s, e).vm;
    PluggedSplits(v.dimms, v.online, cfg.maxSlots);
    OfflineIsNone(v.dimms, v.online, cfg.maxSlots);
  }

  // The condition is exact. In every reachable state in which the counters let a tick shrink: the guest keeps
  // the margin, whatever the next reading is, if and only if what is left offline is no more than what a
  // scale-down at the highest usage leaves above the margin.
  lemma MarginIsExact(cfg: Config, s: Sys)
    requires Validated(cfg) && AlignedConfig(cfg) && Safe(cfg, s) && Ready(cfg, s)
    ensures var n, w := cfg.maxSlots, Rest(s);
            var most := Most(cfg, Total(s.vm, n));
            (forall e :: Unplugs(cfg, s, e) ==> Available(Step(cfg, s, e).vm, n) - e.usage.value >= cfg.Margin()) <==>
            most < 0 || Offline(w.dimms, w.online, n) <= Total(w, n) - most - cfg.Margin()
  {
    var n, w := cfg.maxSlots, Rest(s);
    var total := Total(s.vm, n);
    var most := Most(cfg, total);
    PluggedSplits(w.dimms, w.online, n);
    ShrinkIsLess(cfg, s);
    MostIs(cfg, total, most);
    if most < 0 || Offline(w.dimms, w.online, n) <= Total(w, n) - most - cfg.Margin() {
      forall e | Unplugs(cfg, s, e) ensures Available(Step(cfg, s, e).vm, n) - e.usage.value >= cfg.Margin() {
        UnplugMeans(cfg, s, e);
        MostIs(cfg, total, e.usage.value);
      }
    } else {
      var e := UnplugHappens(cfg, s, most);
      UnplugMeans(cfg, s, e);
    }
  }

  // With a DIMM plugged there is something to shrink.
  lemma ShrinkIsLess(cfg: Config, s: Sys)
    requires Validated(cfg) && Safe(cfg, s) && s.ctl.usedSlots != {}
    ensures ShrinkTarget(cfg, Total(s.vm, cfg.maxSlots)) < Total(s.vm, cfg.maxSlots)
  {
    var slot: nat := |s.ctl.usedSlots| - 1;
    assert slot in s.ctl.usedSlots;
    PluggedBounds(s.vm.dimms, cfg.maxSlots);
  }

  // ---------------------------------------------------------------- a run that loses the margin

  // Boot with 512 MiB, grow by 128 MiB, keep 128 MiB free; every reading counts at once.
  const CONFIG := Config(512 * MIB, 1024 * MIB, 128 * MIB, 128, 85.0, 70.0, Limits(1, 1, 0, 0), true, 8)

  const ONE: map<nat, int> := map[0 := 128 * MIB]
  const TWO: map<nat, int> := map[0 := 128 * MIB, 1 := 128 * MIB]

  // A reading of so many MiB; nothing fails, or onlining and unplugging do.
  function Reads(mib: int, works: bool): Env {
    Env(0, 0, true, Some(mib * MIB), true, true, true, works, true, true, works, true)
  }

  // The controller has sampled, may scale at once, uses these slots, and these DIMMs are there.
  predicate Stands(s: Sys, dimms: map<nat, int>, used: set<nat>, online: set<nat>) {
    && s.clock == 0 && s.ctl.usedSlots == used && s.ctl.sampled && s.ctl.high >= 0 && s.ctl.low >= 0
    && CooledDown(s.ctl.lastScaleUp, 0, 0) && CooledDown(s.ctl.lastScaleDown, 0, 0)
    && s.vm == Vm(512 * MIB, dimms, dimms.Keys, online)
  }

  lemma PluggedHere()
    ensures Plugged(map[], 8) == 0 && Plugged(ONE, 8) == 128 * MIB && Plugged(TWO, 8) == 256 * MIB
  {
    PluggedNone(8);
    PluggedAdd(map[], 0, 128 * MIB, 8);
    PluggedAdd(ONE, 1, 128 * MIB, 8);
    assert map[][0 := 128 * MIB] == ONE && ONE[1 := 128 * MIB] == TWO;
  }

  lemma MarginHere()
    ensures CONFIG.Margin() == 128 * MIB
  {
    WrapFits(128 * MIB);
  }

  lemma HighReading(c: Ctl, mib: int, total: int)
    requires (total == 512 && mib == 500) || (total == 640 && mib == 600)
    requires c.currentMemory == total * MIB && c.high >= 0 && CooledDown(c.lastScaleUp, 0, 0)
    ensures Decide(CONFIG, c, mib * MIB, 0) == (c.(high := c.high + 1, low := 0), (total + 128) * MIB, Some(High))
  {
    MarginHere();
    ExactUsage(total * MIB, mib * MIB);
    PctBelow(mib * MIB, total * MIB, 85.0);
  }

  lemma LowReading(c: Ctl)
    requires c.currentMemory == 768 * MIB && c.low >= 0 && CooledDown(c.lastScaleDown, 0, 0)
    ensures Decide(CONFIG, c, 500 * MIB, 0) == (c.(low := c.low + 1, high := 0), 640 * MIB, Some(Low))
  {
    MarginHere();
    ExactUsage(768 * MIB, 500 * MIB);
    PctBelow(500 * MIB, 768 * MIB, 70.0);
  }

  lemma FirstTick()
    ensures Stands(Step(CONFIG, Boot(CONFIG, 0), Reads(500, true)), map[], {}, {})
  {
    PluggedHere();
  }

  // Usage is high: slot 0 is plugged and onlined.
  lemma SecondTick(s: Sys)
    requires Stands(s, map[], {}, {})
    ensures Total(s.vm, 8) > 0 && Stands(Step(CONFIG, s, Reads(500, true)), ONE, {0}, {0})
  {
    PluggedHere();
    PrefixSlots(0, 8);
    assert Below(0) == {};
    var c := s.ctl.(currentMemory := 512 * MIB, sampled := true, lastUsage := 500 * MIB);
    HighReading(c, 500, 512);
    assert Request(CONFIG, c.(high := c.high + 1, low := 0), 640 * MIB) == Some((0, 128 * MIB));
    assert map[][0 := 128 * MIB] == ONE;
  }

  // The DIMM stays when it can neither be onlined nor unplugged.
  lemma SlotOneLeaks(c: Ctl, v: Vm)
    requires c.usedSlots == {0} && c.currentMemory == 640 * MIB && v == Vm(512 * MIB, ONE, {0}, {0})
    ensures ScaleUp(CONFIG, c, v, 768 * MIB, Reads(600, false)) ==
            Outcome(c, Vm(512 * MIB, TWO, {0, 1}, {0}), None, Some(Leak(1, 128 * MIB)))
  {
    PrefixSlots(1, 8);
    assert Below(1) == {0};
    assert Request(CONFIG, c, 768 * MIB) == Some((1, 128 * MIB));
    var e, w := Reads(600, false), Vm(512 * MIB, TWO, {0, 1}, {0});
    assert ONE[1 := 128 * MIB] == TWO && {0} + {1} == {0, 1 as nat} && {0} - {1} == {0 as nat};
    assert HotplugMemory(v, 1, 128 * MIB, e) == (w, true);
    assert UnplugMemory(w, 1, e) == (w, false);
  }

  // It is higher still: slot 1 is plugged, but it can neither be onlined nor unplugged.
  lemma ThirdTick(s: Sys)
    requires Stands(s, ONE, {0}, {0})
    ensures Total(s.vm, 8) > 0 && Stands(Step(CONFIG, s, Reads(600, false)), TWO, {0}, {0})
  {
    PluggedHere();
    var c := s.ctl.(currentMemory := 640 * MIB, sampled := true, lastUsage := 600 * MIB);
    HighReading(c, 600, 640);
    SlotOneLeaks(c.(high := c.high + 1, low := 0), s.vm);
    assert TWO.Keys == {0, 1};
  }

  // It falls: slot 0, which is online, is unplugged, and slot 1, which is not, stays.
  lemma FourthTick(s: Sys)
    requires Stands(s, TWO, {0}, {0})
    ensures Total(s.vm, 8) > 0 && Unplugs(CONFIG, s, Reads(500, true))
    ensures var v := Step(CONFIG, s, Reads(500, true)).vm;
            Total(v, 8) == 640 * MIB && Available(v, 8) == 512 * MIB
  {
    PluggedHere();
    PrefixSlots(1, 8);
    assert Below(1) == {0};
    var c := s.ctl.(currentMemory := 768 * MIB, sampled := true, lastUsage := 500 * MIB);
    LowReading(c);
    var v := Step(CONFIG, s, Reads(500, true)).vm;
    assert v.dimms == TWO - {0} && v.online == {};
    PluggedRemove(TWO, 0, 8);
    NoneOnline(v.dimms, 8);
  }

  lemma {:induction false} NoneOnline(dimms: map<nat, int>, n: nat)
    ensures Online(dimms, {}, n) == 0
  {
    if n > 0 { NoneOnline(dimms, n - 1); }
  }

  lemma ExtendRun(cfg: Config, run: seq<Sys>, envs: seq<Env>, e: Env)
    requires IsRun(cfg, run, envs) && Timely(run[|envs|], e) && Total(run[|envs|].vm, cfg.maxSlots) > 0
    ensures IsRun(cfg, run + [Step(cfg, run[|envs|], e)], envs + [e])
  {
  }

  lemma TwoTicks() returns (run: seq<Sys>, envs: seq<Env>)
    ensures IsRun(CONFIG, run, envs) && |envs| == 2 && run[0] == Boot(CONFIG, 0) && Stands(run[2], ONE, {0}, {0})
  {
    run, envs := [Boot(CONFIG, 0)], [];
    PluggedHere();
    FirstTick();
    ExtendRun(CONFIG, run, envs, Reads(500, true));
    var s := Step(CONFIG, run[0], Reads(500, true));
    run, envs := run + [s], envs + [Reads(500, true)];
    SecondTick(s);
    ExtendRun(CONFIG, run, envs, Reads(500, true));
    run, envs := run + [Step(CONFIG, s, Reads(500, true))], envs + [Reads(500, true)];
  }

  lemma ThreeTicks() returns (run: seq<Sys>, envs: seq<Env>)
    ensures IsRun(CONFIG, run, envs) && |envs| == 3 && run[0] == Boot(CONFIG, 0) && Stands(run[3], TWO, {0}, {0})
  {
    run, envs := TwoTicks();
    var s := run[2];
    ThirdTick(s);
    ExtendRun(CONFIG, run, envs, Reads(600, false));
    run, envs := run + [Step(CONFIG, s, Reads(600, false))], envs + [Reads(600, false)];
  }

  // A run from boot in which a DIMM that the guest could not online counts as free memory: after a scale-down
  // the guest has 12 MiB left of the 128 MiB margin, while QEMU's count leaves 140 MiB.
  lemma LeakEatsMargin() returns (run: seq<Sys>, envs: seq<Env>)
    ensures IsRun(CONFIG, run, envs) && |envs| == 4 && run[0] == Boot(CONFIG, 0)
    ensures Total(run[3].vm, 8) > 0 && Unplugs(CONFIG, run[3], envs[3]) && envs[3].usage == Some(500 * MIB)
    ensures Total(run[4].vm, 8) - 500 * MIB == 140 * MIB && Available(run[4].vm, 8) - 500 * MIB == 12 * MIB
  {
    run, envs := ThreeTicks();
    var s := run[3];
    FourthTick(s);
    ExtendRun(CONFIG, run, envs, Reads(500, true));
    run, envs := run + [Step(CONFIG, s, Reads(500, true))], envs + [Reads(500, true)];
  }
}
