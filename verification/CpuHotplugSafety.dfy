// Whole-run properties of the CPU hotplug controller.
module CpuHotplugSafety {
  import opened Base
  import opened Hysteresis
  import opened CpuHotplug

  // ---------------------------------------------------------------- plugging one CPU

  ghost predicate Fits(cfg: Config, cpus: set<nat>) {
    && 0 in cpus
    && (forall i :: i in cpus ==> i < cfg.maxCPUs)
    && cfg.bootCPUs <= |cpus| <= cfg.maxCPUs
  }

  // Fewer than max ids below max leave one free.
  lemma SomeIdIsFree(cpus: set<nat>, max: nat)
    requires |cpus| < max
    ensures exists i: nat :: i < max && i !in cpus
  {
    if forall i: nat :: i < max ==> i in cpus {
      var all := Below(max);
      assert all <= cpus;
      SubsetSize(all, cpus);
    }
  }

  lemma {:induction false} SubsetSize(a: set<nat>, b: set<nat>)
    requires a <= b
    ensures |a| <= |b|
  {
    if a != {} {
      var x :| x in a;
      SubsetSize(a - {x}, b - {x});
    }
  }

  // A request for one CPU plugs the lowest free id, unless that plug fails.
  lemma {:induction false} PlugsLowestFree(cpus: set<nat>, next: nat, max: nat, fails: set<nat>) returns (free: nat)
    requires next <= max
    requires forall i: nat :: i < next ==> i in cpus
    requires exists i: nat :: i < max && i !in cpus
    ensures free < max && free !in cpus && forall i: nat :: i < free ==> i in cpus
    ensures Plug(cpus, next, max, 1, fails) ==
            if free in fails then (cpus, [], false) else (cpus + {free}, [free], true)
    decreases max - next
  {
    var i: nat :| i < max && i !in cpus;
    assert next <= i;
    if next in cpus {
      free := PlugsLowestFree(cpus, next + 1, max, fails);
    } else {
      free := next;
      assert [next] + [] == [next];
      assert Plug(cpus + {next}, next + 1, max, 0, fails) == (cpus + {next}, [], true);
    }
  }

  // ---------------------------------------------------------------- unplugging one CPU

  // A request to remove one CPU removes the first candidate whose unplug works, or none.
  lemma {:induction false} UnplugsFirst(cpus: set<nat>, ids: seq<nat>, fails: set<nat>)
    requires forall x :: x in ids ==> x in cpus
    ensures var (after, removed) := Unplug(cpus, ids, 1, fails);
            || (removed == [] && after == cpus && forall x :: x in ids ==> x in fails)
            || (exists k :: 0 <= k < |ids| && removed == [ids[k]] && after == cpus - {ids[k]} && ids[k] !in fails
                            && forall j :: 0 <= j < k ==> ids[j] in fails)
  {
    if ids != [] {
      if ids[0] in fails {
        UnplugsFirst(cpus, ids[1..], fails);
        var (after, removed) := Unplug(cpus, ids[1..], 1, fails);
        if removed != [] {
          var k :| 0 <= k < |ids[1..]| && removed == [ids[1..][k]] &&
             after == cpus - {ids[1..][k]} && ids[1..][k] !in fails
                   && forall j :: 0 <= j < k ==> ids[1..][j] in fails;
          assert ids[k + 1] == ids[1..][k];
          forall j | 0 <= j < k + 1 ensures ids[j] in fails {
            if j > 0 { assert ids[j] == ids[1..][j - 1]; }
          }
        }
      } else {
        assert Unplug(cpus - {ids[0]}, ids[1..], 0, fails) == (cpus - {ids[0]}, []);
        assert 0 <= 0 < |ids| && ids[0] !in fails;
      }
    }
  }

  lemma {:induction false} NonBootKeeps(order: seq<nat>)
    ensures forall x :: x in NonBoot(order) <==> x in order && x > 0
  {
    if order != [] { NonBootKeeps(order[1..]); }
  }

  lemma {:induction false} ReverseAt<T>(s: seq<T>)
    ensures |Reverse(s)| == |s|
    ensures forall i :: 0 <= i < |s| ==> Reverse(s)[i] == s[|s| - 1 - i]
  {
    if s != [] { ReverseAt(s[1..]); }
  }

  lemma CandidatesAreNonBoot(order: seq<nat>)
    ensures forall x :: x in Candidates(order) <==> x in order && x > 0
  {
    NonBootKeeps(order);
    ReverseAt(NonBoot(order));
    var ids := NonBoot(order);
    forall x | x in ids ensures x in Reverse(ids) {
      var i :| 0 <= i < |ids| && ids[i] == x;
      assert Reverse(ids)[|ids| - 1 - i] == x;
    }
  }

  ghost predicate Ascending(s: seq<nat>) { forall i, j :: 0 <= i < j < |s| ==> s[i] < s[j] }

  ghost predicate Descending(s: seq<nat>) { forall i, j :: 0 <= i < j < |s| ==> s[i] > s[j] }

  lemma {:induction false} NonBootAscends(order: seq<nat>)
    requires Ascending(order)
    ensures Ascending(NonBoot(order))
  {
    if order != [] {
      NonBootAscends(order[1..]);
      NonBootKeeps(order[1..]);
      var rest := NonBoot(order[1..]);
      forall j | 0 <= j < |rest| ensures order[0] < rest[j] { assert rest[j] in order[1..]; }
    }
  }

  // When QEMU lists ids in ascending order, scale-down tries the highest id first.
  lemma HighestIdFirst(order: seq<nat>)
    requires Ascending(order)
    ensures Descending(Candidates(order))
  {
    NonBootAscends(order);
    ReverseAt(NonBoot(order));
  }

  // ---------------------------------------------------------------- one tick

  ghost predicate Inv(cfg: Config, s: Sys) {
    Fits(cfg, s.cpus) && Kept(cfg.limits, s.ctl.Counters(), s.log, s.clock)
  }

  // What a tick may do to the set of CPUs.
  ghost predicate Effect(cfg: Config, cpus: set<nat>, e: Env, dir: int, op: Option<Entry>, after: set<nat>) {
    && (after != cpus ==> op.Some?)
    && (op.Some? && op.value.Up? ==>
          && dir == 1
          && exists free: nat :: free < cfg.maxCPUs && free !in cpus && (forall i: nat :: i < free ==> i in cpus)
                                 && after == cpus + {free} && op.value.ids == [free])
    && (op.Some? && op.value.Down? ==>
          && dir == -1
          && (after == cpus
              || exists id: nat :: id in cpus && id != 0 && after == cpus - {id} && op.value.ids == [id]))
    && (op.Some? ==> op.value.Up? || op.value.Down?)
  }

  lemma DirectionMeans(cfg: Config, cpus: int, pct: real, throttled: real)
    ensures var dir := Direction(cfg, cpus, pct, throttled);
            && -1 <= dir <= 1
            && (dir == 1 ==> cpus < cfg.maxCPUs && pct >= cfg.upThreshold)
            && (dir == -1 ==>
                  cfg.enableScaleDown && cpus > cfg.bootCPUs && cpus > 1 && Projected(pct, cpus) <= cfg.downThreshold)
  {
  }

  lemma GrowKeeps(cfg: Config, s: Sys, e: Env)
    requires Validated(cfg) && Inv(cfg, s) && Possible(s, e)
    requires s.ctl.currentCPUs == |s.cpus| < cfg.maxCPUs
    requires s.ctl.high >= cfg.limits.upStability && CooledDown(s.ctl.lastScaleUp, e.now, cfg.limits.upCooldown)
    ensures var o := ScaleUp(cfg, s.ctl, s.cpus, s.ctl.currentCPUs + 1, e);
            && Inv(cfg, Sys(o.ctl, o.cpus, Append(s.log, o.op), e.doneAt))
            && Effect(cfg, s.cpus, e, 1, o.op, o.cpus)
  {
    SomeIdIsFree(s.cpus, cfg.maxCPUs);
    var free := PlugsLowestFree(s.cpus, 0, cfg.maxCPUs, e.plugFails);
    var o := ScaleUp(cfg, s.ctl, s.cpus, s.ctl.currentCPUs + 1, e);
    if o.op.None? {
      KeptLater(cfg.limits, s.ctl.Counters(), s.log, s.clock, e.doneAt);
    } else {
      KeptUp(cfg.limits, s.ctl.Counters(), s.log, s.clock, o.op.value);
      assert |s.cpus + {free}| == |s.cpus| + 1;
    }
  }

  lemma ShrinkKeeps(cfg: Config, s: Sys, e: Env)
    requires Validated(cfg) && Inv(cfg, s) && Possible(s, e)
    requires s.ctl.currentCPUs == |s.cpus| > cfg.bootCPUs
    requires s.ctl.low >= cfg.limits.downStability && CooledDown(s.ctl.lastScaleDown, e.now, cfg.limits.downCooldown)
    ensures var o := ScaleDown(cfg, s.ctl, s.cpus, s.ctl.currentCPUs - 1, e);
            && Inv(cfg, Sys(o.ctl, o.cpus, Append(s.log, o.op), e.doneAt))
            && Effect(cfg, s.cpus, e, -1, o.op, o.cpus)
  {
    CandidatesAreNonBoot(e.order);
    UnplugsFirst(s.cpus, Candidates(e.order), e.unplugFails);
    var o := ScaleDown(cfg, s.ctl, s.cpus, s.ctl.currentCPUs - 1, e);
    if o.op.None? {
      KeptLater(cfg.limits, s.ctl.Counters(), s.log, s.clock, e.doneAt);
    } else {
      KeptDown(cfg.limits, s.ctl.Counters(), s.log, s.clock, o.op.value);
      if o.op.value.ids != [] {
        var id := o.op.value.ids[0];
        assert id in Candidates(e.order);
        assert |s.cpus - {id}| == |s.cpus| - 1;
      }
    }
  }

  function Counting(c: Ctl, r: Reading): Ctl {
    c.(high := Count(c.Counters(), r).high, low := Count(c.Counters(), r).low)
  }

  // An ignored reading changes nothing; a counted one leads to at most one operation, in its own
  // direction, once the reading is stable.
  lemma DecideCases(cfg: Config, c: Ctl, cpus: set<nat>, dir: int, e: Env)
    requires -1 <= dir <= 1
    ensures var o := Decide(cfg, c, cpus, dir, e);
            && (o.counted.None? ==> o == Outcome(c, cpus, None, None))
            && (o.counted.Some? ==>
                  var c2 := Counting(c, o.counted.value);
                  if o.counted.value == High && c2.high >= cfg.limits.upStability then
                    && dir == 1 && CooledDown(c.lastScaleUp, e.now, cfg.limits.upCooldown)
                    && o == ScaleUp(cfg, c2, cpus, c2.currentCPUs + 1, e).(counted := Some(High))
                  else if o.counted.value == Low && c2.low >= cfg.limits.downStability then
                    && dir == -1 && CooledDown(c.lastScaleDown, e.now, cfg.limits.downCooldown)
                    && o == ScaleDown(cfg, c2, cpus, c2.currentCPUs - 1, e).(counted := Some(Low))
                  else o == Outcome(c2, cpus, o.counted, None))
  {
  }

  lemma CountingKeeps(cfg: Config, s: Sys, r: Reading)
    requires Inv(cfg, s)
    ensures Inv(cfg, Sys(Counting(s.ctl, r), s.cpus, s.log + [Counted(r)], s.clock))
  {
    KeptCounted(cfg.limits, s.ctl.Counters(), s.log, s.clock, r);
    assert Counting(s.ctl, r).Counters() == Count(s.ctl.Counters(), r);
  }

  lemma InvLater(cfg: Config, s: Sys, later: int)
    requires Inv(cfg, s) && s.clock <= later
    ensures Inv(cfg, s.(clock := later))
  {
    KeptLater(cfg.limits, s.ctl.Counters(), s.log, s.clock, later);
  }

  lemma HighKeeps(cfg: Config, s: Sys, e: Env, o: Outcome)
    requires Validated(cfg) && Inv(cfg, s) && Possible(s, e)
    requires s.ctl.currentCPUs == |s.cpus| < cfg.maxCPUs
    requires s.ctl.high >= cfg.limits.upStability && CooledDown(s.ctl.lastScaleUp, e.now, cfg.limits.upCooldown)
    requires o == ScaleUp(cfg, s.ctl, s.cpus, s.ctl.currentCPUs + 1, e).(counted := Some(High))
    ensures Inv(cfg, Sys(o.ctl, o.cpus, Append(s.log, o.op), e.doneAt)) && Effect(cfg, s.cpus, e, 1, o.op, o.cpus)
  {
    GrowKeeps(cfg, s, e);
  }

  lemma LowKeeps(cfg: Config, s: Sys, e: Env, o: Outcome)
    requires Validated(cfg) && Inv(cfg, s) && Possible(s, e)
    requires s.ctl.currentCPUs == |s.cpus| > cfg.bootCPUs
    requires s.ctl.low >= cfg.limits.downStability && CooledDown(s.ctl.lastScaleDown, e.now, cfg.limits.downCooldown)
    requires o == ScaleDown(cfg, s.ctl, s.cpus, s.ctl.currentCPUs - 1, e).(counted := Some(Low))
    ensures Inv(cfg, Sys(o.ctl, o.cpus, Append(s.log, o.op), e.doneAt)) && Effect(cfg, s.cpus, e, -1, o.op, o.cpus)
  {
    ShrinkKeeps(cfg, s, e);
  }

  lemma DecideKeeps(cfg: Config, s: Sys, dir: int, e: Env)
    requires Validated(cfg) && Inv(cfg, s) && Possible(s, e) && s.ctl.currentCPUs == |s.cpus|
    requires -1 <= dir <= 1 && (dir == 1 ==> |s.cpus| < cfg.maxCPUs) && (dir == -1 ==> |s.cpus| > cfg.bootCPUs)
    ensures var o := Decide(cfg, s.ctl, s.cpus, dir, e);
            && Inv(cfg, Sys(o.ctl, o.cpus, Append(Note(s.log, o.counted), o.op), e.doneAt))
            && Effect(cfg, s.cpus, e, dir, o.op, o.cpus)
  {
    DecideCases(cfg, s.ctl, s.cpus, dir, e);
    var o := Decide(cfg, s.ctl, s.cpus, dir, e);
    if o.counted.None? {
      InvLater(cfg, s, e.doneAt);
    } else {
      var r := o.counted.value;
      var s2 := Sys(Counting(s.ctl, r), s.cpus, s.log + [Counted(r)], s.clock);
      CountingKeeps(cfg, s, r);
      if r == High && s2.ctl.high >= cfg.limits.upStability {
        HighKeeps(cfg, s2, e, o);
      } else if r == Low && s2.ctl.low >= cfg.limits.downStability {
        LowKeeps(cfg, s2, e, o);
      } else {
        InvLater(cfg, s2, e.doneAt);
      }
    }
  }

  // Every tick keeps the CPU set within bounds with CPU 0 in it, and the history disciplined.
  lemma TickKeeps(cfg: Config, s: Sys, e: Env)
    requires Validated(cfg) && Inv(cfg, s) && Possible(s, e)
    ensures Inv(cfg, Step(cfg, s, e))
    ensures var o := Tick(cfg, s.ctl, s.cpus, e);
            Effect(cfg, s.cpus, e, Wanted(cfg, s.ctl.(currentCPUs := |s.cpus|), e).1, o.op, o.cpus)
  {
    if e.queryOk {
      var c := s.ctl.(currentCPUs := |s.cpus|);
      var sample := SampleCPU(c, e).1;
      if sample.Some? { DirectionMeans(cfg, |s.cpus|, sample.value.0, sample.value.1); }
      var (d, dir) := Wanted(cfg, c, e);
      assert d.Counters() == s.ctl.Counters();
      DecideKeeps(cfg, Sys(d, s.cpus, s.log, s.clock), dir, e);
      assert Inv(cfg, Step(cfg, s, e));
    } else {
      KeptLater(cfg.limits, s.ctl.Counters(), s.log, s.clock, e.doneAt);
      assert Inv(cfg, Step(cfg, s, e));
    }
  }

  // ---------------------------------------------------------------- runs

  // In every run the vCPU count stays in [boot, max], CPU 0 is never unplugged, every scale-up
  // plugged the lowest free id, and the history obeys the counted hysteresis.
  lemma {:induction false} RunsStaySafe(cfg: Config, run: seq<Sys>, envs: seq<Env>)
    requires Validated(cfg) && IsRun(cfg, run, envs) && Inv(cfg, run[0])
    ensures forall i :: 0 <= i < |run| ==> Inv(cfg, run[i])
    ensures forall i :: 0 <= i < |envs| ==>
              var o := Tick(cfg, run[i].ctl, run[i].cpus, envs[i]);
              Effect(cfg, run[i].cpus, envs[i], Wanted(cfg, run[i].ctl.(currentCPUs := |run[i].cpus|), envs[i]).1,
                     o.op, run[i + 1].cpus)
  {
    var n := 0;
    while n < |envs|
      invariant 0 <= n <= |envs|
      invariant forall i :: 0 <= i <= n ==> Inv(cfg, run[i])
    {
      TickKeeps(cfg, run[n], envs[n]);
      n := n + 1;
    }
    forall i | 0 <= i < |envs|
      ensures var o := Tick(cfg, run[i].ctl, run[i].cpus, envs[i]);
              Effect(cfg, run[i].cpus, envs[i], Wanted(cfg, run[i].ctl.(currentCPUs := |run[i].cpus|), envs[i]).1,
                     o.op, run[i + 1].cpus)
    {
      TickKeeps(cfg, run[i], envs[i]);
      assert run[i + 1] == Step(cfg, run[i], envs[i]);
    }
  }

  lemma BootIsSafe(cfg: Config, clock: int)
    requires Validated(cfg)
    ensures Inv(cfg, Boot(cfg, clock))
  {
  }

  // So it is from boot on, and the history of every state is one of counted hysteresis: each operation was
  // asked for by the configured number of latest readings, and operations of one direction are a cooldown
  // apart.
  lemma RunsAreSafe(cfg: Config, run: seq<Sys>, envs: seq<Env>, clock: int)
    requires Validated(cfg) && IsRun(cfg, run, envs) && run[0] == Boot(cfg, clock)
    ensures forall i :: 0 <= i < |run| ==> Inv(cfg, run[i]) && Counts(run[i].log, cfg.limits)
  {
    BootIsSafe(cfg, clock);
    RunsStaySafe(cfg, run, envs);
    forall i | 0 <= i < |run| ensures Counts(run[i].log, cfg.limits) {
      assert Inv(cfg, run[i]);
      DisciplineCounts(run[i].log, cfg.limits);
    }
  }

  // ---------------------------------------------------------------- no oscillation

  // Every usable sample shows the same load: microseconds of CPU burnt per microsecond.
  ghost predicate ConstantLoad(last: Option<Sample>, e: Env, load: real) {
    e.stats.Some? && last.Some? ==>
      var usec := (e.now - last.value.at) / 1000;
      usec > 0 && e.stats.value.0 >= last.value.usageUsec && e.stats.value.1 >= last.value.throttledUsec ==>
        (e.stats.value.0 - last.value.usageUsec) as real == load * usec as real
  }

  // Percentages of a constant load depend on the CPU count alone.
  lemma LoadPerCpu(cpus: int, deltaUsage: int, deltaThrottled: int, usec: int, load: real)
    requires cpus > 0 && usec > 0 && deltaUsage as real == load * usec as real
    ensures Percentages(cpus, deltaUsage, deltaThrottled, usec).0 * cpus as real == load * 100.0
  {
    var u, n := usec as real, cpus as real;
    assert u * n > 0.0;
    assert load * u / (u * n) * (u * n) == load * u;
    assert (load * u / (u * n) * n - load) * u == 0.0;
    assert load * u / (u * n) * n == load;
  }

  lemma ProjectedLoad(pct: real, cpus: int)
    requires cpus > 1
    ensures Projected(pct, cpus) * (cpus - 1) as real == pct * cpus as real
  {
  }

  // A machine of `cpus` CPUs under this load would not be shrunk / grown.
  predicate Busy(cfg: Config, load: real, cpus: int) { load * 100.0 > cfg.downThreshold * (cpus - 1) as real }

  predicate Idle(cfg: Config, load: real, cpus: int) { load * 100.0 < cfg.upThreshold * cpus as real }

  lemma WantedUnderLoad(cfg: Config, c: Ctl, e: Env, load: real)
    requires Validated(cfg) && ConstantLoad(c.lastSample, e, load) && c.currentCPUs > 0
    ensures Wanted(cfg, c, e).1 == 1 ==> !Idle(cfg, load, c.currentCPUs) && c.currentCPUs < cfg.maxCPUs
    ensures Wanted(cfg, c, e).1 == -1 ==> !Busy(cfg, load, c.currentCPUs) && c.currentCPUs > 1
  {
    var n := c.currentCPUs;
    var sample := SampleCPU(c, e).1;
    if sample.Some? {
      var last := c.lastSample.value;
      var usec := (e.now - last.at) / 1000;
      LoadPerCpu(n, e.stats.value.0 - last.usageUsec, e.stats.value.1 - last.throttledUsec, usec, load);
      var pct := sample.value.0;
      DirectionMeans(cfg, n, pct, sample.value.1);
      assert pct >= cfg.upThreshold ==> pct * n as real >= cfg.upThreshold * n as real;
      if n > 1 {
        ProjectedLoad(pct, n);
        var p := Projected(pct, n);
        assert p <= cfg.downThreshold ==> p * (n - 1) as real <= cfg.downThreshold * (n - 1) as real;
      }
    }
  }

  // Growing needs a busy machine and leaves one too busy to shrink; and the other way round.
  lemma LoadIsOneWay(cfg: Config, load: real, n: int, n': int)
    requires Validated(cfg)
    requires n' == n || (n' == n + 1 && n > 0 && !Idle(cfg, load, n)) || (n' == n - 1 && n > 1 && !Busy(cfg, load, n))
    ensures OneWay(x => Busy(cfg, load, x), x => Idle(cfg, load, x), n, n')
  {
    if n' == n + 1 {
      assert cfg.upThreshold * n as real > cfg.downThreshold * n as real;
    } else if n' == n - 1 {
      assert cfg.upThreshold * (n - 1) as real > cfg.downThreshold * (n - 1) as real;
    }
  }

  lemma TickMovesByOne(cfg: Config, s: Sys, e: Env)
    requires Validated(cfg) && Inv(cfg, s) && Possible(s, e)
    ensures var n, n' := |s.cpus|, |Step(cfg, s, e).cpus|;
            var dir := Wanted(cfg, s.ctl.(currentCPUs := n), e).1;
            n > 0 && (n' == n || (n' == n + 1 && dir == 1) || (n' == n - 1 && dir == -1))
  {
    TickKeeps(cfg, s, e);
    assert |s.cpus| > 0 by { SubsetSize({0}, s.cpus); }
    var o := Tick(cfg, s.ctl, s.cpus, e);
    if o.op.Some? && o.op.value.Up? {
      var free: nat :| free !in s.cpus && o.cpus == s.cpus + {free};
      assert |s.cpus + {free}| == |s.cpus| + 1;
    } else if o.cpus != s.cpus {
      var id: nat :| id in s.cpus && o.cpus == s.cpus - {id};
      assert |s.cpus - {id}| == |s.cpus| - 1;
    }
  }

  lemma StepIsOneWay(cfg: Config, s: Sys, e: Env, load: real)
    requires Validated(cfg) && Inv(cfg, s) && Possible(s, e)
    requires ConstantLoad(s.ctl.lastSample, e, load)
    ensures OneWay(x => Busy(cfg, load, x), x => Idle(cfg, load, x), |s.cpus|, |Step(cfg, s, e).cpus|)
  {
    TickMovesByOne(cfg, s, e);
    WantedUnderLoad(cfg, s.ctl.(currentCPUs := |s.cpus|), e, load);
    LoadIsOneWay(cfg, load, |s.cpus|, |Step(cfg, s, e).cpus|);
  }

  function Sizes(run: seq<Sys>): seq<int> { seq(|run|, k requires 0 <= k < |run| => |run[k].cpus|) }

  lemma RunIsOneWay(cfg: Config, run: seq<Sys>, envs: seq<Env>, load: real)
    requires Validated(cfg) && IsRun(cfg, run, envs) && Inv(cfg, run[0])
    requires forall k :: 0 <= k < |envs| ==> ConstantLoad(run[k].ctl.lastSample, envs[k], load)
    ensures forall k :: 0 <= k < |envs| ==>
              OneWay(x => Busy(cfg, load, x), x => Idle(cfg, load, x), Sizes(run)[k], Sizes(run)[k + 1])
  {
    RunsStaySafe(cfg, run, envs);
    forall k | 0 <= k < |envs|
      ensures OneWay(x => Busy(cfg, load, x), x => Idle(cfg, load, x), Sizes(run)[k], Sizes(run)[k + 1])
    {
      StepIsOneWay(cfg, run[k], envs[k], load);
      assert run[k + 1] == Step(cfg, run[k], envs[k]);
    }
  }

  // With constant absolute load no stretch of a run goes both ways, whatever readings throttling
  // suppresses, and at most max - boot scale steps ever change the CPU count.
  lemma NeverOscillates(cfg: Config, run: seq<Sys>, envs: seq<Env>, load: real, i: nat, j: nat)
    requires Validated(cfg) && IsRun(cfg, run, envs) && Inv(cfg, run[0])
    requires forall k :: 0 <= k < |envs| ==> ConstantLoad(run[k].ctl.lastSample, envs[k], load)
    requires i < |envs| && j < |envs|
    ensures !(|run[i + 1].cpus| > |run[i].cpus| && |run[j + 1].cpus| < |run[j].cpus|)
    ensures Changes(Sizes(run)) <= cfg.maxCPUs - cfg.bootCPUs
  {
    RunsStaySafe(cfg, run, envs);
    RunIsOneWay(cfg, run, envs, load);
    var sizes := Sizes(run);
    OneWayForever(x => Busy(cfg, load, x), x => Idle(cfg, load, x), sizes);
    assert sizes[i] == |run[i].cpus| && sizes[i + 1] == |run[i + 1].cpus|;
    assert sizes[j] == |run[j].cpus| && sizes[j + 1] == |run[j + 1].cpus|;
    ChangesAreBounded(sizes);
    assert Inv(cfg, run[0]) && Inv(cfg, run[|run| - 1]);
  }
}
