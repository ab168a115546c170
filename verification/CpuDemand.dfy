// What the CPU controller does at each tick of a run, from QEMU's answers and the cgroup's counters alone.
module CpuDemand {
  import opened Base
  import opened Hysteresis
  import opened CpuHotplug
  import opened CpuHotplugSafety

  // ---------------------------------------------------------------- what a sample asks for

  // The counters that a tick compares with: those of the latest tick that read them.
  function Baseline(envs: seq<Env>): Option<Sample> {
    if envs == [] then None
    else
      var e := envs[|envs| - 1];
      if e.queryOk && e.stats.Some? then Some(Sample(e.now, e.stats.value.0, e.stats.value.1))
      else Baseline(envs[..|envs| - 1])
  }

  // Elapsed time in microseconds.
  function Usec(base: Sample, e: Env): int { (e.now - base.at) / 1000 }

  predicate Usable(base: Option<Sample>, e: Env) {
    && base.Some? && e.stats.Some? && Usec(base.value, e) > 0
    && e.stats.value.0 >= base.value.usageUsec && e.stats.value.1 >= base.value.throttledUsec
  }

  // Microseconds of CPU used, and of throttling, since the baseline.
  function Used(base: Option<Sample>, e: Env): real
    requires Usable(base, e)
  {
    (e.stats.value.0 - base.value.usageUsec) as real
  }

  function Held(base: Option<Sample>, e: Env): real
    requires Usable(base, e)
  {
    (e.stats.value.1 - base.value.throttledUsec) as real
  }

  // At least so many per cent of the time.
  predicate AtLeast(x: real, percent: real, time: real) { x * 100.0 >= percent * time }

  predicate AtMost(x: real, percent: real, time: real) { x * 100.0 <= percent * time }

  function Elapsed(base: Option<Sample>, e: Env): real
    requires Usable(base, e)
  {
    Usec(base.value, e) as real
  }

  predicate Throttled(cfg: Config, base: Option<Sample>, e: Env)
    requires Usable(base, e)
  {
    AtLeast(Held(base, e), cfg.throttleLimit, Elapsed(base, e))
  }

  predicate AsksUp(cfg: Config, cpus: nat, base: Option<Sample>, e: Env) {
    && Usable(base, e) && !Throttled(cfg, base, e) && cpus < cfg.maxCPUs
    && AtLeast(Used(base, e), cfg.upThreshold, Elapsed(base, e) * cpus as real)
  }

  // One CPU fewer would still be within the lower threshold.
  predicate AsksDown(cfg: Config, cpus: nat, base: Option<Sample>, e: Env) {
    && Usable(base, e) && !Throttled(cfg, base, e) && cfg.enableScaleDown && cpus > cfg.bootCPUs && cpus > 1
    && AtMost(Used(base, e), cfg.downThreshold, Elapsed(base, e) * (cpus - 1) as real)
  }

  function Asks(cfg: Config, cpus: nat, base: Option<Sample>, e: Env): Reading {
    if AsksUp(cfg, cpus, base, e) then High else if AsksDown(cfg, cpus, base, e) then Low else Neutral
  }

  // What percentages mean: shares of the elapsed time of all CPUs, and of one.
  predicate Shares(p: (real, real), cpus: int, used: real, held: real, usec: real) {
    p.0 * (usec * cpus as real) == used * 100.0 && p.1 * usec == held * 100.0
  }

  lemma PercentagesAreShares(cpus: int, used: int, held: int, usec: int)
    requires cpus > 0 && usec > 0
    ensures Shares(Percentages(cpus, used, held, usec), cpus, used as real, held as real, usec as real)
  {
    var u, n := usec as real, cpus as real;
    assert u * n > 0.0;
    assert used as real / (u * n) * (u * n) == used as real;
    assert held as real / u * u == held as real;
  }

  lemma Compared(p: real, d: real, x: real, t: real)
    requires d > 0.0 && p * d == x
    ensures p >= t <==> x >= t * d
    ensures p <= t <==> x <= t * d
  {
    assert (p - t) * d == x - t * d;
  }

  lemma SharesMean(p: (real, real), cpus: int, used: real, held: real, usec: real, limit: real, up: real)
    requires cpus > 0 && usec > 0.0 && Shares(p, cpus, used, held, usec)
    ensures p.1 >= limit <==> AtLeast(held, limit, usec)
    ensures p.0 >= up <==> AtLeast(used, up, usec * cpus as real)
  {
    assert usec * cpus as real > 0.0;
    Compared(p.1, usec, held * 100.0, limit);
    Compared(p.0, usec * cpus as real, used * 100.0, up);
  }

  // Usage of n CPUs, projected onto one fewer.
  lemma ProjectionMeans(p: (real, real), cpus: int, used: real, held: real, usec: real, down: real)
    requires cpus > 1 && usec > 0.0 && Shares(p, cpus, used, held, usec)
    ensures Projected(p.0, cpus) <= down <==> AtMost(used, down, usec * (cpus - 1) as real)
  {
    var q, m := Projected(p.0, cpus), (cpus - 1) as real;
    assert q * m == p.0 * cpus as real;
    assert usec * m > 0.0;
    assert q * (usec * m) == p.0 * (usec * cpus as real) by {
      assert q * (usec * m) == q * m * usec;
      assert p.0 * (usec * cpus as real) == p.0 * cpus as real * usec;
    }
    Compared(q, usec * m, used * 100.0, down);
  }

  function Sign(r: Reading): int { if r == High then 1 else if r == Low then -1 else 0 }

  // A sample is taken exactly when it is usable.
  lemma SampleMeans(c: Ctl, e: Env)
    requires c.currentCPUs > 0
    ensures SampleCPU(c, e).1 ==
            if Usable(c.lastSample, e) then
              var base := c.lastSample.value;
              Some(Percentages(c.currentCPUs, e.stats.value.0 - base.usageUsec, e.stats.value.1 - base.throttledUsec,
                               Usec(base, e)))
            else None
  {
  }

  lemma DirectionBy(cfg: Config, cpus: nat, base: Option<Sample>, e: Env, p: (real, real))
    requires Usable(base, e)
    requires p.1 >= cfg.throttleLimit <==> Throttled(cfg, base, e)
    requires p.0 >= cfg.upThreshold <==> AtLeast(Used(base, e), cfg.upThreshold, Elapsed(base, e) * cpus as real)
    requires cpus > 1 ==>
               (Projected(p.0, cpus) <= cfg.downThreshold <==>
                AtMost(Used(base, e), cfg.downThreshold, Elapsed(base, e) * (cpus - 1) as real))
    ensures Direction(cfg, cpus, p.0, p.1) == Sign(Asks(cfg, cpus, base, e))
  {
  }

  lemma DirectionIsAsked(cfg: Config, cpus: nat, base: Option<Sample>, e: Env, p: (real, real))
    requires cpus > 0 && Usable(base, e) && Shares(p, cpus, Used(base, e), Held(base, e), Elapsed(base, e))
    ensures Direction(cfg, cpus, p.0, p.1) == Sign(Asks(cfg, cpus, base, e))
  {
    SharesMean(p, cpus, Used(base, e), Held(base, e), Elapsed(base, e), cfg.throttleLimit, cfg.upThreshold);
    if cpus > 1 { ProjectionMeans(p, cpus, Used(base, e), Held(base, e), Elapsed(base, e), cfg.downThreshold); }
    DirectionBy(cfg, cpus, base, e, p);
  }

  lemma WantedIsAsked(cfg: Config, c: Ctl, e: Env)
    requires c.currentCPUs > 0
    ensures Wanted(cfg, c, e).1 == Sign(Asks(cfg, c.currentCPUs, c.lastSample, e))
  {
    SampleMeans(c, e);
    if Usable(c.lastSample, e) {
      var base := c.lastSample.value;
      PercentagesAreShares(c.currentCPUs, e.stats.value.0 - base.usageUsec, e.stats.value.1 - base.throttledUsec,
                           Usec(base, e));
      DirectionIsAsked(cfg, c.currentCPUs, c.lastSample, e, SampleCPU(c, e).1.value);
    }
  }

  lemma Scaled(down: real, up: real, x: real, y: real)
    requires 0.0 < down < up && 0.0 < x <= y
    ensures down * x < up * y
  {
    assert up * x - down * x == (up - down) * x > 0.0;
    assert up * y - up * x == up * (y - x) >= 0.0;
  }

  // The thresholds keep the two requests apart.
  lemma NeverBoth(cfg: Config, cpus: nat, base: Option<Sample>, e: Env)
    requires Validated(cfg) && AsksDown(cfg, cpus, base, e)
    ensures !AsksUp(cfg, cpus, base, e)
  {
    var u := Elapsed(base, e);
    assert u * (cpus - 1) as real > 0.0;
    assert u * cpus as real == u * (cpus - 1) as real + u;
    Scaled(cfg.downThreshold, cfg.upThreshold, u * (cpus - 1) as real, u * cpus as real);
  }

  // calculateTargetCPUs answers one more, or one fewer, exactly when the counters ask for it.
  lemma TargetIsExact(cfg: Config, c: Ctl, e: Env)
    requires Validated(cfg) && c.currentCPUs > 0
    ensures var target := c.currentCPUs + Wanted(cfg, c, e).1;
            && (target == c.currentCPUs + 1 <==> AsksUp(cfg, c.currentCPUs, c.lastSample, e))
            && (target == c.currentCPUs - 1 <==> AsksDown(cfg, c.currentCPUs, c.lastSample, e))
            && c.currentCPUs - 1 <= target <= c.currentCPUs + 1
  {
    WantedIsAsked(cfg, c, e);
    if AsksDown(cfg, c.currentCPUs, c.lastSample, e) { NeverBoth(cfg, c.currentCPUs, c.lastSample, e); }
  }

  // ---------------------------------------------------------------- which CPU is unplugged

  // The last listed CPU, other than CPU 0, whose unplug works.
  function LastWorking(order: seq<nat>, fails: set<nat>): Option<nat> {
    if order == [] then None
    else
      var id := order[|order| - 1];
      if id > 0 && id !in fails then Some(id) else LastWorking(order[..|order| - 1], fails)
  }

  lemma {:induction false} NonBootSnoc(order: seq<nat>, id: nat)
    ensures NonBoot(order + [id]) == NonBoot(order) + (if id > 0 then [id] else [])
  {
    if order == [] {
      assert order + [id] == [id] && NonBoot([id][1..]) == [];
    } else {
      var all := order + [id];
      assert all[0] == order[0] && all[1..] == order[1..] + [id];
      NonBootSnoc(order[1..], id);
      var first, rest := if order[0] > 0 then [order[0]] else [], NonBoot(order[1..]);
      var last := if id > 0 then [id] else [];
      assert first + (rest + last) == first + rest + last;
    }
  }

  lemma {:induction false} ReverseSnoc<T>(s: seq<T>, x: T)
    ensures Reverse(s + [x]) == [x] + Reverse(s)
  {
    if s == [] {
      assert s + [x] == [x] && Reverse([x][1..]) == [];
    } else {
      assert (s + [x])[1..] == s[1..] + [x];
      ReverseSnoc(s[1..], x);
    }
  }

  lemma CandidatesSnoc(order: seq<nat>, id: nat)
    ensures Candidates(order + [id]) == (if id > 0 then [id] else []) + Candidates(order)
  {
    NonBootSnoc(order, id);
    if id > 0 {
      ReverseSnoc(NonBoot(order), id);
    } else {
      assert NonBoot(order) + [] == NonBoot(order);
    }
  }

  lemma {:induction false} UnplugsLast(cpus: set<nat>, order: seq<nat>, fails: set<nat>)
    ensures Unplug(cpus, Candidates(order), 1, fails) ==
            match LastWorking(order, fails)
            case None => (cpus, [])
            case Some(id) => (cpus - {id}, [id])
  {
    if order != [] {
      var front, id := order[..|order| - 1], order[|order| - 1];
      assert order == front + [id];
      CandidatesSnoc(front, id);
      UnplugsLast(cpus, front, fails);
      if id > 0 {
        var ids := Candidates(order);
        assert ids[0] == id && ids[1..] == Candidates(front);
        assert Unplug(cpus - {id}, ids[1..], 0, fails) == (cpus - {id}, []);
        assert [id] + [] == [id];
      } else {
        assert Candidates(order) == Candidates(front);
      }
    }
  }

  // ---------------------------------------------------------------- one tick

  ghost predicate LowestFree(cpus: set<nat>, max: nat, free: nat) {
    free < max && free !in cpus && forall i: nat :: i < free ==> i in cpus
  }

  // Growing plugs the lowest free id, or nothing when that fails.
  ghost predicate Grows(cfg: Config, cpus: set<nat>, log: Log, e: Env, cpus': set<nat>, log': Log) {
    exists free :: LowestFree(cpus, cfg.maxCPUs, free) &&
                   (if free in e.plugFails then cpus' == cpus && log' == log
                    else cpus' == cpus + {free} && log' == log + [Up([free], 1, e.doneAt)])
  }

  ghost predicate Shrinks(cpus: set<nat>, log: Log, e: Env, cpus': set<nat>, log': Log) {
    match LastWorking(e.order, e.unplugFails)
    case None => cpus' == cpus && log' == log + [Down([], 0, e.doneAt)]
    case Some(id) => id in cpus && cpus' == cpus - {id} && log' == log + [Down([id], 1, e.doneAt)]
  }

  // What a tick makes of the CPUs and the history, given the sample it compares with.
  ghost predicate Follows(cfg: Config, cpus: set<nat>, log: Log, base: Option<Sample>, e: Env,
                          cpus': set<nat>, log': Log) {
    var asked := Asks(cfg, |cpus|, base, e);
    if !e.queryOk || Ignored(cfg.limits, log, asked, e.now) then cpus' == cpus && log' == log
    else
      var noted := log + [Counted(asked)];
      if asked == High && Streak(noted, High) >= cfg.limits.upStability && e.queryAgainOk then
        Grows(cfg, cpus, noted, e, cpus', log')
      else if asked == Low && Streak(noted, Low) >= cfg.limits.downStability && e.queryAgainOk then
        Shrinks(cpus, noted, e, cpus', log')
      else cpus' == cpus && log' == noted
  }

  lemma UpFollows(cfg: Config, c: Ctl, cpus: set<nat>, log: Log, e: Env)
    requires c.currentCPUs == |cpus| < cfg.maxCPUs
    ensures var o := ScaleUp(cfg, c, cpus, c.currentCPUs + 1, e);
            if e.queryAgainOk then Grows(cfg, cpus, log, e, o.cpus, Append(log, o.op))
            else o.cpus == cpus && o.op.None?
  {
    SomeIdIsFree(cpus, cfg.maxCPUs);
    var free := PlugsLowestFree(cpus, 0, cfg.maxCPUs, e.plugFails);
    assert LowestFree(cpus, cfg.maxCPUs, free);
  }

  lemma DownFollows(cfg: Config, c: Ctl, cpus: set<nat>, log: Log, e: Env)
    requires Lists(e.order, cpus)
    ensures var o := ScaleDown(cfg, c, cpus, c.currentCPUs - 1, e);
            if e.queryAgainOk then Shrinks(cpus, log, e, o.cpus, Append(log, o.op))
            else o.cpus == cpus && o.op.None?
  {
    UnplugsLast(cpus, e.order, e.unplugFails);
    WorkingIsListed(e.order, e.unplugFails);
  }

  lemma {:induction false} WorkingIsListed(order: seq<nat>, fails: set<nat>)
    ensures var id := LastWorking(order, fails);
            id.Some? ==> id.value in order && id.value > 0 && id.value !in fails
  {
    if order != [] { WorkingIsListed(order[..|order| - 1], fails); }
  }

  // The controller's counters are those of the history.
  lemma CountingMeans(cfg: Config, c: Ctl, log: Log, clock: int, r: Reading)
    requires Kept(cfg.limits, c.Counters(), log, clock)
    ensures Counting(c, r).high == Streak(log + [Counted(r)], High)
    ensures Counting(c, r).low == Streak(log + [Counted(r)], Low)
    ensures c.lastScaleUp == LastUp(log) && c.lastScaleDown == LastDown(log)
  {
    KeptCounted(cfg.limits, c.Counters(), log, clock, r);
  }

  // Which readings are counted.
  lemma DecideCounts(cfg: Config, c: Ctl, cpus: set<nat>, asked: Reading, e: Env, log: Log)
    requires c.lastScaleUp == LastUp(log) && c.lastScaleDown == LastDown(log) && (asked == Low ==> cfg.enableScaleDown)
    ensures Decide(cfg, c, cpus, Sign(asked), e).counted ==
            if Ignored(cfg.limits, log, asked, e.now) then None else Some(asked)
  {
  }

  lemma DecideFollows(cfg: Config, s: Sys, base: Option<Sample>, e: Env)
    requires Inv(cfg, s) && Possible(s, e) && s.ctl.currentCPUs == |s.cpus| && e.queryOk
    ensures var o := Decide(cfg, s.ctl, s.cpus, Sign(Asks(cfg, |s.cpus|, base, e)), e);
            Follows(cfg, s.cpus, s.log, base, e, o.cpus, Append(Note(s.log, o.counted), o.op))
  {
    var asked := Asks(cfg, |s.cpus|, base, e);
    var o := Decide(cfg, s.ctl, s.cpus, Sign(asked), e);
    CountingMeans(cfg, s.ctl, s.log, s.clock, asked);
    DecideCounts(cfg, s.ctl, s.cpus, asked, e, s.log);
    DecideCases(cfg, s.ctl, s.cpus, Sign(asked), e);
    if o.counted.Some? {
      var c2, noted := Counting(s.ctl, asked), s.log + [Counted(asked)];
      if asked == High && c2.high >= cfg.limits.upStability {
        UpFollows(cfg, c2, s.cpus, noted, e);
      } else if asked == Low && c2.low >= cfg.limits.downStability {
        DownFollows(cfg, c2, s.cpus, noted, e);
      }
    }
  }

  function NextBaseline(base: Option<Sample>, e: Env): Option<Sample> {
    if e.queryOk && e.stats.Some? then Some(Sample(e.now, e.stats.value.0, e.stats.value.1)) else base
  }

  lemma DecideKeepsSample(cfg: Config, c: Ctl, cpus: set<nat>, dir: int, e: Env)
    ensures Decide(cfg, c, cpus, dir, e).ctl.lastSample == c.lastSample
  {
  }

  lemma TickFollows(cfg: Config, s: Sys, e: Env)
    requires Validated(cfg) && Inv(cfg, s) && Possible(s, e)
    ensures var s' := Step(cfg, s, e);
            && Follows(cfg, s.cpus, s.log, s.ctl.lastSample, e, s'.cpus, s'.log)
            && s'.ctl.lastSample == NextBaseline(s.ctl.lastSample, e)
  {
    if e.queryOk {
      var c := s.ctl.(currentCPUs := |s.cpus|);
      var (d, dir) := Wanted(cfg, c, e);
      WantedIsAsked(cfg, c, e);
      assert d.lastSample == NextBaseline(s.ctl.lastSample, e);
      assert d == c.(lastSample := d.lastSample) && d.Counters() == s.ctl.Counters();
      DecideFollows(cfg, Sys(d, s.cpus, s.log, s.clock), s.ctl.lastSample, e);
      DecideKeepsSample(cfg, d, s.cpus, dir, e);
    }
  }

  // ---------------------------------------------------------------- runs

  ghost predicate BootRun(cfg: Config, run: seq<Sys>, envs: seq<Env>, clock: int) {
    Validated(cfg) && IsRun(cfg, run, envs) && run[0] == Boot(cfg, clock)
  }

  lemma TickOfRun(cfg: Config, run: seq<Sys>, envs: seq<Env>, clock: int, i: nat)
    requires BootRun(cfg, run, envs, clock) && i < |envs|
    ensures Inv(cfg, run[i]) && Possible(run[i], envs[i]) && run[i + 1] == Step(cfg, run[i], envs[i])
  {
    RunsAreSafe(cfg, run, envs, clock);
  }

  lemma {:induction false} BaselineIsKept(cfg: Config, run: seq<Sys>, envs: seq<Env>, clock: int, i: nat)
    requires BootRun(cfg, run, envs, clock) && i <= |envs|
    ensures run[i].ctl.lastSample == Baseline(envs[..i])
    decreases i
  {
    if i > 0 {
      BaselineIsKept(cfg, run, envs, clock, i - 1);
      TickOfRun(cfg, run, envs, clock, i - 1);
      TickFollows(cfg, run[i - 1], envs[i - 1]);
      assert envs[..i][..i - 1] == envs[..i - 1];
    }
  }

  // In every run from boot, every tick does exactly what the counters of the environment ask for.
  lemma RunsFollow(cfg: Config, run: seq<Sys>, envs: seq<Env>, clock: int, i: nat)
    requires BootRun(cfg, run, envs, clock) && i < |envs|
    ensures Follows(cfg, run[i].cpus, run[i].log, Baseline(envs[..i]), envs[i], run[i + 1].cpus, run[i + 1].log)
  {
    TickOfRun(cfg, run, envs, clock, i);
    BaselineIsKept(cfg, run, envs, clock, i);
    TickFollows(cfg, run[i], envs[i]);
  }

  // What a tick counts, if anything: what its sample asks for, unless that is inside a cooldown.
  function CountedNow(cfg: Config, cpus: nat, log: Log, base: Option<Sample>, e: Env): seq<Reading> {
    var asked := Asks(cfg, cpus, base, e);
    if !e.queryOk || Ignored(cfg.limits, log, asked, e.now) then [] else [asked]
  }

  // The readings counted in the first k ticks.
  function Asked(cfg: Config, run: seq<Sys>, envs: seq<Env>, k: nat): seq<Reading>
    requires k <= |envs| < |run|
  {
    if k == 0 then []
    else
      Asked(cfg, run, envs, k - 1)
      + CountedNow(cfg, |run[k - 1].cpus|, run[k - 1].log, Baseline(envs[..k - 1]), envs[k - 1])
  }

  lemma FollowsReads(cfg: Config, cpus: set<nat>, log: Log, base: Option<Sample>, e: Env, cpus': set<nat>, log': Log)
    requires Follows(cfg, cpus, log, base, e, cpus', log')
    ensures Readings(log') == Readings(log) + CountedNow(cfg, |cpus|, log, base, e)
  {
    var asked := Asks(cfg, |cpus|, base, e);
    if e.queryOk && !Ignored(cfg.limits, log, asked, e.now) {
      var noted := log + [Counted(asked)];
      ReadingsSnoc(log, Counted(asked));
      if log' != noted {
        var last := log'[|log'| - 1];
        assert log' == noted + [last] && !last.Counted?;
        ReadingsSnoc(noted, last);
      }
    }
  }

  // The readings of the history are exactly those of the environment.
  lemma {:induction false} ReadingsAreAsked(cfg: Config, run: seq<Sys>, envs: seq<Env>, clock: int, k: nat)
    requires BootRun(cfg, run, envs, clock) && k <= |envs|
    ensures Readings(run[k].log) == Asked(cfg, run, envs, k)
    decreases k
  {
    if k > 0 {
      ReadingsAreAsked(cfg, run, envs, clock, k - 1);
      RunsFollow(cfg, run, envs, clock, k - 1);
      FollowsReads(cfg, run[k - 1].cpus, run[k - 1].log, Baseline(envs[..k - 1]), envs[k - 1], run[k].cpus, run[k].log);
    }
  }

  lemma ChangeIsEarned(cfg: Config, cpus: set<nat>, log: Log, base: Option<Sample>, e: Env, cpus': set<nat>, log': Log)
    requires Follows(cfg, cpus, log, base, e, cpus', log')
    ensures |cpus'| > |cpus| ==> EndsWith(Readings(log'), High, cfg.limits.upStability)
    ensures |cpus'| < |cpus| ==> EndsWith(Readings(log'), Low, cfg.limits.downStability)
  {
    FollowsReads(cfg, cpus, log, base, e, cpus', log');
    var asked := Asks(cfg, |cpus|, base, e);
    if cpus' != cpus {
      var noted := log + [Counted(asked)];
      ReadingsSnoc(log, Counted(asked));
      StreakMeansLatestReadings(noted, asked);
      assert asked == High ==> |cpus'| == |cpus| + 1;
      assert asked == Low ==> |cpus'| == |cpus| - 1;
    }
  }

  // Counted hysteresis over the environment: a CPU is added, or removed, only when the latest samples that
  // count asked for it as often as configured.
  lemma ChangesAreAsked(cfg: Config, run: seq<Sys>, envs: seq<Env>, clock: int, i: nat)
    requires BootRun(cfg, run, envs, clock) && i < |envs|
    ensures |run[i + 1].cpus| > |run[i].cpus| ==>
              EndsWith(Asked(cfg, run, envs, i + 1), High, cfg.limits.upStability)
    ensures |run[i + 1].cpus| < |run[i].cpus| ==>
              EndsWith(Asked(cfg, run, envs, i + 1), Low, cfg.limits.downStability)
  {
    RunsFollow(cfg, run, envs, clock, i);
    ReadingsAreAsked(cfg, run, envs, clock, i + 1);
    ChangeIsEarned(cfg, run[i].cpus, run[i].log, Baseline(envs[..i]), envs[i], run[i + 1].cpus, run[i + 1].log);
  }

  // A sample that asks for growth adds a CPU once the counter and the cooldown allow it.
  lemma GrowthHappens(cfg: Config, run: seq<Sys>, envs: seq<Env>, clock: int, i: nat) returns (free: nat)
    requires BootRun(cfg, run, envs, clock) && i < |envs|
    requires envs[i].queryOk && envs[i].queryAgainOk && envs[i].plugFails == {}
    requires AsksUp(cfg, |run[i].cpus|, Baseline(envs[..i]), envs[i])
    requires CooledDown(LastUp(run[i].log), envs[i].now, cfg.limits.upCooldown)
    requires Streak(run[i].log, High) + 1 >= cfg.limits.upStability
    ensures LowestFree(run[i].cpus, cfg.maxCPUs, free) && run[i + 1].cpus == run[i].cpus + {free}
  {
    RunsFollow(cfg, run, envs, clock, i);
    StreakSnoc(run[i].log, High);
    free :| LowestFree(run[i].cpus, cfg.maxCPUs, free) && run[i + 1].cpus == run[i].cpus + {free};
  }

  // So does one that asks for less: the last listed CPU that can be unplugged goes.
  lemma ShrinkingHappens(cfg: Config, run: seq<Sys>, envs: seq<Env>, clock: int, i: nat)
    requires BootRun(cfg, run, envs, clock) && i < |envs|
    requires envs[i].queryOk && envs[i].queryAgainOk
    requires AsksDown(cfg, |run[i].cpus|, Baseline(envs[..i]), envs[i])
    requires CooledDown(LastDown(run[i].log), envs[i].now, cfg.limits.downCooldown)
    requires Streak(run[i].log, Low) + 1 >= cfg.limits.downStability
    ensures run[i + 1].cpus ==
            match LastWorking(envs[i].order, envs[i].unplugFails)
            case None => run[i].cpus
            case Some(id) => run[i].cpus - {id}
  {
    RunsFollow(cfg, run, envs, clock, i);
    NeverBoth(cfg, |run[i].cpus|, Baseline(envs[..i]), envs[i]);
    StreakSnoc(run[i].log, Low);
  }

  // A container throttled at its limit never changes its VM.
  lemma ThrottledStays(cfg: Config, run: seq<Sys>, envs: seq<Env>, clock: int, i: nat)
    requires BootRun(cfg, run, envs, clock) && i < |envs|
    requires Usable(Baseline(envs[..i]), envs[i]) && Throttled(cfg, Baseline(envs[..i]), envs[i])
    ensures run[i + 1].cpus == run[i].cpus
    ensures envs[i].queryOk ==> run[i + 1].log == run[i].log + [Counted(Neutral)]
  {
    RunsFollow(cfg, run, envs, clock, i);
  }
}
