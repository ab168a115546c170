// The CPU hotplug controller, run against a QEMU that holds a set of vCPU ids.
// Usage percentages are exact reals; times are nanoseconds.
module CpuHotplug {
  import opened Base
  import opened Hysteresis

  datatype Config = Config(
    bootCPUs: nat,
    maxCPUs: nat,
    upThreshold: real,
    downThreshold: real,
    throttleLimit: real,
    limits: Limits,
    enableScaleDown: bool)

  // A configuration that passed validation and reached a real (not the no-op) controller.
  predicate Validated(cfg: Config) {
    && 0 < cfg.bootCPUs < cfg.maxCPUs
    && 0.0 < cfg.downThreshold < cfg.upThreshold <= 100.0
    && 0.0 <= cfg.throttleLimit <= 100.0
    && 0 < cfg.limits.upStability && 0 < cfg.limits.downStability
  }

  datatype Sample = Sample(at: int, usageUsec: nat, throttledUsec: nat)

  // Answers of the outside world to the commands of one tick.
  datatype Env = Env(
    now: int,
    doneAt: int,
    queryOk: bool,
    queryAgainOk: bool,          // the second query, made by a scaling operation
    order: seq<nat>,             // the ids in the order QEMU lists them
    stats: Option<(nat, nat)>,   // cumulative usage and throttling, or a failed stats call
    plugFails: set<nat>,
    unplugFails: set<nat>)

  datatype Ctl = Ctl(
    currentCPUs: int,
    lastScaleUp: Option<int>,
    lastScaleDown: Option<int>,
    high: int,
    low: int,
    lastSample: Option<Sample>)
  {
    function Counters(): Counters { Hysteresis.Counters(high, low, lastScaleUp, lastScaleDown) }
  }

  function NewCtl(cfg: Config): Ctl { Ctl(cfg.bootCPUs, None, None, 0, 0, None) }

  // sampleCPU: the new baseline, and (usage %, throttled %) when the sample is usable.
  function SampleCPU(c: Ctl, e: Env): (Ctl, Option<(real, real)>) {
    if e.stats.None? then (c, None)
    else
      var d := c.(lastSample := Some(Sample(e.now, e.stats.value.0, e.stats.value.1)));
      if c.lastSample.None? then (d, None)
      else
        var last := c.lastSample.value;
        var elapsed := e.now - last.at;
        if elapsed <= 0 || e.stats.value.0 < last.usageUsec || e.stats.value.1 < last.throttledUsec then (d, None)
        else
          var usec := elapsed / 1000;
          if usec <= 0 || c.currentCPUs <= 0 then (d, None)
          else (d, Some(Percentages(c.currentCPUs, e.stats.value.0 - last.usageUsec,
                                    e.stats.value.1 - last.throttledUsec, usec)))
  }

  function Percentages(cpus: int, deltaUsage: int, deltaThrottled: int, usec: int): (real, real)
    requires cpus > 0 && usec > 0
  {
    (deltaUsage as real / (usec as real * cpus as real) * 100.0,
     deltaThrottled as real / usec as real * 100.0)
  }

  function Projected(pct: real, cpus: int): real
    requires cpus > 1
  {
    pct * cpus as real / (cpus - 1) as real
  }

  // calculateTargetCPUs after a usable sample: -1, 0 or +1 CPU.
  function Direction(cfg: Config, cpus: int, pct: real, throttled: real): int {
    if throttled >= cfg.throttleLimit then 0
    else if pct >= cfg.upThreshold && cpus < cfg.maxCPUs then 1
    else if cfg.enableScaleDown && cpus > cfg.bootCPUs && cpus > 1 && Projected(pct, cpus) <= cfg.downThreshold then -1
    else 0
  }

  // ---------------------------------------------------------------- plugging and unplugging

  // Plug the lowest free ids from `next` up, until `count` are added, max is reached or one fails.
  // Returns the new set, the ids added, and whether no plug failed.
  function Plug(cpus: set<nat>, next: nat, max: nat, count: int, fails: set<nat>): (set<nat>, seq<nat>, bool)
    decreases max - next
  {
    if count <= 0 || next >= max then (cpus, [], true)
    else if next in cpus then Plug(cpus, next + 1, max, count, fails)
    else if next in fails then (cpus, [], false)
    else
      var (after, added, ok) := Plug(cpus + {next}, next + 1, max, count - 1, fails);
      (after, [next] + added, ok)
  }

  // Unplug ids in list order until `count` are gone; a failed unplug is skipped.
  function Unplug(cpus: set<nat>, ids: seq<nat>, count: int, fails: set<nat>): (set<nat>, seq<nat>) {
    if ids == [] || count <= 0 then (cpus, [])
    else if ids[0] in fails then Unplug(cpus, ids[1..], count, fails)
    else
      var (after, removed) := Unplug(cpus - {ids[0]}, ids[1..], count - 1, fails);
      (after, [ids[0]] + removed)
  }

  // Every listed id but CPU 0.
  function NonBoot(order: seq<nat>): seq<nat> {
    if order == [] then []
    else (if order[0] > 0 then [order[0]] else []) + NonBoot(order[1..])
  }

  function Reverse<T>(s: seq<T>): seq<T> {
    if s == [] then [] else Reverse(s[1..]) + [s[0]]
  }

  // The ids scaleDown tries, in order.
  function Candidates(order: seq<nat>): seq<nat> { Reverse(NonBoot(order)) }

  // ---------------------------------------------------------------- controller

  datatype Outcome = Outcome(ctl: Ctl, cpus: set<nat>, counted: Option<Reading>, op: Option<Entry>)

  function ScaleUp(cfg: Config, c: Ctl, cpus: set<nat>, target: int, e: Env): Outcome {
    if !e.queryAgainOk then Outcome(c, cpus, None, None)
    else
      var (after, added, ok) := Plug(cpus, 0, cfg.maxCPUs, target - c.currentCPUs, e.plugFails);
      if !ok then Outcome(c, after, None, None)
      else
        Outcome(c.(currentCPUs := c.currentCPUs + |added|, lastScaleUp := Some(e.doneAt), high := 0),
                after, None, Some(Up(added, |added|, e.doneAt)))
  }

  function ScaleDown(cfg: Config, c: Ctl, cpus: set<nat>, target: int, e: Env): Outcome {
    if !e.queryAgainOk then Outcome(c, cpus, None, None)
    else
      var (after, removed) := Unplug(cpus, Candidates(e.order), c.currentCPUs - target, e.unplugFails);
      Outcome(c.(currentCPUs := c.currentCPUs - |removed|, lastScaleDown := Some(e.doneAt), low := 0),
              after, None, Some(Down(removed, |removed|, e.doneAt)))
  }

  function Decide(cfg: Config, c: Ctl, cpus: set<nat>, dir: int, e: Env): Outcome {
    if dir > 0 then
      if !CooledDown(c.lastScaleUp, e.now, cfg.limits.upCooldown) then Outcome(c, cpus, None, None)
      else
        var d := c.(high := c.high + 1, low := 0);
        (if d.high < cfg.limits.upStability then Outcome(d, cpus, None, None)
         else ScaleUp(cfg, d, cpus, d.currentCPUs + dir, e)).(counted := Some(High))
    else if dir < 0 && cfg.enableScaleDown then
      if !CooledDown(c.lastScaleDown, e.now, cfg.limits.downCooldown) then Outcome(c, cpus, None, None)
      else
        var d := c.(low := c.low + 1, high := 0);
        (if d.low < cfg.limits.downStability then Outcome(d, cpus, None, None)
         else ScaleDown(cfg, d, cpus, d.currentCPUs + dir, e)).(counted := Some(Low))
    else
      Outcome(c.(high := 0, low := 0), cpus, Some(Neutral), None)
  }

  // The direction a tick wants to go in; a missing sample means none.
  function Wanted(cfg: Config, c: Ctl, e: Env): (Ctl, int) {
    var (d, sample) := SampleCPU(c, e);
    (d, if sample.None? then 0 else Direction(cfg, c.currentCPUs, sample.value.0, sample.value.1))
  }

  // One call of checkAndAdjust.
  function Tick(cfg: Config, c: Ctl, cpus: set<nat>, e: Env): Outcome {
    if !e.queryOk then Outcome(c, cpus, None, None)
    else
      var (d, dir) := Wanted(cfg, c.(currentCPUs := |cpus|), e);
      Decide(cfg, d, cpus, dir, e)
  }

  // ---------------------------------------------------------------- runs

  datatype Sys = Sys(ctl: Ctl, cpus: set<nat>, log: Log, clock: int)

  function Boot(cfg: Config, clock: int): Sys { Sys(NewCtl(cfg), Below(cfg.bootCPUs), [], clock) }

  ghost predicate Lists(order: seq<nat>, cpus: set<nat>) {
    && (forall i, j :: 0 <= i < j < |order| ==> order[i] != order[j])
    && (forall x :: x in order <==> x in cpus)
  }

  // A query lists the plugged CPUs, each once, and time does not run backwards.
  ghost predicate Possible(s: Sys, e: Env) { s.clock <= e.now <= e.doneAt && Lists(e.order, s.cpus) }

  function Step(cfg: Config, s: Sys, e: Env): Sys {
    var o := Tick(cfg, s.ctl, s.cpus, e);
    Sys(o.ctl, o.cpus, Append(Note(s.log, o.counted), o.op), e.doneAt)
  }

  ghost predicate IsRun(cfg: Config, run: seq<Sys>, envs: seq<Env>) {
    && |run| == |envs| + 1
    && forall i :: 0 <= i < |envs| ==> Possible(run[i], envs[i]) && run[i + 1] == Step(cfg, run[i], envs[i])
  }
}
