// The memory hotplug controller, run against a QEMU that holds a base memory and DIMMs by slot.
// Bytes are 64-bit integers, and sums and products that overflow wrap around; usage percentages are
// exact reals.
module MemHotplug {
  import opened Base
  import opened Hysteresis

  // HotplugMemory accepts only multiples of 128 MiB.
  const ALIGNMENT: int := 128 * 1024 * 1024

  const MIB: int := 1024 * 1024

  datatype Config = Config(
    bootMemory: int,
    maxMemory: int,
    increment: int,
    marginMB: int,
    upThreshold: real,
    downThreshold: real,
    limits: Limits,
    enableScaleDown: bool,
    maxSlots: nat)
  {
    function Margin(): int { Wrap(marginMB * MIB) }
  }

  predicate Aligned(n: int) { n % ALIGNMENT == 0 }

  // A configuration that passed validation and reached a real (not the no-op) controller.
  predicate Validated(cfg: Config) {
    && 0 < cfg.bootMemory < cfg.maxMemory < TWO63
    && 0 < cfg.increment < TWO63
    && 0 < cfg.marginMB
    && 0.0 < cfg.downThreshold < cfg.upThreshold <= 100.0
    && 0 < cfg.limits.upStability && 0 < cfg.limits.downStability
  }

  // The sizes a controller is configured with are multiples of 128 MiB.
  predicate AlignedConfig(cfg: Config) {
    Aligned(cfg.bootMemory) && Aligned(cfg.maxMemory) && Aligned(cfg.increment)
  }

  // ---------------------------------------------------------------- QEMU

  // backends: ids of memory-backend objects; dimms: plugged pc-dimm devices and their sizes; online: the slots
  // whose memory the guest has online.
  datatype Vm = Vm(base: int, dimms: map<nat, int>, backends: set<nat>, online: set<nat>)

  // Bytes plugged in the slots below n.
  function Plugged(dimms: map<nat, int>, n: nat): int {
    if n == 0 then 0
    else Plugged(dimms, n - 1) + (if n - 1 in dimms then dimms[n - 1] else 0)
  }

  function Total(v: Vm, slots: nat): int { v.base + Plugged(v.dimms, slots) }

  // Bytes plugged in the slots below n that are not online.
  function Offline(dimms: map<nat, int>, online: set<nat>, n: nat): int {
    if n == 0 then 0
    else Offline(dimms, online, n - 1) + (if n - 1 in dimms && n - 1 !in online then dimms[n - 1] else 0)
  }

  // Bytes plugged in the slots below n that are online.
  function Online(dimms: map<nat, int>, online: set<nat>, n: nat): int {
    if n == 0 then 0
    else Online(dimms, online, n - 1) + (if n - 1 in dimms && n - 1 in online then dimms[n - 1] else 0)
  }

  // What the guest can use.
  function Available(v: Vm, slots: nat): int { v.base + Online(v.dimms, v.online, slots) }

  // Answers of the outside world to the commands of one tick.
  datatype Env = Env(
    now: int,             // when the tick samples and decides
    doneAt: int,          // when a scaling operation of the tick finishes
    queryOk: bool,
    usage: Option<int>,   // cgroup memory usage, or a failed stats call
    objectAddOk: bool,
    deviceAddOk: bool,
    growthSeen: bool,     // the query after device_add does not contradict it
    onlineOk: bool,
    offlineOk: bool,
    onlineAgainOk: bool,  // the attempt to bring memory back online when it cannot be unplugged
    deviceDelOk: bool,
    objectDelOk: bool)

  // object-add then device_add; the backend is removed again when device_add fails. When the query
  // afterwards shows no growth, the call fails and leaves the DIMM plugged.
  // QEMU refuses an object id or a device id that is already taken.
  function HotplugMemory(v: Vm, slot: nat, size: int, e: Env): (Vm, bool) {
    if !Aligned(size) then (v, false)
    else if slot in v.backends || !e.objectAddOk then (v, false)
    else
      var w := v.(backends := v.backends + {slot});
      if slot in v.dimms || !e.deviceAddOk then
        (if e.objectDelOk then v else w, false)
      else
        (w.(dimms := w.dimms[slot := size]), e.growthSeen)
  }

  // device_del then object-del; a failed object-del is not an error.
  function UnplugMemory(v: Vm, slot: nat, e: Env): (Vm, bool) {
    if slot !in v.dimms || !e.deviceDelOk then (v, false)
    else
      var w := v.(dimms := v.dimms - {slot});
      (if e.objectDelOk then w.(backends := w.backends - {slot}) else w, true)
  }

  // ---------------------------------------------------------------- controller

  datatype Ctl = Ctl(
    currentMemory: int,
    usedSlots: set<nat>,
    lastScaleUp: Option<int>,
    lastScaleDown: Option<int>,
    high: int,
    low: int,
    sampled: bool,
    lastUsage: int)
  {
    function Counters(): Counters { Hysteresis.Counters(high, low, lastScaleUp, lastScaleDown) }
  }

  function NewCtl(cfg: Config): Ctl {
    Ctl(cfg.bootMemory, {}, None, None, 0, 0, false, 0)
  }

  function UsagePct(usage: int, memory: int): real
    requires memory > 0
  {
    usage as real / memory as real * 100.0
  }

  // Conversion of a float to int64 drops the fraction.
  function Truncate(x: real): int {
    if x >= 0.0 then x.Floor else -((-x).Floor)
  }

  function UsedMemory(memory: int, pct: real): int {
    Truncate(memory as real * pct / 100.0)
  }

  // A sum that overflows is negative, and memory does not grow.
  function GrowTarget(cfg: Config, memory: int): int {
    if memory + cfg.increment >= TWO63 then memory else Min(memory + cfg.increment, cfg.maxMemory)
  }

  function ShrinkTarget(cfg: Config, memory: int): int {
    Max(memory - cfg.increment, cfg.bootMemory)
  }

  // calculateTargetMemory after a valid sample: the new counters, the target, the counted reading.
  function Decide(cfg: Config, c: Ctl, usage: int, now: int): (Ctl, int, Option<Reading>)
    requires c.currentMemory > 0
  {
    var memory := c.currentMemory;
    var pct := UsagePct(usage, memory);
    var used := UsedMemory(memory, pct);
    if pct >= cfg.upThreshold && memory - used < cfg.Margin() then
      if !CooledDown(c.lastScaleUp, now, cfg.limits.upCooldown) then (c, memory, None)
      else
        var d := c.(high := c.high + 1, low := 0);
        var target := GrowTarget(cfg, memory);
        (d, if d.high >= cfg.limits.upStability && target > memory then target else memory, Some(High))
    else if pct < cfg.downThreshold then
      if !CooledDown(c.lastScaleDown, now, cfg.limits.downCooldown) then (c, memory, None)
      else
        var d := c.(low := c.low + 1, high := 0);
        var target := ShrinkTarget(cfg, memory);
        (d,
         if d.low >= cfg.limits.downStability && target - used >= cfg.Margin() && target < memory
         then target else memory,
         Some(Low))
    else
      (c.(high := 0, low := 0), memory, Some(Neutral))
  }

  // The lowest slot below n that is not used, or n when there is none.
  function FreeSlot(used: set<nat>, i: nat, n: nat): (r: nat)
    requires i <= n
    ensures i <= r <= n
    ensures r < n ==> r !in used
    ensures forall j :: i <= j < r ==> j in used
    decreases n - i
  {
    if i == n || i !in used then i else FreeSlot(used, i + 1, n)
  }

  // One more than the highest used slot below n, or 0 when there is none.
  function UsedTop(used: set<nat>, n: nat): (r: nat)
    ensures r <= n
    ensures r > 0 ==> r - 1 in used
    ensures forall j: nat :: r <= j < n ==> j !in used
  {
    if n == 0 || n - 1 in used then n else UsedTop(used, n - 1)
  }

  // The slot and size a scale-up asks QEMU for, if it asks at all.
  function Request(cfg: Config, c: Ctl, target: int): Option<(nat, int)> {
    var slot := FreeSlot(c.usedSlots, 0, cfg.maxSlots);
    if target - c.currentMemory <= 0 || slot == cfg.maxSlots then None
    else Some((slot, target - c.currentMemory))
  }

  // What a scaling operation, or a whole tick, leaves behind; `op` is what goes into the history.
  datatype Outcome = Outcome(ctl: Ctl, vm: Vm, counted: Option<Reading>, op: Option<Entry>)

  function ScaleUp(cfg: Config, c: Ctl, v: Vm, target: int, e: Env): Outcome {
    var request := Request(cfg, c, target);
    if request.None? then Outcome(c, v, None, None)
    else
      var (slot, amount) := request.value;
      var (w, ok) := HotplugMemory(v, slot, amount, e);
      if !ok then Outcome(c, w, None, if slot in w.dimms && slot !in v.dimms then Some(Leak(slot, amount)) else None)
      else if !e.onlineOk then
        // The slot is given back whether or not the unplug worked.
        var (x, gone) := UnplugMemory(w, slot, e);
        Outcome(c.(usedSlots := c.usedSlots - {slot}), x, None, if gone then None else Some(Leak(slot, amount)))
      else
        Outcome(
          c.(usedSlots := c.usedSlots + {slot}, lastScaleUp := Some(e.doneAt), high := 0, currentMemory := target),
          w.(online := w.online + {slot}), None, Some(Up([slot], amount, e.doneAt)))
  }

  function ScaleDown(cfg: Config, c: Ctl, v: Vm, target: int, e: Env): Outcome {
    var top := UsedTop(c.usedSlots, cfg.maxSlots);
    if c.currentMemory - target <= 0 || top == 0 || !e.offlineOk then Outcome(c, v, None, None)
    else
      var slot := top - 1;
      var (w, gone) := UnplugMemory(v.(online := v.online - {slot}), slot, e);
      if !gone then Outcome(c, if e.onlineAgainOk then w.(online := w.online + {slot}) else w, None, None)
      else
        Outcome(
          c.(usedSlots := c.usedSlots - {slot}, lastScaleDown := Some(e.doneAt), low := 0, currentMemory := target),
          w, None, Some(Down([slot], if slot in v.dimms then v.dimms[slot] else 0, e.doneAt)))
  }

  // One call of checkAndAdjust.
  function Tick(cfg: Config, c: Ctl, v: Vm, e: Env): Outcome
    requires Total(v, cfg.maxSlots) > 0
  {
    if !e.queryOk then Outcome(c, v, None, None)
    else
      var c1 := c.(currentMemory := Total(v, cfg.maxSlots));
      if e.usage.None? then Outcome(c1, v, None, None)
      else
        var c2 := c1.(sampled := true, lastUsage := e.usage.value);
        if !c.sampled then Outcome(c2, v, None, None)
        else
          var (c3, target, counted) := Decide(cfg, c2, e.usage.value, e.now);
          if target > c3.currentMemory then
            ScaleUp(cfg, c3, v, target, e).(counted := counted)
          else if target < c3.currentMemory && cfg.enableScaleDown then
            ScaleDown(cfg, c3, v, target, e).(counted := counted)
          else
            Outcome(c3, v, counted, None)
  }

  // ---------------------------------------------------------------- runs

  datatype Sys = Sys(ctl: Ctl, vm: Vm, log: Log, clock: int)

  function Boot(cfg: Config, clock: int): Sys {
    Sys(NewCtl(cfg), Vm(cfg.bootMemory, map[], {}, {}), [], clock)
  }

  // The slots added and not removed since, in the order of addition.
  function Stack(log: Log): seq<nat> {
    if log == [] then []
    else
      Restack(Stack(log[..|log| - 1]), log[|log| - 1])
  }

  function Restack(stack: seq<nat>, e: Entry): seq<nat> {
    match e
    case Up(ids, _, _) => stack + ids
    case Down(ids, _, _) => Without(stack, ids)
    case _ => stack
  }

  function Without(stack: seq<nat>, ids: seq<nat>): seq<nat> {
    if stack == [] then []
    else (if stack[0] in ids then [] else [stack[0]]) + Without(stack[1..], ids)
  }

  // [0, .., k-1]
  function Ladder(k: nat): (r: seq<nat>)
    ensures |r| == k && forall i :: 0 <= i < k ==> r[i] == i
  {
    seq(k, i => i)
  }

  // The state every tick keeps.
  ghost predicate Inv(cfg: Config, s: Sys) {
    && VmInv(cfg, s.vm)
    && SlotInv(s.ctl.usedSlots, s.vm)
    && HistoryInv(cfg, s.ctl, s.log, s.clock)
  }

  ghost predicate VmInv(cfg: Config, v: Vm) {
    && v.base == cfg.bootMemory
    && v.online <= v.dimms.Keys <= v.backends
    && (forall i :: i in v.dimms ==> i < cfg.maxSlots && 0 < v.dimms[i] <= cfg.increment)
    && Total(v, cfg.maxSlots) <= cfg.maxMemory
  }

  // Used slots are {0, .., k-1} and hold DIMMs, so a leaked DIMM lies above all of them.
  ghost predicate SlotInv(used: set<nat>, v: Vm) {
    used == Below(|used|) && used <= v.dimms.Keys
  }

  ghost predicate HistoryInv(cfg: Config, c: Ctl, log: Log, clock: int) {
    && Kept(cfg.limits, c.Counters(), log, clock)
    && Stack(log) == Ladder(|c.usedSlots|)
    && Lifo(log)
  }

  // Every removed slot was the last one added of those still there.
  ghost predicate Lifo(log: Log) { forall i :: 0 <= i < |log| ==> TakesTop(Stack(log[..i]), log[i]) }

  predicate TakesTop(stack: seq<nat>, e: Entry) {
    e.Down? ==> stack != [] && e.ids == [stack[|stack| - 1]]
  }

  // Time does not run backwards between and within ticks.
  predicate Timely(s: Sys, e: Env) { s.clock <= e.now <= e.doneAt }

  function Step(cfg: Config, s: Sys, e: Env): Sys
    requires Total(s.vm, cfg.maxSlots) > 0
  {
    var o := Tick(cfg, s.ctl, s.vm, e);
    Sys(o.ctl, o.vm, Append(Note(s.log, o.counted), o.op), e.doneAt)
  }
}
