// The CPU hotplug controller and its hotplugger as objects updated in place.
// Their methods are proved against the value-level functions of CpuHotplug.
module CpuController {
  import opened Base
  import opened Hysteresis
  import C = CpuHotplug
  import D = CpuDemand
  import S = CpuHotplugSafety

  class Hotplugger {
    var cpus: set<nat>

    method HotplugCPU(id: nat, e: C.Env) returns (ok: bool)
      modifies this
      ensures ok == (id !in e.plugFails)
      ensures cpus == if ok then old(cpus) + {id} else old(cpus)
    {
      ok := id !in e.plugFails;
      if ok { cpus := cpus + {id}; }
    }

    method UnplugCPU(id: nat, e: C.Env) returns (ok: bool)
      modifies this
      ensures ok == (id !in e.unplugFails)
      ensures cpus == if ok then old(cpus) - {id} else old(cpus)
    {
      ok := id !in e.unplugFails;
      if ok { cpus := cpus - {id}; }
    }
  }

  // Reverse an array by swapping from both ends.
  method ReverseInPlace(a: array<nat>)
    modifies a
    ensures a[..] == C.Reverse(old(a[..]))
  {
    ghost var before := a[..];
    var i, j := 0, a.Length - 1;
    while i < j
      invariant 0 <= i <= a.Length && j == a.Length - 1 - i
      invariant forall k :: 0 <= k < a.Length && (k < i || k > j) ==> a[k] == before[a.Length - 1 - k]
      invariant forall k :: i <= k <= j ==> a[k] == before[k]
      decreases j - i
    {
      a[i], a[j] := a[j], a[i];
      i, j := i + 1, j - 1;
    }
    S.ReverseAt(before);
  }

  lemma {:induction false} NonBootSnoc(order: seq<nat>, id: nat)
    ensures C.NonBoot(order + [id]) == if id > 0 then C.NonBoot(order) + [id] else C.NonBoot(order)
  {
    if order != [] {
      NonBootSnoc(order[1..], id);
      assert (order + [id])[1..] == order[1..] + [id];
    }
  }

  class Controller {
    const cfg: C.Config
    var currentCPUs: int
    var lastScaleUp: Option<int>
    var lastScaleDown: Option<int>
    var consecutiveHighUsage: int
    var consecutiveLowUsage: int
    var lastSample: Option<C.Sample>

    ghost function Value(): C.Ctl
      reads this
    {
      C.Ctl(currentCPUs, lastScaleUp, lastScaleDown, consecutiveHighUsage, consecutiveLowUsage, lastSample)
    }

    constructor (cfg: C.Config)
      ensures this.cfg == cfg && Value() == C.NewCtl(cfg)
    {
      this.cfg := cfg;
      currentCPUs := cfg.bootCPUs;
      lastScaleUp, lastScaleDown := None, None;
      consecutiveHighUsage, consecutiveLowUsage := 0, 0;
      lastSample := None;
    }

    method SampleCPU(e: C.Env) returns (sample: Option<(real, real)>)
      modifies this`lastSample
      ensures (Value(), sample) == C.SampleCPU(old(Value()), e)
    {
      if e.stats.None? { return None; }
      var (usage, throttled) := e.stats.value;
      var before := lastSample;
      lastSample := Some(C.Sample(e.now, usage, throttled));
      if before.None? { return None; }
      var elapsed := e.now - before.value.at;
      if elapsed <= 0 { return None; }
      if usage < before.value.usageUsec || throttled < before.value.throttledUsec { return None; }
      var usec := elapsed / 1000;
      if usec <= 0 || currentCPUs <= 0 { return None; }
      return Some(C.Percentages(currentCPUs, usage - before.value.usageUsec,
                                throttled - before.value.throttledUsec, usec));
    }

    method CalculateTargetCPUs(e: C.Env) returns (target: int)
      modifies this`lastSample
      ensures (Value(), target - currentCPUs) == C.Wanted(cfg, old(Value()), e)
      ensures C.Validated(cfg) && currentCPUs > 0 ==>
                && (target == currentCPUs + 1 <==> D.AsksUp(cfg, currentCPUs, old(lastSample), e))
                && (target == currentCPUs - 1 <==> D.AsksDown(cfg, currentCPUs, old(lastSample), e))
                && currentCPUs - 1 <= target <= currentCPUs + 1
    {
      if C.Validated(cfg) && currentCPUs > 0 { D.TargetIsExact(cfg, Value(), e); }
      target := currentCPUs;
      var sample := SampleCPU(e);
      if sample.None? { return; }
      var (pct, throttled) := sample.value;
      if throttled >= cfg.throttleLimit { return; }
      if pct >= cfg.upThreshold && currentCPUs < cfg.maxCPUs { return currentCPUs + 1; }
      if cfg.enableScaleDown && currentCPUs > cfg.bootCPUs {
        if currentCPUs > 1 {
          if C.Projected(pct, currentCPUs) <= cfg.downThreshold { return currentCPUs - 1; }
        }
      }
    }

    method ScaleUp(h: Hotplugger, target: int, e: C.Env)
      modifies this, h
      ensures var o := C.ScaleUp(cfg, old(Value()), old(h.cpus), target, e);
              Value() == o.ctl && h.cpus == o.cpus
    {
      if !e.queryAgainOk { return; }
      var existing := h.cpus;
      var toAdd := target - currentCPUs;
      var added, nextID := 0, 0;
      ghost var ids: seq<nat> := [];
      ghost var (after, all, ok) := C.Plug(h.cpus, 0, cfg.maxCPUs, toAdd, e.plugFails);
      while added < toAdd && nextID < cfg.maxCPUs
        invariant 0 <= nextID && added == |ids| && existing == h.cpus
        invariant Value() == old(Value())
        invariant var (x, more, y) := C.Plug(h.cpus, nextID, cfg.maxCPUs, toAdd - added, e.plugFails);
                  after == x && all == ids + more && ok == y
        decreases cfg.maxCPUs - nextID
      {
        if nextID !in existing {
          var plugged := h.HotplugCPU(nextID, e);
          if !plugged { return; }
          existing := existing + {nextID};
          added, ids := added + 1, ids + [nextID];
        }
        nextID := nextID + 1;
      }
      currentCPUs := currentCPUs + added;
      lastScaleUp := Some(e.doneAt);
      consecutiveHighUsage := 0;
    }

    method ScaleDown(h: Hotplugger, target: int, e: C.Env)
      modifies this, h
      ensures var o := C.ScaleDown(cfg, old(Value()), old(h.cpus), target, e);
              Value() == o.ctl && h.cpus == o.cpus
    {
      if !e.queryAgainOk { return; }
      var ids := RemovableCPUs(e.order);
      var toRemove := currentCPUs - target;
      var removed := 0;
      ghost var all := C.Unplug(h.cpus, ids, toRemove, e.unplugFails);
      assert ids[0..] == ids;
      for k := 0 to |ids|
        invariant Value() == old(Value())
        invariant C.Unplug(h.cpus, ids[k..], toRemove - removed, e.unplugFails).0 == all.0
        invariant removed + |C.Unplug(h.cpus, ids[k..], toRemove - removed, e.unplugFails).1| == |all.1|
      {
        assert ids[k..][0] == ids[k] && ids[k..][1..] == ids[k + 1..];
        if removed >= toRemove { break; }
        var ok := h.UnplugCPU(ids[k], e);
        if ok { removed := removed + 1; }
      }
      currentCPUs := currentCPUs - removed;
      lastScaleDown := Some(e.doneAt);
      consecutiveLowUsage := 0;
    }

    // All listed ids but CPU 0.
    static method NonBootCPUs(order: seq<nat>) returns (kept: seq<nat>)
      ensures kept == C.NonBoot(order)
    {
      kept := [];
      for k := 0 to |order|
        invariant kept == C.NonBoot(order[..k])
      {
        assert order[..k + 1] == order[..k] + [order[k]];
        NonBootSnoc(order[..k], order[k]);
        if order[k] > 0 { kept := kept + [order[k]]; }
      }
      assert order[..|order|] == order;
    }

    // All listed ids but CPU 0, in reverse.
    static method RemovableCPUs(order: seq<nat>) returns (ids: seq<nat>)
      ensures ids == C.Candidates(order)
    {
      var kept := NonBootCPUs(order);
      var a := new nat[|kept|](i requires 0 <= i < |kept| => kept[i]);
      assert a[..] == kept;
      ReverseInPlace(a);
      ids := a[..];
    }

    // One tick of the monitor loop: exactly the step whose runs CpuHotplugSafety is about.
    method CheckAndAdjust(h: Hotplugger, e: C.Env)
      modifies this, h
      ensures var o := C.Tick(cfg, old(Value()), old(h.cpus), e);
              Value() == o.ctl && h.cpus == o.cpus
    {
      if !e.queryOk { return; }
      currentCPUs := |h.cpus|;
      var target := CalculateTargetCPUs(e);
      if target > currentCPUs {
        if !CooledDown(lastScaleUp, e.now, cfg.limits.upCooldown) { return; }
        consecutiveHighUsage, consecutiveLowUsage := consecutiveHighUsage + 1, 0;
        if consecutiveHighUsage < cfg.limits.upStability { return; }
        ScaleUp(h, target, e);
      } else if target < currentCPUs && cfg.enableScaleDown {
        if !CooledDown(lastScaleDown, e.now, cfg.limits.downCooldown) { return; }
        consecutiveHighUsage, consecutiveLowUsage := 0, consecutiveLowUsage + 1;
        if consecutiveLowUsage < cfg.limits.downStability { return; }
        ScaleDown(h, target, e);
      } else {
        consecutiveHighUsage, consecutiveLowUsage := 0, 0;
      }
    }
  }
}
