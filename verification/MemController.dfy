// The memory hotplug controller and its QMP client as objects updated in place.
// Their methods are proved against the value-level functions of MemHotplug.
module MemController {
  import opened Base
  import opened Hysteresis
  import D = MemDemand
  import M = MemHotplug

  // The sum of two positive 64-bit integers.
  function WrappedSum(a: int, b: int): (r: int)
    requires 0 < a < TWO63 && 0 < b < TWO63
    ensures if a + b < TWO63 then r == a + b else r < 0
  {
    Wrap(a + b)
  }

  class Qmp {
    var base: int
    var dimms: map<nat, int>
    var backends: set<nat>

    // Together with what the guest has online.
    ghost function Value(online: set<nat>): M.Vm
      reads this
    {
      M.Vm(base, dimms, backends, online)
    }

    method QueryMemorySize(slots: nat, ghost online: set<nat>) returns (total: int)
      ensures total == M.Total(Value(online), slots)
    {
      total := base;
      for i := 0 to slots
        invariant total == base + M.Plugged(dimms, i)
      {
        if i in dimms { total := total + dimms[i]; }
      }
    }

    method HotplugMemory(slot: nat, size: int, e: M.Env, ghost online: set<nat>) returns (ok: bool)
      modifies this
      ensures (Value(online), ok) == M.HotplugMemory(old(Value(online)), slot, size, e)
    {
      if !M.Aligned(size) { return false; }
      if slot in backends || !e.objectAddOk { return false; }
      ghost var before := backends;
      backends := backends + {slot};
      if slot in dimms || !e.deviceAddOk {
        if e.objectDelOk {
          backends := backends - {slot};
          assert backends == before;
        }
        return false;
      }
      dimms := dimms[slot := size];
      return e.growthSeen;
    }

    method UnplugMemory(slot: nat, e: M.Env, ghost online: set<nat>) returns (ok: bool)
      modifies this
      ensures (Value(online), ok) == M.UnplugMemory(old(Value(online)), slot, e)
    {
      if slot !in dimms || !e.deviceDelOk { return false; }
      dimms := dimms - {slot};
      if e.objectDelOk { backends := backends - {slot}; }
      return true;
    }
  }

  // The guest's memory blocks; works: whether the call succeeds.
  class Guest {
    var online: set<nat>

    method OnlineMemory(slot: nat, works: bool)
      modifies this
      ensures online == if works then old(online) + {slot} else old(online)
    {
      if works { online := online + {slot}; }
    }

    method OfflineMemory(slot: nat, works: bool)
      modifies this
      ensures online == if works then old(online) - {slot} else old(online)
    {
      if works { online := online - {slot}; }
    }
  }

  class Controller {
    const cfg: M.Config
    var currentMemory: int
    var usedSlots: set<nat>
    var lastScaleUp: Option<int>
    var lastScaleDown: Option<int>
    var consecutiveHighUsage: int
    var consecutiveLowUsage: int
    var sampled: bool
    var lastMemoryUsage: int

    ghost function Value(): M.Ctl
      reads this
    {
      M.Ctl(currentMemory, usedSlots, lastScaleUp, lastScaleDown,
            consecutiveHighUsage, consecutiveLowUsage, sampled, lastMemoryUsage)
    }

    constructor (cfg: M.Config)
      ensures this.cfg == cfg && Value() == M.NewCtl(cfg)
    {
      this.cfg := cfg;
      currentMemory := cfg.bootMemory;
      usedSlots := {};
      lastScaleUp, lastScaleDown := None, None;
      consecutiveHighUsage, consecutiveLowUsage := 0, 0;
      sampled, lastMemoryUsage := false, 0;
    }

    // The first available slot, or -1.
    method FindFreeSlot() returns (slot: int)
      ensures -1 <= slot < cfg.maxSlots
      ensures slot == -1 ==> forall i: nat :: i < cfg.maxSlots ==> i in usedSlots
      ensures slot >= 0 ==> slot !in usedSlots && forall i: nat :: i < slot ==> i in usedSlots
    {
      for i := 0 to cfg.maxSlots
        invariant forall j: nat :: j < i ==> j in usedSlots
      {
        if i !in usedSlots { return i; }
      }
      return -1;
    }

    // The last used slot, or -1.
    method FindUsedSlot() returns (slot: int)
      ensures -1 <= slot < cfg.maxSlots
      ensures slot >= 0 ==> slot in usedSlots
      ensures forall i: nat :: slot < i < cfg.maxSlots ==> i !in usedSlots
    {
      for i := cfg.maxSlots downto 0
        invariant forall j: nat :: i <= j < cfg.maxSlots ==> j !in usedSlots
      {
        if i in usedSlots { return i; }
      }
      return -1;
    }

    method CalculateTargetMemory(usage: int, now: int) returns (target: int, ghost counted: Option<Reading>)
      requires 0 < currentMemory < TWO63 && 0 < cfg.increment < TWO63
      modifies this`consecutiveHighUsage, this`consecutiveLowUsage
      ensures (Value(), target, counted) == M.Decide(cfg, old(Value()), usage, now)
      ensures var asked := D.Asks(cfg, currentMemory, usage);
              && (target > currentMemory ==> asked == High && target == D.Larger(cfg, currentMemory))
              && (target < currentMemory ==> asked == Low && target == D.Smaller(cfg, currentMemory))
              && (asked == Neutral ==> consecutiveHighUsage == 0 == consecutiveLowUsage)
    {
      D.TargetIsExact(cfg, Value(), usage, now);
      var pct := M.UsagePct(usage, currentMemory);
      var used := M.UsedMemory(currentMemory, pct);
      var margin := cfg.Margin();
      target, counted := currentMemory, None;
      if pct >= cfg.upThreshold && currentMemory - used < margin {
        if !CooledDown(lastScaleUp, now, cfg.limits.upCooldown) { return; }
        consecutiveHighUsage, consecutiveLowUsage := consecutiveHighUsage + 1, 0;
        counted := Some(High);
        if consecutiveHighUsage >= cfg.limits.upStability {
          var grown := WrappedSum(currentMemory, cfg.increment);
          if grown > cfg.maxMemory { grown := cfg.maxMemory; }
          if grown > currentMemory { target := grown; }
        }
      } else if pct < cfg.downThreshold {
        if !CooledDown(lastScaleDown, now, cfg.limits.downCooldown) { return; }
        consecutiveHighUsage, consecutiveLowUsage := 0, consecutiveLowUsage + 1;
        counted := Some(Low);
        if consecutiveLowUsage >= cfg.limits.downStability {
          var shrunk := currentMemory - cfg.increment;
          if shrunk < cfg.bootMemory { shrunk := cfg.bootMemory; }
          if shrunk - used >= margin && shrunk < currentMemory { target := shrunk; }
        }
      } else {
        consecutiveHighUsage, consecutiveLowUsage := 0, 0;
        counted := Some(Neutral);
      }
    }

    method ScaleUp(qmp: Qmp, guest: Guest, target: int, e: M.Env)
      modifies this, qmp, guest
      ensures var o := M.ScaleUp(cfg, old(Value()), old(qmp.Value(guest.online)), target, e);
              Value() == o.ctl && qmp.Value(guest.online) == o.vm
    {
      var amount := target - currentMemory;
      if amount <= 0 { return; }
      var slot := FindFreeSlot();
      if slot < 0 { return; }
      assert slot == M.FreeSlot(usedSlots, 0, cfg.maxSlots);
      var ok := qmp.HotplugMemory(slot, amount, e, guest.online);
      if !ok { return; }
      ghost var before := usedSlots;
      usedSlots := usedSlots + {slot};
      guest.OnlineMemory(slot, e.onlineOk);
      if !e.onlineOk {
        var _ := qmp.UnplugMemory(slot, e, guest.online);
        usedSlots := usedSlots - {slot};
        assert usedSlots == before - {slot};
        return;
      }
      lastScaleUp := Some(e.doneAt);
      consecutiveHighUsage := 0;
      currentMemory := target;
    }

    method ScaleDown(qmp: Qmp, guest: Guest, target: int, e: M.Env)
      modifies this, qmp, guest
      ensures var o := M.ScaleDown(cfg, old(Value()), old(qmp.Value(guest.online)), target, e);
              Value() == o.ctl && qmp.Value(guest.online) == o.vm
    {
      if currentMemory - target <= 0 { return; }
      var slot := FindUsedSlot();
      assert slot == M.UsedTop(usedSlots, cfg.maxSlots) - 1;
      if slot < 0 { return; }
      guest.OfflineMemory(slot, e.offlineOk);
      if !e.offlineOk { return; }
      var ok := qmp.UnplugMemory(slot, e, guest.online);
      if !ok {
        guest.OnlineMemory(slot, e.onlineAgainOk);
        return;
      }
      usedSlots := usedSlots - {slot};
      lastScaleDown := Some(e.doneAt);
      consecutiveLowUsage := 0;
      currentMemory := target;
    }

    // One tick of the monitor loop: exactly the step whose runs MemHotplugSafety is about.
    method CheckAndAdjust(qmp: Qmp, guest: Guest, e: M.Env)
      requires 0 < M.Total(qmp.Value(guest.online), cfg.maxSlots) < TWO63 && 0 < cfg.increment < TWO63
      modifies this, qmp, guest
      ensures var o := M.Tick(cfg, old(Value()), old(qmp.Value(guest.online)), e);
              Value() == o.ctl && qmp.Value(guest.online) == o.vm
    {
      if !e.queryOk { return; }
      currentMemory := qmp.QueryMemorySize(cfg.maxSlots, guest.online);
      if e.usage.None? { return; }
      var first := !sampled;
      sampled, lastMemoryUsage := true, e.usage.value;
      if first { return; }
      var target, _ := CalculateTargetMemory(e.usage.value, e.now);
      if target > currentMemory {
        ScaleUp(qmp, guest, target, e);
      } else if target < currentMemory && cfg.enableScaleDown {
        ScaleDown(qmp, guest, target, e);
      }
    }
  }
}
