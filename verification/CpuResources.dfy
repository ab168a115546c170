// From the OCI spec and the settings file to the CPU counts the CPU controller works with.
module CpuResources {
  import opened Base
  import opened Hysteresis
  import opened Resources
  import C = CpuHotplug
  import CpuSet

  // The CPU section of the spec: quota and period in microseconds, and a cpuset(7) list.
  datatype CpuLimits = CpuLimits(quota: Option<int>, period: Option<int>, cpuset: string)

  // Go's integer division, whose one overflow wraps around.
  function Divided(a: int, b: int): int
    requires b != 0
  {
    Wrap(if b > 0 then Quotient(a, b) else -Quotient(a, -b))
  }

  // A quota and a period that is not 0 take precedence; the period is converted to a signed integer.
  predicate HasQuota(l: CpuLimits) { l.quota.Some? && l.period.Some? && Wrap(l.period.value) != 0 }

  // extractCPURequest; None when parsing the list does not end.
  function CpuRequest(l: Option<CpuLimits>): Option<int> {
    if l.None? then Some(1)
    else if HasQuota(l.value) then Some(Max(Divided(l.value.quota.value, Wrap(l.value.period.value)), 1))
    else if l.value.cpuset == "" then Some(1)
    else
      match CpuSet.ListCpus(l.value.cpuset)
      case Named(cpus) => Some(Max(|cpus|, 1))
      case Malformed => Some(1)
      case Endless => None
  }

  predicate Explicit(l: Option<CpuLimits>) { l.Some? && (l.value.quota.Some? || l.value.cpuset != "") }

  // MaxCPUs, for a number of BootCPUs.
  function MaxCPUs(l: Option<CpuLimits>, request: int, hostCPUs: int): int {
    if Explicit(l) then Min(request, hostCPUs) else hostCPUs
  }

  // The cpu_hotplug section of the settings file, durations already parsed.
  datatype Settings = Settings(
    limits: Limits,
    upThreshold: real,
    downThreshold: real,
    throttleLimit: real,
    enableScaleDown: bool)

  // validateCPUHotplug
  function Validate(h: Settings): Option<Fault> {
    var common := ValidateHotplug(h.upThreshold, h.downThreshold, h.limits);
    if common.Some? then common
    else if h.throttleLimit < 0.0 || h.throttleLimit > 100.0 then Some(ThrottleLimit)
    else None
  }

  function ControllerConfig(h: Settings, boot: nat, max: nat): C.Config {
    C.Config(boot, max, h.upThreshold, h.downThreshold, h.throttleLimit, h.limits, h.enableScaleDown)
  }

  // A quota asks for as many CPUs as it pays for in full, and for one at least.
  lemma QuotaRoundsDown(l: CpuLimits)
    requires l.quota.Some? && l.period.Some? && 0 <= l.quota.value < TWO63 && 0 < l.period.value < TWO63
    ensures CpuRequest(Some(l)).Some?
    ensures var n, quota, period := CpuRequest(Some(l)).value, l.quota.value, l.period.value;
            n >= 1 && quota < (n + 1) * period && (n > 1 ==> n * period <= quota)
  {
    Whole(l.quota.value, l.period.value);
    QuotaIsDivided(l, l.quota.value / l.period.value);
  }

  lemma Whole(quota: int, period: int)
    requires quota >= 0 && period > 0
    ensures var q := quota / period;
            0 <= q <= quota && q * period <= quota < (q + 1) * period
  {
    var q, r := quota / period, quota % period;
    assert quota == q * period + r && 0 <= r < period;
    WholeIs(q, period, quota, r);
  }

  lemma WholeIs(q: int, period: int, quota: int, r: int)
    requires quota == q * period + r && 0 <= r < period && quota >= 0
    ensures 0 <= q <= quota && q * period <= quota < (q + 1) * period
  {
    assert (q + 1) * period == q * period + period;
    if q < 0 {
      Multiplied(-(q + 1), period);
    } else {
      Multiplied(q, period);
    }
  }

  lemma Multiplied(q: int, period: int)
    requires q >= 0 && period >= 1
    ensures q * period >= q
  {
    assert q * (period - 1) >= 0;
  }

  lemma QuotaIsDivided(l: CpuLimits, q: int)
    requires l.quota.Some? && l.period.Some? && 0 <= l.quota.value < TWO63 && 0 < l.period.value < TWO63
    requires q == l.quota.value / l.period.value && 0 <= q <= l.quota.value
    ensures CpuRequest(Some(l)) == Some(if q > 1 then q else 1)
  {
    WrapFits(l.period.value);
    WrapFits(q);
  }

  // Without one, a list asks for the CPUs it names, and for one if it names none, is malformed, or is not there.
  lemma ListIsCounted(l: CpuLimits)
    requires !HasQuota(l)
    ensures var list := CpuSet.ListCpus(l.cpuset);
            && (l.cpuset != "" && list.Named? && list.cpus != {} ==> CpuRequest(Some(l)) == Some(|list.cpus|))
            && (l.cpuset == "" || list.Malformed? || list == CpuSet.Named({}) ==> CpuRequest(Some(l)) == Some(1))
            && (CpuRequest(Some(l)).None? <==> l.cpuset != "" && list.Endless?)
  {
    var list := CpuSet.ListCpus(l.cpuset);
    if l.cpuset != "" && list.Named? && list.cpus != {} { assert |list.cpus| > 0; }
  }

  // Which settings are accepted.
  lemma AcceptedSettings(h: Settings)
    ensures Validate(h).None? <==>
            && 0.0 < h.downThreshold < h.upThreshold <= 100.0
            && h.limits.upStability > 0 && h.limits.downStability > 0 && 0.0 <= h.throttleLimit <= 100.0
  {
  }

  // For every spec, host and accepted settings file: a controller that is started at all (max above boot)
  // meets the hypotheses of the run theorems of CpuHotplugSafety; and none is ever started for a container
  // with a CPU limit.
  lemma StartedControllersAreSound(l: Option<CpuLimits>, hostCPUs: nat, h: Settings)
    requires hostCPUs > 0 && CpuRequest(l).Some? && Validate(h) == None
    ensures var boot := CpuRequest(l).value;
            var max := MaxCPUs(l, boot, hostCPUs);
            && boot > 0
            && (max > boot <==> !Explicit(l) && hostCPUs > 1)
            && (max > boot ==> max == hostCPUs && boot == 1 && C.Validated(ControllerConfig(h, boot, max)))
    ensures var cfg := ControllerConfig(h, 0, 0);
            && cfg.limits == h.limits && cfg.upThreshold == h.upThreshold && cfg.downThreshold == h.downThreshold
            && cfg.throttleLimit == h.throttleLimit && cfg.enableScaleDown == h.enableScaleDown
  {
  }
}
