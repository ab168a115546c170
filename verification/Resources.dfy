// From the OCI spec and the settings file to the sizes the memory controller works with.
// Sizes are int64 in the source: overflow wraps around.
module Resources {
  import opened Base
  import opened Hysteresis
  import M = MemHotplug

  const DEFAULT_MEMORY: int := 512 * 1024 * 1024

  predicate Int64(n: int) { -TWO63 <= n < TWO63 }

  // Go's integer division drops the fraction.
  function Quotient(a: int, b: int): int
    requires b > 0
  {
    if a >= 0 then a / b else -((-a) / b)
  }

  // alignMemory with the 128 MiB alignment.
  function AlignMemory(memory: int): int {
    if memory % M.ALIGNMENT == 0 then memory
    else Wrap(Wrap(Quotient(memory, M.ALIGNMENT) + 1) * M.ALIGNMENT)
  }

  // limit: the memory limit of the spec, if it has one.
  function MemoryRequest(limit: Option<int>): int {
    if limit.Some? && limit.value > 0 then limit.value else DEFAULT_MEMORY
  }

  // (MemorySize, MemoryHotplugSize)
  function ComputeMemory(limit: Option<int>, hostMemory: int): (int, int) {
    var request := AlignMemory(MemoryRequest(limit));
    var host := AlignMemory(hostMemory);
    (request, if limit.Some? then AlignMemory(Min(Wrap(request * 2), host)) else host)
  }

  // The largest limit that can be aligned and doubled within int64.
  const LARGEST_LIMIT: int := TWO63 / 2 - M.ALIGNMENT

  // A positive size is rounded up to a multiple of 128 MiB, or wraps to -2^63.
  lemma AlignRoundsUp(memory: int)
    requires 0 < memory < TWO63
    ensures M.Aligned(AlignMemory(memory))
    ensures memory <= TWO63 - M.ALIGNMENT ==> memory <= AlignMemory(memory) < memory + M.ALIGNMENT
    ensures memory > TWO63 - M.ALIGNMENT ==> AlignMemory(memory) == -TWO63
  {
    var q := memory / M.ALIGNMENT;
    var up := (q + 1) * M.ALIGNMENT;
    assert memory == q * M.ALIGNMENT + memory % M.ALIGNMENT;
    if memory % M.ALIGNMENT != 0 {
      WrapFits(q + 1);
      if memory <= TWO63 - M.ALIGNMENT {
        assert q + 1 <= TWO63 / M.ALIGNMENT - 1;
        assert up < TWO63;
        WrapFits(up);
      } else {
        assert q + 1 == TWO63 / M.ALIGNMENT;
        assert up == TWO63;
        WrapPast(up);
      }
    }
  }

  lemma MultipleIsAligned(q: int)
    ensures M.Aligned(q * M.ALIGNMENT)
  {
  }

  // Doubling an aligned request stays positive exactly up to the largest limit.
  lemma DoubleAligned(request: int)
    requires 0 < request < TWO63
    ensures var doubled := Wrap(AlignMemory(request) * 2);
            && M.Aligned(doubled) && Int64(doubled)
            && (doubled > 0 <==> request <= LARGEST_LIMIT)
            && (doubled > 0 ==> doubled == AlignMemory(request) * 2)
  {
    AlignRoundsUp(request);
    var boot := AlignMemory(request);
    assert request <= LARGEST_LIMIT ==> boot <= LARGEST_LIMIT by {
      assert M.Aligned(LARGEST_LIMIT);
    }
    if request > TWO63 - M.ALIGNMENT {
      assert Wrap(boot * 2) == 0;
    } else {
      Doubled(boot);
    }
  }

  lemma Doubled(boot: int)
    requires 0 < boot < TWO63 && M.Aligned(boot)
    ensures var doubled := Wrap(boot * 2);
            && M.Aligned(doubled) && Int64(doubled)
            && (doubled > 0 <==> boot < TWO63 / 2) && (doubled > 0 ==> doubled == boot * 2)
  {
    var q := boot / M.ALIGNMENT;
    if boot < TWO63 / 2 {
      WrapFits(boot * 2);
      MultipleIsAligned(2 * q);
    } else {
      WrapPast(boot * 2);
      MultipleIsAligned(2 * q - TWO64 / M.ALIGNMENT);
    }
  }

  lemma AlignOfAligned(memory: int)
    requires M.Aligned(memory)
    ensures AlignMemory(memory) == memory
  {
  }

  // Boot and max memory are always multiples of 128 MiB, and both are positive exactly when the
  // limit can be aligned and doubled without overflow. Then boot memory is the limit, or 512 MiB without a
  // positive one, rounded up; max memory is twice that if there is a limit, but not more than the host has,
  // rounded up.
  lemma SizesAreAligned(limit: Option<int>, hostMemory: int)
    requires limit.Some? ==> Int64(limit.value)
    requires 0 < hostMemory <= TWO63 - M.ALIGNMENT
    ensures var (boot, max) := ComputeMemory(limit, hostMemory);
            && M.Aligned(boot) && M.Aligned(max)
            && (boot > 0 && max > 0 <==> limit.None? || limit.value <= LARGEST_LIMIT)
            && (boot > 0 && max > 0 ==>
                  var asked := if limit.Some? && limit.value > 0 then limit.value else DEFAULT_MEMORY;
                  && asked <= boot < asked + M.ALIGNMENT
                  && exists host :: M.Aligned(host) && hostMemory <= host < hostMemory + M.ALIGNMENT
                                    && max == if limit.Some? && boot * 2 < host then boot * 2 else host)
  {
    var request := MemoryRequest(limit);
    AlignRoundsUp(request);
    AlignRoundsUp(hostMemory);
    var boot, host := AlignMemory(request), AlignMemory(hostMemory);
    DoubleAligned(request);
    var capped := Min(Wrap(boot * 2), host);
    AlignOfAligned(capped);
    assert ComputeMemory(limit, hostMemory) == (boot, if limit.Some? then capped else host);
    assert M.Aligned(host) && hostMemory <= host < hostMemory + M.ALIGNMENT;
  }

  // ---------------------------------------------------------------- settings

  // The memory_hotplug section of the settings file, durations already parsed.
  datatype Settings = Settings(
    limits: Limits,
    upThreshold: real,
    downThreshold: real,
    marginMB: int,
    incrementMB: int,
    enableScaleDown: bool)

  datatype Fault =
    | UpThreshold | DownThreshold | ThresholdOrder | UpStability | DownStability | Margin | Increment
    | IncrementAlignment | ThrottleLimit

  // validateHotplug: the first complaint about what both sections have, if any.
  function ValidateHotplug(upThreshold: real, downThreshold: real, limits: Limits): Option<Fault> {
    if upThreshold <= 0.0 || upThreshold > 100.0 then Some(UpThreshold)
    else if downThreshold <= 0.0 || downThreshold > 100.0 then Some(DownThreshold)
    else if downThreshold >= upThreshold then Some(ThresholdOrder)
    else if limits.upStability <= 0 then Some(UpStability)
    else if limits.downStability <= 0 then Some(DownStability)
    else None
  }

  // validateMemHotplug
  function Validate(h: Settings): Option<Fault> {
    var common := ValidateHotplug(h.upThreshold, h.downThreshold, h.limits);
    if common.Some? then common
    else if h.marginMB <= 0 then Some(Margin)
    else if h.incrementMB <= 0 then Some(Increment)
    else if h.incrementMB % 128 != 0 then Some(IncrementAlignment)
    else None
  }

  // Which settings are accepted.
  lemma AcceptedSettings(h: Settings)
    ensures Validate(h).None? <==>
            && 0.0 < h.downThreshold < h.upThreshold <= 100.0
            && h.limits.upStability > 0 && h.limits.downStability > 0
            && h.marginMB > 0 && exists blocks: nat :: blocks > 0 && h.incrementMB == 128 * blocks
  {
    if h.incrementMB > 0 && h.incrementMB % 128 == 0 { assert h.incrementMB == 128 * (h.incrementMB / 128); }
  }

  // The controller configuration made from settings and sizes; MaxSlots defaults to 8.
  function ControllerConfig(h: Settings, boot: int, max: int): M.Config {
    M.Config(boot, max, Wrap(h.incrementMB * M.MIB), h.marginMB, h.upThreshold, h.downThreshold, h.limits,
             h.enableScaleDown, 8)
  }

  // The whole chain: for every limit that does not overflow, every host and every accepted settings file, a
  // controller that is started at all (max above boot) meets the hypotheses of the run theorems of
  // MemHotplugSafety, if and only if the increment in bytes is positive after wrapping to 64 bits.
  lemma StartedControllersAreSound(limit: Option<int>, hostMemory: int, h: Settings)
    requires limit.Some? ==> Int64(limit.value)
    requires 0 < hostMemory <= TWO63 - M.ALIGNMENT
    requires Validate(h) == None
    ensures var (boot, max) := ComputeMemory(limit, hostMemory);
            var cfg := ControllerConfig(h, boot, max);
            (limit.None? || limit.value <= LARGEST_LIMIT) && max > boot ==>
              (M.Validated(cfg) && M.AlignedConfig(cfg) <==> 0 < h.incrementMB % TWO44 < TWO43)
    ensures var cfg := ControllerConfig(h, 0, 0);
            && cfg.limits == h.limits && cfg.upThreshold == h.upThreshold && cfg.downThreshold == h.downThreshold
            && cfg.enableScaleDown == h.enableScaleDown && cfg.marginMB == h.marginMB && cfg.maxSlots == 8
  {
    SizesAreAligned(limit, hostMemory);
    AlignRoundsUp(hostMemory);
    IncrementWraps(h.incrementMB);
  }

  const TWO43: int := 0x800_0000_0000
  const TWO44: int := 0x1000_0000_0000

  lemma IncrementWraps(mb: int)
    requires mb > 0 && mb % 128 == 0
    ensures M.Aligned(Wrap(mb * M.MIB)) && Wrap(mb * M.MIB) < TWO63
    ensures Wrap(mb * M.MIB) > 0 <==> 0 < mb % TWO44 < TWO43
  {
    var q, r := mb / TWO44, mb % TWO44;
    BlocksOf(mb);
    WrapTurns(r / 128 * M.ALIGNMENT, q);
    BlocksWrap(r / 128);
  }

  lemma BlocksOf(mb: int)
    requires mb % 128 == 0
    ensures var q, r := mb / TWO44, mb % TWO44;
            r == r / 128 * 128 && mb * M.MIB == q * TWO64 + r / 128 * M.ALIGNMENT
  {
    var q, r := mb / TWO44, mb % TWO44;
    var k := mb / 128 - q * (TWO44 / 128);
    assert mb == mb / 128 * 128 && mb == q * TWO44 + r;
    assert r == k * 128;
  }

  // So many blocks of 128 MiB.
  lemma BlocksWrap(n: int)
    requires 0 <= n < TWO44 / 128
    ensures M.Aligned(Wrap(n * M.ALIGNMENT)) && Wrap(n * M.ALIGNMENT) < TWO63
    ensures Wrap(n * M.ALIGNMENT) > 0 <==> 0 < n < TWO43 / 128
  {
    if n < TWO43 / 128 {
      WrapFits(n * M.ALIGNMENT);
      MultipleIsAligned(n);
    } else {
      WrapPast(n * M.ALIGNMENT);
      MultipleIsAligned(n - TWO64 / M.ALIGNMENT);
    }
  }

  lemma WrapTurns(n: int, q: int)
    ensures Wrap(q * TWO64 + n) == Wrap(n)
  {
    var m := n + TWO63;
    Remainder(q * TWO64 + m, q + m / TWO64, m % TWO64);
  }

  lemma Remainder(a: int, q: int, r: int)
    requires a == q * TWO64 + r && 0 <= r < TWO64
    ensures a % TWO64 == r
  {
    var k := q - a / TWO64;
    assert k * TWO64 == a % TWO64 - r;
    assert k == 0;
  }
}
