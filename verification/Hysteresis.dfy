// The history of a hotplug controller and what "counted hysteresis" says about it.
// Both controllers (memory and CPU) write such a history.
module Hysteresis {
  import opened Base

  // What one counted reading asked for.
  datatype Reading = High | Low | Neutral

  // Counted: a reading that changed the stability counters.
  // Up / Down: a scaling operation that completed at time `at`, touching `ids`.
  // Leak: a device left plugged behind the controller's back.
  datatype Entry =
    | Counted(reading: Reading)
    | Up(ids: seq<nat>, amount: int, at: int)
    | Down(ids: seq<nat>, amount: int, at: int)
    | Leak(id: nat, amount: int)

  type Log = seq<Entry>

  // How many of the latest counted readings were `r`, looking back no further than the last
  // operation in r's own direction.
  function Streak(log: Log, r: Reading): nat {
    if log == [] then 0
    else
      var rest, last := log[..|log| - 1], log[|log| - 1];
      match last
      case Counted(x) => if x == r then 1 + Streak(rest, r) else 0
      case Up(_, _, _) => if r == High then 0 else Streak(rest, r)
      case Down(_, _, _) => if r == Low then 0 else Streak(rest, r)
      case Leak(_, _) => Streak(rest, r)
  }

  // When the latest operation of a direction completed.
  function LastUp(log: Log): Option<int> {
    if log == [] then None
    else if log[|log| - 1].Up? then Some(log[|log| - 1].at)
    else LastUp(log[..|log| - 1])
  }

  function LastDown(log: Log): Option<int> {
    if log == [] then None
    else if log[|log| - 1].Down? then Some(log[|log| - 1].at)
    else LastDown(log[..|log| - 1])
  }

  predicate CooledDown(last: Option<int>, now: int, cooldown: int) {
    last.None? || now - last.value >= cooldown
  }

  datatype Limits = Limits(upStability: int, downStability: int, upCooldown: int, downCooldown: int)

  // An entry may follow a log: an operation needs a long enough streak and a long enough pause.
  predicate MayFollow(log: Log, e: Entry, lim: Limits) {
    match e
    case Up(_, _, at) =>
      && Streak(log, High) >= lim.upStability
      && CooledDown(LastUp(log), at, lim.upCooldown) && CooledDown(LastUp(log), at, 0)
    case Down(_, _, at) =>
      && Streak(log, Low) >= lim.downStability
      && CooledDown(LastDown(log), at, lim.downCooldown) && CooledDown(LastDown(log), at, 0)
    case _ => true
  }

  predicate Disciplined(log: Log, lim: Limits) {
    log == [] || (Disciplined(log[..|log| - 1], lim) && MayFollow(log[..|log| - 1], log[|log| - 1], lim))
  }

  // The counters and timestamps a controller keeps.
  datatype Counters = Counters(high: int, low: int, lastUp: Option<int>, lastDown: Option<int>)

  // A reading counts one way and resets the other.
  function Count(k: Counters, r: Reading): Counters {
    k.(high := if r == High then k.high + 1 else 0, low := if r == Low then k.low + 1 else 0)
  }

  // The counters are what the history says they are, and the history is disciplined.
  predicate Kept(lim: Limits, k: Counters, log: Log, clock: int) {
    && k == Counters(Streak(log, High), Streak(log, Low), LastUp(log), LastDown(log))
    && (k.lastUp.Some? ==> k.lastUp.value <= clock)
    && (k.lastDown.Some? ==> k.lastDown.value <= clock)
    && Disciplined(log, lim)
  }

  lemma KeptLater(lim: Limits, k: Counters, log: Log, clock: int, later: int)
    requires Kept(lim, k, log, clock) && clock <= later
    ensures Kept(lim, k, log, later)
  {
  }

  lemma KeptCounted(lim: Limits, k: Counters, log: Log, clock: int, r: Reading)
    requires Kept(lim, k, log, clock)
    ensures Kept(lim, Count(k, r), log + [Counted(r)], clock)
  {
    assert (log + [Counted(r)])[..|log|] == log;
  }

  lemma KeptLeak(lim: Limits, k: Counters, log: Log, clock: int, e: Entry, later: int)
    requires Kept(lim, k, log, clock) && e.Leak? && clock <= later
    ensures Kept(lim, k, log + [e], later)
  {
    assert (log + [e])[..|log|] == log;
  }

  // An operation keeps the promise when the counter and the timestamp allowed it.
  lemma KeptUp(lim: Limits, k: Counters, log: Log, clock: int, e: Entry)
    requires Kept(lim, k, log, clock) && e.Up? && clock <= e.at
    requires k.high >= lim.upStability && CooledDown(k.lastUp, e.at, lim.upCooldown)
    ensures Kept(lim, k.(high := 0, lastUp := Some(e.at)), log + [e], e.at)
  {
    assert (log + [e])[..|log|] == log;
  }

  lemma KeptDown(lim: Limits, k: Counters, log: Log, clock: int, e: Entry)
    requires Kept(lim, k, log, clock) && e.Down? && clock <= e.at
    requires k.low >= lim.downStability && CooledDown(k.lastDown, e.at, lim.downCooldown)
    ensures Kept(lim, k.(low := 0, lastDown := Some(e.at)), log + [e], e.at)
  {
    assert (log + [e])[..|log|] == log;
  }

  // A tick writes at most one reading and one operation.
  function Note(log: Log, counted: Option<Reading>): Log {
    if counted.None? then log else log + [Counted(counted.value)]
  }

  function Append(log: Log, op: Option<Entry>): Log {
    if op.None? then log else log + [op.value]
  }

  // The counted readings of a log, oldest first.
  function Readings(log: Log): seq<Reading> {
    if log == [] then []
    else
      var last := log[|log| - 1];
      Readings(log[..|log| - 1]) + (if last.Counted? then [last.reading] else [])
  }

  // The last n readings are all r.
  ghost predicate EndsWith(readings: seq<Reading>, r: Reading, n: int) {
    n <= |readings| && forall i :: 0 <= |readings| - n <= i < |readings| ==> readings[i] == r
  }

  lemma ReadingsSnoc(log: Log, e: Entry)
    ensures Readings(log + [e]) == Readings(log) + (if e.Counted? then [e.reading] else [])
  {
    assert (log + [e])[..|log|] == log;
  }

  lemma StreakSnoc(log: Log, r: Reading)
    ensures Streak(log + [Counted(r)], r) == Streak(log, r) + 1
  {
    assert (log + [Counted(r)])[..|log|] == log;
  }

  // A request inside its direction's cooldown, which does not count.
  predicate Ignored(lim: Limits, log: Log, asked: Reading, now: int) {
    || (asked == High && !CooledDown(LastUp(log), now, lim.upCooldown))
    || (asked == Low && !CooledDown(LastDown(log), now, lim.downCooldown))
  }

  // What a streak means: the latest Streak(log, r) counted readings all asked for r.
  lemma {:induction false} StreakMeansLatestReadings(log: Log, r: Reading)
    ensures Streak(log, r) <= |Readings(log)|
    ensures forall i :: |Readings(log)| - Streak(log, r) <= i < |Readings(log)| ==> Readings(log)[i] == r
  {
    if log != [] {
      StreakMeansLatestReadings(log[..|log| - 1], r);
    }
  }

  lemma {:induction false} LastUpIsLatest(log: Log, lim: Limits)
    requires Disciplined(log, lim)
    ensures forall i :: 0 <= i < |log| && log[i].Up? ==> LastUp(log).Some? && log[i].at <= LastUp(log).value
    ensures forall i :: 0 <= i < |log| && log[i].Down? ==> LastDown(log).Some? && log[i].at <= LastDown(log).value
  {
    if log != [] {
      var front := log[..|log| - 1];
      LastUpIsLatest(front, lim);
      assert forall i :: 0 <= i < |front| ==> front[i] == log[i];
    }
  }

  // Counted hysteresis over a whole history: at every completed operation the latest Stability
  // counted readings all asked for it.
  lemma {:induction false} OperationsAreEarned(log: Log, lim: Limits, j: nat)
    requires Disciplined(log, lim) && j < |log|
    ensures log[j].Up? ==> EndsWith(Readings(log[..j]), High, lim.upStability)
    ensures log[j].Down? ==> EndsWith(Readings(log[..j]), Low, lim.downStability)
  {
    var front := log[..|log| - 1];
    if j < |front| {
      OperationsAreEarned(front, lim, j);
      assert front[..j] == log[..j];
    } else {
      StreakMeansLatestReadings(front, High);
      StreakMeansLatestReadings(front, Low);
    }
  }

  // Two operations of one direction are a cooldown apart.
  lemma {:induction false} OperationsAreSpaced(log: Log, lim: Limits, i: nat, j: nat)
    requires Disciplined(log, lim) && i < j < |log|
    ensures log[i].Up? && log[j].Up? ==> log[j].at - log[i].at >= lim.upCooldown
    ensures log[i].Down? && log[j].Down? ==> log[j].at - log[i].at >= lim.downCooldown
  {
    var front := log[..|log| - 1];
    if j < |front| {
      OperationsAreSpaced(front, lim, i, j);
    } else {
      LastUpIsLatest(front, lim);
      assert front[i] == log[i];
    }
  }

  // Every operation of a history is earned, and operations of one direction are a cooldown apart.
  ghost predicate Counts(log: Log, lim: Limits) {
    && (forall j: nat :: j < |log| && log[j].Up? ==> EndsWith(Readings(log[..j]), High, lim.upStability))
    && (forall j: nat :: j < |log| && log[j].Down? ==> EndsWith(Readings(log[..j]), Low, lim.downStability))
    && (forall i: nat, j: nat :: i < j < |log| && log[i].Up? && log[j].Up? ==>
          log[j].at - log[i].at >= lim.upCooldown)
    && (forall i: nat, j: nat :: i < j < |log| && log[i].Down? && log[j].Down? ==>
          log[j].at - log[i].at >= lim.downCooldown)
  }

  lemma DisciplineCounts(log: Log, lim: Limits)
    requires Disciplined(log, lim)
    ensures Counts(log, lim)
  {
    forall j: nat | j < |log|
      ensures log[j].Up? ==> EndsWith(Readings(log[..j]), High, lim.upStability)
      ensures log[j].Down? ==> EndsWith(Readings(log[..j]), Low, lim.downStability)
    {
      OperationsAreEarned(log, lim, j);
    }
    forall i: nat, j: nat | i < j < |log|
      ensures log[i].Up? && log[j].Up? ==> log[j].at - log[i].at >= lim.upCooldown
      ensures log[i].Down? && log[j].Down? ==> log[j].at - log[i].at >= lim.downCooldown
    {
      OperationsAreSpaced(log, lim, i, j);
    }
  }

  // ---------------------------------------------------------------- one direction only

  // Growing reaches sizes that cannot shrink (`tight`), shrinking sizes that cannot grow (`roomy`),
  // and a step from a tight (roomy) size stays tight (roomy).
  ghost predicate OneWay(tight: int -> bool, roomy: int -> bool, t: int, t': int) {
    && (tight(t) || t' > t ==> tight(t') && t' >= t)
    && (roomy(t) || t' < t ==> roomy(t') && t' <= t)
  }

  // A sequence of such steps never goes both ways.
  lemma {:induction false} OneWayForever(tight: int -> bool, roomy: int -> bool, sizes: seq<int>)
    requires |sizes| > 0
    requires forall k :: 0 <= k < |sizes| - 1 ==> OneWay(tight, roomy, sizes[k], sizes[k + 1])
    ensures (exists k :: 0 <= k < |sizes| - 1 && sizes[k + 1] > sizes[k]) ==>
              tight(sizes[|sizes| - 1]) && forall k :: 0 <= k < |sizes| - 1 ==> sizes[k + 1] >= sizes[k]
    ensures (exists k :: 0 <= k < |sizes| - 1 && sizes[k + 1] < sizes[k]) ==>
              roomy(sizes[|sizes| - 1]) && forall k :: 0 <= k < |sizes| - 1 ==> sizes[k + 1] <= sizes[k]
  {
    if |sizes| > 1 {
      var front := sizes[..|sizes| - 1];
      forall k | 0 <= k < |front| - 1 ensures OneWay(tight, roomy, front[k], front[k + 1]) {
        assert front[k] == sizes[k] && front[k + 1] == sizes[k + 1];
      }
      OneWayForever(tight, roomy, front);
      var n := |front| - 1;
      assert OneWay(tight, roomy, sizes[n], sizes[n + 1]);
    }
  }

  function Changes(sizes: seq<int>): nat {
    if |sizes| < 2 then 0 else (if sizes[0] != sizes[1] then 1 else 0) + Changes(sizes[1..])
  }

  // Going one way only, every change is paid for by the distance covered.
  lemma {:induction false} ChangesAreBounded(sizes: seq<int>)
    requires |sizes| > 0
    requires || (forall k :: 0 <= k < |sizes| - 1 ==> sizes[k + 1] >= sizes[k])
             || (forall k :: 0 <= k < |sizes| - 1 ==> sizes[k + 1] <= sizes[k])
    ensures Changes(sizes) <= Max(sizes[|sizes| - 1] - sizes[0], sizes[0] - sizes[|sizes| - 1])
    ensures (forall k :: 0 <= k < |sizes| - 1 ==> sizes[k + 1] >= sizes[k]) ==> sizes[0] <= sizes[|sizes| - 1]
    ensures (forall k :: 0 <= k < |sizes| - 1 ==> sizes[k + 1] <= sizes[k]) ==> sizes[0] >= sizes[|sizes| - 1]
  {
    if |sizes| > 1 {
      var rest := sizes[1..];
      assert forall k :: 0 <= k < |rest| - 1 ==> rest[k] == sizes[k + 1];
      if forall k :: 0 <= k < |sizes| - 1 ==> sizes[k + 1] >= sizes[k] {
        forall k | 0 <= k < |rest| - 1 ensures rest[k + 1] >= rest[k] { assert rest[k + 1] == sizes[k + 2]; }
      } else {
        forall k | 0 <= k < |rest| - 1 ensures rest[k + 1] <= rest[k] { assert rest[k + 1] == sizes[k + 2]; }
      }
      ChangesAreBounded(rest);
      assert sizes[1] == rest[0] && rest[|rest| - 1] == sizes[|sizes| - 1];
      assert sizes[0 + 1] == sizes[1];
    }
  }
}
