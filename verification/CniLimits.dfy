// What single flight does not promise, and exactly when it goes wrong.
module CniLimits {
  import opened Base
  import opened CniSingleFlight
  import opened CniSafety

  // ---------------------------------------------------------------- a second setup

  // The step stores a result for the container.
  predicate Stores(s: Sys, step: Step, id: nat) {
    && step.WriteCache? && step.caller in s.callers && s.callers[step.caller].key == Key(Setup, id)
    && s.callers[step.caller].pc.Worked? && s.callers[step.caller].pc.o.Success?
  }

  // A result is stored at m and not cleared before j.
  ghost predicate StoredSince(run: seq<Sys>, steps: seq<Step>, m: nat, j: nat, id: nat)
    requires j < |run| == |steps| + 1
  {
    m < j && Stores(run[m], steps[m], id) && forall q :: m < q < j ==> !Clears(run[q], steps[q], id)
  }

  // A caller that is about to take the lock for a setup has looked into the cache and found nothing.
  lemma {:induction false} LookedBefore(run: seq<Sys>, steps: seq<Step>, j: nat, a: nat) returns (i: nat)
    requires IsRun(run, steps) && j < |run| && a in run[j].callers
    requires run[j].callers[a].pc.Joining? && run[j].callers[a].key.op == Setup
    ensures i < j && steps[i] == ReadCache(a) && run[j].callers[a].key.id !in run[i].shared.cache
    decreases j
  {
    assert j > 0;
    var s, step := run[j - 1], steps[j - 1];
    assert Enabled(s, step) && run[j] == Next(s, step);
    if a in s.callers && s.callers[a].pc.Joining? {
      i := LookedBefore(run, steps, j - 1, a);
    } else {
      i := j - 1;
    }
  }

  // What was not cached and is cached now was stored in between.
  lemma {:induction false} StoreBetween(run: seq<Sys>, steps: seq<Step>, i: nat, j: nat, id: nat) returns (m: nat)
    requires IsRun(run, steps) && i <= j < |run| && id !in run[i].shared.cache && id in run[j].shared.cache
    ensures i <= m && StoredSince(run, steps, m, j, id)
    decreases j
  {
    var s, step := run[j - 1], steps[j - 1];
    assert Enabled(s, step) && run[j] == Next(s, step);
    if id in s.shared.cache {
      m := StoreBetween(run, steps, i, j - 1, id);
    } else {
      m := j - 1;
    }
  }

  lemma StoredStays(run: seq<Sys>, steps: seq<Step>, m: nat, j: nat, id: nat)
    requires IsRun(run, steps) && j < |run| && StoredSince(run, steps, m, j, id)
    ensures id in run[j].shared.cache
  {
    assert Enabled(run[m], steps[m]) && run[m + 1] == Next(run[m], steps[m]);
    StaysCached(run, steps, m + 1, j, id);
  }

  // The caller starts the plugins although a result is stored.
  ghost predicate SetsUpAgain(run: seq<Sys>, steps: seq<Step>, j: nat)
    requires IsRun(run, steps) && j < |steps| && steps[j].TakeLock?
  {
    var a := steps[j].caller;
    run[j].callers[a].key.id in run[j].shared.cache && run[j + 1].callers[a].pc.Working?
  }

  // In every run, a setup runs again exactly when, at the time its caller takes the lock, none is in flight,
  // and a result was stored, and not cleared, since that caller looked into the cache.
  lemma SecondSetupExactly(run: seq<Sys>, steps: seq<Step>, j: nat) returns (i: nat)
    requires IsRun(run, steps) && j < |steps| && steps[j].TakeLock?
    requires run[j].callers[steps[j].caller].key.op == Setup
    ensures i < j && steps[i] == ReadCache(steps[j].caller)
    ensures var key := run[j].callers[steps[j].caller].key;
            SetsUpAgain(run, steps, j) <==>
            key !in run[j].shared.inFlight && exists m :: i < m && StoredSince(run, steps, m, j, key.id)
  {
    var a := steps[j].caller;
    var key := run[j].callers[a].key;
    assert Enabled(run[j], steps[j]) && run[j + 1] == Next(run[j], steps[j]);
    i := LookedBefore(run, steps, j, a);
    if key.id in run[j].shared.cache {
      var m := StoreBetween(run, steps, i, j, key.id);
      assert i < m && StoredSince(run, steps, m, j, key.id);
    }
    if m :| i < m && StoredSince(run, steps, m, j, key.id) { StoredStays(run, steps, m, j, key.id); }
  }

  // ---------------------------------------------------------------- a setup and a teardown at once

  predicate Works(s: Sys, a: nat) { a in s.callers && s.callers[a].pc.Working? }

  // A caller that runs the plugins took the lock, and has run them since.
  lemma {:induction false} TookLock(run: seq<Sys>, steps: seq<Step>, k: nat, a: nat) returns (j: nat)
    requires IsRun(run, steps) && k < |run| && Works(run[k], a)
    ensures j < k && steps[j] == TakeLock(a)
    ensures forall m :: j < m <= k ==> Works(run[m], a)
    ensures forall m :: j < m < k ==> !(steps[m].Perform? && steps[m].caller == a)
    decreases k
  {
    assert k > 0;
    var s, step := run[k - 1], steps[k - 1];
    assert Enabled(s, step) && run[k] == Next(s, step);
    if Works(s, a) {
      j := TookLock(run, steps, k - 1, a);
    } else {
      j := k - 1;
    }
  }

  // It runs them until they come to an end.
  lemma {:induction false} StaysWorking(run: seq<Sys>, steps: seq<Step>, j: nat, k: nat, a: nat)
    requires IsRun(run, steps) && j <= k < |run| && Works(run[j], a)
    requires forall m :: j <= m < k ==> !(steps[m].Perform? && steps[m].caller == a)
    ensures Works(run[k], a)
    decreases k
  {
    if j < k {
      StaysWorking(run, steps, j, k - 1, a);
      assert Enabled(run[k - 1], steps[k - 1]) && run[k] == Next(run[k - 1], steps[k - 1]);
    }
  }

  // One of the two becomes a leader while the other runs the plugins.
  ghost predicate Meet(run: seq<Sys>, steps: seq<Step>, j: nat, a: nat, b: nat)
    requires j < |steps| && |run| == |steps| + 1
  {
    || (steps[j] == TakeLock(a) && Works(run[j + 1], a) && Works(run[j], b))
    || (steps[j] == TakeLock(b) && Works(run[j + 1], b) && Works(run[j], a))
  }

  // They met at j, and the plugins of neither have come to an end by k.
  ghost predicate MetAt(run: seq<Sys>, steps: seq<Step>, j: nat, k: nat, a: nat, b: nat)
    requires k < |run| == |steps| + 1
  {
    && j < k && Meet(run, steps, j, a, b)
    && forall m :: j < m < k && steps[m].Perform? ==> steps[m].caller != a && steps[m].caller != b
  }

  // In every run, two callers run plugins at once, whatever for, exactly when one of them took the lock, as a
  // leader, while the other ran them, and neither has come to an end since. In particular a setup and a
  // teardown of one container.
  lemma OverlapExactly(run: seq<Sys>, steps: seq<Step>, k: nat, a: nat, b: nat)
    requires IsRun(run, steps) && k < |run| && a != b
    ensures Works(run[k], a) && Works(run[k], b) <==> exists j: nat :: MetAt(run, steps, j, k, a, b)
  {
    if Works(run[k], a) && Works(run[k], b) {
      var i := TookLock(run, steps, k, a);
      var j := TookLock(run, steps, k, b);
      assert MetAt(run, steps, if i < j then j else i, k, a, b);
    }
    if j: nat :| MetAt(run, steps, j, k, a, b) {
      assert Enabled(run[j], steps[j]) && run[j + 1] == Next(run[j], steps[j]);
      StaysWorking(run, steps, j + 1, k, a);
      StaysWorking(run, steps, j + 1, k, b);
    }
  }

  // ---------------------------------------------------------------- callers that keep them apart

  predicate Finished(pc: Pc) { pc.Returned? || pc.Hit? || pc.Cancelled? }

  // A call on the container that has not returned.
  predicate UnderWay(s: Sys, a: nat, key: Key) {
    a in s.callers && s.callers[a].key == key && !Finished(s.callers[a].pc)
  }

  function Opposite(key: Key): Key { Key(if key.op == Setup then Teardown else Setup, key.id) }

  // No setup of the container is called while a teardown of it is under way, nor the other way round.
  ghost predicate Apart(run: seq<Sys>, steps: seq<Step>, id: nat)
    requires |run| == |steps| + 1
  {
    forall i, b :: 0 <= i < |steps| && steps[i].Call? && steps[i].key.id == id ==>
      !UnderWay(run[i], b, Opposite(steps[i].key))
  }

  lemma {:induction false} CalledAt(run: seq<Sys>, steps: seq<Step>, k: nat, a: nat, key: Key) returns (i: nat)
    requires IsRun(run, steps) && k < |run| && UnderWay(run[k], a, key)
    ensures i < k && steps[i] == Call(a, key) && a !in run[i].callers
    ensures forall m :: i < m <= k ==> UnderWay(run[m], a, key)
    decreases k
  {
    assert k > 0;
    var s, step := run[k - 1], steps[k - 1];
    assert Enabled(s, step) && run[k] == Next(s, step);
    if a in s.callers {
      i := CalledAt(run, steps, k - 1, a, key);
    } else {
      i := k - 1;
    }
  }

  // A setup and a teardown under way together: the later one was called while the earlier was under way.
  lemma TogetherIsNotApart(run: seq<Sys>, steps: seq<Step>, id: nat, k: nat, a: nat, b: nat)
    requires IsRun(run, steps) && k < |run|
    requires UnderWay(run[k], a, Key(Setup, id)) && UnderWay(run[k], b, Key(Teardown, id))
    ensures !Apart(run, steps, id)
  {
    var i := CalledAt(run, steps, k, a, Key(Setup, id));
    var j := CalledAt(run, steps, k, b, Key(Teardown, id));
    if i < j {
      assert UnderWay(run[j], a, Opposite(steps[j].key));
    } else {
      assert UnderWay(run[i], b, Opposite(steps[i].key));
    }
  }

  // Callers that keep the two apart never have them run at once.
  lemma ApartNeverOverlap(run: seq<Sys>, steps: seq<Step>, id: nat, k: nat, a: nat, b: nat)
    requires IsRun(run, steps) && Apart(run, steps, id) && k < |run| && a in run[k].callers && b in run[k].callers
    requires run[k].callers[a].key == Key(Setup, id) && run[k].callers[b].key == Key(Teardown, id)
    ensures !(Works(run[k], a) && Works(run[k], b))
  {
    if Works(run[k], a) && Works(run[k], b) { TogetherIsNotApart(run, steps, id, k, a, b); }
  }
}
