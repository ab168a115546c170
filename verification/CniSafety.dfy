// Single flight in every interleaving.
module CniSafety {
  import opened Base
  import opened CniSingleFlight

  // ---------------------------------------------------------------- steps

  lemma SameCache(s: Sys, t: Sys)
    requires CacheOk(s) && t.shared.cache == s.shared.cache && t.writes == s.writes
    ensures CacheOk(t)
  {
    forall id: nat ensures CacheAt(t.shared.cache, id) == Latest(t.writes, id) {
      assert CacheAt(s.shared.cache, id) == Latest(s.writes, id);
    }
  }

  // A step that moves one caller between states in which it leads nothing.
  lemma QuietKeeps(s: Sys, a: nat, c: Caller)
    requires Inv(s) && (a in s.callers ==> !Leads(s.callers[a].pc) && !s.callers[a].pc.Returned?)
    requires !Leads(c.pc) && !c.pc.Returned?
    requires c.pc.Waiting? ==> c.pc.t in s.shared.trackers && s.shared.trackers[c.pc.t].key == c.key
    ensures Inv(s.(callers := s.callers[a := c]))
  {
    var t := s.(callers := s.callers[a := c]);
    SameCache(s, t);
    forall b | b in t.callers ensures CallerOk(t, b) { assert b != a ==> CallerOk(s, b); }
    forall n | n in t.shared.trackers ensures TrackerOk(t, n) { assert TrackerOk(s, n); }
    forall key | key in t.shared.inFlight ensures InFlightOk(t, key) { assert InFlightOk(s, key); }
  }

  lemma JoinKeeps(s: Sys, a: nat)
    requires Inv(s) && Enabled(s, TakeLock(a))
    ensures Inv(Next(s, TakeLock(a)))
  {
    var t := Next(s, TakeLock(a));
    var key := s.callers[a].key;
    SameCache(s, t);
    if key in s.shared.inFlight {
      assert InFlightOk(s, key);
      QuietKeeps(s, a, Caller(key, Waiting(s.shared.inFlight[key])));
    } else {
      forall n | n in s.shared.trackers ensures n < s.shared.next { assert TrackerOk(s, n); }
      forall b | b in t.callers ensures CallerOk(t, b) { assert CallerOk(s, b); }
      forall n | n in t.shared.trackers ensures TrackerOk(t, n) { assert n in s.shared.trackers ==> TrackerOk(s, n); }
      forall k | k in t.shared.inFlight ensures InFlightOk(t, k) { assert k in s.shared.inFlight ==> InFlightOk(s, k); }
    }
  }

  // The worker goes on to pc and changes at most its own tracker.
  lemma LeaderKeeps(s: Sys, a: nat, pc: Pc, tr: Tracker)
    requires Inv(s) && a in s.callers && Leads(s.callers[a].pc) && Leads(pc) && pc.t == s.callers[a].pc.t
    requires pc.t in s.shared.trackers && tr.key == s.shared.trackers[pc.t].key && tr.worker == a && Matches(tr, pc)
    requires s.shared.trackers[pc.t].outcome.Some? ==> tr.outcome == s.shared.trackers[pc.t].outcome
    requires s.shared.trackers[pc.t].closes == 0
    ensures Inv(s.(callers := s.callers[a := s.callers[a].(pc := pc)],
                   shared := s.shared.(trackers := s.shared.trackers[pc.t := tr])))
  {
    var t := s.(callers := s.callers[a := s.callers[a].(pc := pc)],
                shared := s.shared.(trackers := s.shared.trackers[pc.t := tr]));
    SameCache(s, t);
    assert CallerOk(s, a);
    forall b | b in t.callers ensures CallerOk(t, b) { assert CallerOk(s, b); }
    forall n | n in t.shared.trackers ensures TrackerOk(t, n) { assert TrackerOk(s, n); }
    forall key | key in t.shared.inFlight ensures InFlightOk(t, key) { assert InFlightOk(s, key); }
  }

  lemma PerformKeeps(s: Sys, a: nat, o: Outcome)
    requires Inv(s) && Enabled(s, Perform(a, o))
    ensures Inv(Next(s, Perform(a, o)))
  {
    assert CallerOk(s, a);
    var t := s.callers[a].pc.t;
    LeaderKeeps(s, a, Worked(t, o), s.shared.trackers[t]);
    assert s.shared.trackers[t := s.shared.trackers[t]] == s.shared.trackers;
  }

  lemma SettleKeeps(s: Sys, a: nat)
    requires Inv(s) && Enabled(s, SetOutcome(a))
    ensures Inv(Next(s, SetOutcome(a)))
  {
    assert CallerOk(s, a);
    var pc := s.callers[a].pc;
    LeaderKeeps(s, a, Settled(pc.t, pc.o), s.shared.trackers[pc.t].(outcome := Some(pc.o)));
  }

  lemma CloseKeeps(s: Sys, a: nat)
    requires Inv(s) && Enabled(s, CloseDone(a))
    ensures Inv(Next(s, CloseDone(a)))
  {
    assert CallerOk(s, a);
    var pc := s.callers[a].pc;
    LeaderKeeps(s, a, Closed(pc.t, pc.o), s.shared.trackers[pc.t].(closes := s.shared.trackers[pc.t].closes + 1));
  }

  lemma WriteCacheOk(s: Sys, key: Key, o: Outcome)
    requires CacheOk(s)
    ensures CacheOk(s.(shared := Write(s.shared, key, o), writes := s.writes + Entry(key, o)))
  {
    var t := s.(shared := Write(s.shared, key, o), writes := s.writes + Entry(key, o));
    assert Entry(key, o) != [] ==> t.writes[..|t.writes| - 1] == s.writes;
    assert Entry(key, o) == [] ==> t.writes == s.writes;
    forall id: nat ensures CacheAt(t.shared.cache, id) == Latest(t.writes, id) {
      assert CacheAt(s.shared.cache, id) == Latest(s.writes, id);
    }
  }

  lemma WrittenKeeps(s: Sys, key: Key, o: Outcome)
    requires Inv(s)
    ensures Inv(s.(shared := Write(s.shared, key, o), writes := s.writes + Entry(key, o)))
  {
    var u := s.(shared := Write(s.shared, key, o), writes := s.writes + Entry(key, o));
    WriteCacheOk(s, key, o);
    forall b | b in u.callers ensures CallerOk(u, b) { assert CallerOk(s, b); }
    forall n | n in u.shared.trackers ensures TrackerOk(u, n) { assert TrackerOk(s, n); }
    forall k | k in u.shared.inFlight ensures InFlightOk(u, k) { assert InFlightOk(s, k); }
  }

  lemma WriteKeeps(s: Sys, a: nat)
    requires Inv(s) && Enabled(s, WriteCache(a))
    ensures Inv(Next(s, WriteCache(a)))
  {
    assert CallerOk(s, a);
    var pc, key := s.callers[a].pc, s.callers[a].key;
    var u := s.(shared := Write(s.shared, key, pc.o), writes := s.writes + Entry(key, pc.o));
    WrittenKeeps(s, key, pc.o);
    LeaderKeeps(u, a, Written(pc.t, pc.o), u.shared.trackers[pc.t]);
    assert u.shared.trackers[pc.t := u.shared.trackers[pc.t]] == u.shared.trackers;
  }

  // Only one caller leads a key.
  lemma OneLeader(s: Sys, a: nat, b: nat)
    requires Inv(s) && a in s.callers && b in s.callers && Leads(s.callers[a].pc) && Leads(s.callers[b].pc)
    requires s.callers[a].key == s.callers[b].key
    ensures a == b
  {
    assert CallerOk(s, a) && CallerOk(s, b);
  }

  lemma DeleteKeeps(s: Sys, a: nat)
    requires Inv(s) && Enabled(s, Delete(a))
    ensures Inv(Next(s, Delete(a)))
  {
    var t := Next(s, Delete(a));
    SameCache(s, t);
    assert CallerOk(s, a);
    forall b | b in t.callers ensures CallerOk(t, b) {
      assert CallerOk(s, b);
      if b != a && Leads(s.callers[b].pc) && s.callers[b].key == s.callers[a].key { OneLeader(s, a, b); }
    }
    forall n | n in t.shared.trackers ensures TrackerOk(t, n) { assert TrackerOk(s, n); }
    forall k | k in t.shared.inFlight ensures InFlightOk(t, k) {
      assert InFlightOk(s, k);
      assert s.shared.trackers[s.shared.inFlight[k]].worker != a by {
        assert TrackerOk(s, s.shared.inFlight[k]);
      }
    }
  }

  // A waiter returns what its tracker holds.
  lemma WakeKeeps(s: Sys, a: nat)
    requires Inv(s) && Enabled(s, Wake(a))
    ensures Inv(Next(s, Wake(a)))
  {
    var t := Next(s, Wake(a));
    SameCache(s, t);
    assert CallerOk(s, a) && TrackerOk(s, s.callers[a].pc.t);
    forall b | b in t.callers ensures CallerOk(t, b) { assert CallerOk(s, b); }
    forall n | n in t.shared.trackers ensures TrackerOk(t, n) { assert TrackerOk(s, n); }
    forall k | k in t.shared.inFlight ensures InFlightOk(t, k) { assert InFlightOk(s, k); }
  }

  lemma StepKeeps(s: Sys, step: Step)
    requires Inv(s) && Enabled(s, step)
    ensures Inv(Next(s, step))
  {
    var a := step.caller;
    match step
    case Call(_, key) => QuietKeeps(s, a, Caller(key, if key.op == Setup then Called else Joining));
    case ReadCache(_) =>
      var c := s.callers[a];
      QuietKeeps(s, a, c.(pc := if c.key.id in s.shared.cache then Hit(s.shared.cache[c.key.id]) else Joining));
    case TakeLock(_) => JoinKeeps(s, a);
    case Perform(_, o) => PerformKeeps(s, a, o);
    case WriteCache(_) => WriteKeeps(s, a);
    case SetOutcome(_) => SettleKeeps(s, a);
    case CloseDone(_) => CloseKeeps(s, a);
    case Delete(_) => DeleteKeeps(s, a);
    case Wake(_) => WakeKeeps(s, a);
    case Cancel(_) => QuietKeeps(s, a, s.callers[a].(pc := Cancelled));
  }

  // ---------------------------------------------------------------- runs

  ghost predicate IsRun(run: seq<Sys>, steps: seq<Step>) {
    && |run| == |steps| + 1 && run[0] == Initial()
    && forall i :: 0 <= i < |steps| ==> Enabled(run[i], steps[i]) && run[i + 1] == Next(run[i], steps[i])
  }

  lemma {:induction false} RunsKeep(run: seq<Sys>, steps: seq<Step>, k: nat)
    requires IsRun(run, steps) && k < |run|
    ensures Inv(run[k])
  {
    if k > 0 {
      RunsKeep(run, steps, k - 1);
      StepKeeps(run[k - 1], steps[k - 1]);
    }
  }

  // Both callers lead the same operation on the same container: they run the plugins, or write the cache,
  // or have still to publish the outcome or to delete the tracker.
  predicate LeadSameKey(s: Sys, a: nat, b: nat) {
    && a in s.callers && b in s.callers && s.callers[a].key == s.callers[b].key
    && Leads(s.callers[a].pc) && Leads(s.callers[b].pc)
  }

  // In every interleaving, at every point: at most one caller leads a key; callers that went through the
  // same tracker return the same outcome, the one its worker returns with; done is closed at most once, and
  // not before there is an outcome; and a key is in flight if and only if a caller leads it.
  lemma SingleFlight(run: seq<Sys>, steps: seq<Step>, k: nat)
    requires IsRun(run, steps) && k < |run|
    ensures var s := run[k];
            && (forall a, b :: LeadSameKey(s, a, b) ==> a == b)
            && (forall a :: a in s.callers && s.callers[a].pc.Returned? ==> ReturnsWorkersOutcome(s, a))
            && (forall t :: t in s.shared.trackers ==> ClosedWithOutcome(s.shared.trackers[t]))
            && (forall key: Key :: key in s.shared.inFlight <==> exists a :: LeadsKey(s, a, key))
  {
    RunsKeep(run, steps, k);
    var s := run[k];
    forall a, b | LeadSameKey(s, a, b) ensures a == b { OneLeader(s, a, b); }
    forall a | a in s.callers && s.callers[a].pc.Returned? ensures ReturnsWorkersOutcome(s, a) {
      assert CallerOk(s, a) && TrackerOk(s, s.callers[a].pc.t);
    }
    forall t | t in s.shared.trackers ensures ClosedWithOutcome(s.shared.trackers[t]) { assert TrackerOk(s, t); }
    forall key: Key ensures key in s.shared.inFlight <==> exists a :: LeadsKey(s, a, key) {
      InFlightIsLed(s, key);
    }
  }

  predicate ClosedWithOutcome(tr: Tracker) { tr.closes <= 1 && (tr.closes > 0 ==> tr.outcome.Some?) }

  predicate LeadsKey(s: Sys, a: nat, key: Key) {
    a in s.callers && s.callers[a].key == key && Leads(s.callers[a].pc)
  }

  lemma InFlightIsLed(s: Sys, key: Key)
    requires Inv(s)
    ensures key in s.shared.inFlight <==> exists a :: LeadsKey(s, a, key)
  {
    if key in s.shared.inFlight {
      var t := s.shared.inFlight[key];
      assert InFlightOk(s, key) && TrackerOk(s, t);
      assert LeadsKey(s, s.shared.trackers[t].worker, key);
    }
    if a :| LeadsKey(s, a, key) { assert CallerOk(s, a); }
  }

  // The worker of the tracker is done with it (or about to delete it), with the same outcome.
  predicate ReturnsWorkersOutcome(s: Sys, a: nat)
    requires a in s.callers && s.callers[a].pc.Returned?
  {
    var pc := s.callers[a].pc;
    && pc.t in s.shared.trackers && s.shared.trackers[pc.t].key == s.callers[a].key
    && var w := s.shared.trackers[pc.t].worker;
       w in s.callers && s.callers[w].key == s.callers[a].key &&
       (s.callers[w].pc == Closed(pc.t, pc.o) || s.callers[w].pc == Returned(pc.t, pc.o))
  }

  // ---------------------------------------------------------------- the cache

  predicate Clears(s: Sys, step: Step, id: nat) {
    step.WriteCache? && step.caller in s.callers && s.callers[step.caller].key == Key(Teardown, id)
  }

  lemma {:induction false} StaysCached(run: seq<Sys>, steps: seq<Step>, i: nat, j: nat, id: nat)
    requires IsRun(run, steps) && i <= j < |run| && id in run[i].shared.cache
    requires forall m :: i <= m < j ==> !Clears(run[m], steps[m], id)
    ensures id in run[j].shared.cache
    decreases j
  {
    if i < j {
      StaysCached(run, steps, i, j - 1, id);
      assert !Clears(run[j - 1], steps[j - 1], id);
      assert Enabled(run[j - 1], steps[j - 1]) && run[j] == Next(run[j - 1], steps[j - 1]);
    }
  }

  // After a successful setup, and until a teardown clears it, a call that starts does no setup: it
  // takes the latest stored result.
  lemma NextCallHits(run: seq<Sys>, steps: seq<Step>, i: nat, j: nat)
    requires IsRun(run, steps) && i < j < |steps|
    requires steps[i].WriteCache? && run[i].callers[steps[i].caller].key.op == Setup
    requires run[i].callers[steps[i].caller].pc.o.Success?
    requires steps[j].ReadCache? && run[j].callers[steps[j].caller].key.id == run[i].callers[steps[i].caller].key.id
    requires forall m :: i < m < j ==> !Clears(run[m], steps[m], run[i].callers[steps[i].caller].key.id)
    ensures var pc := run[j + 1].callers[steps[j].caller].pc;
            pc.Hit? && Latest(run[j].writes, run[i].callers[steps[i].caller].key.id) == Some(pc.value)
  {
    var id := run[i].callers[steps[i].caller].key.id;
    assert run[i + 1] == Next(run[i], steps[i]);
    StaysCached(run, steps, i + 1, j, id);
    RunsKeep(run, steps, j);
    assert run[j + 1] == Next(run[j], steps[j]);
  }

  predicate Stores(s: Sys, step: Step, id: nat) {
    && step.WriteCache? && step.caller in s.callers && s.callers[step.caller].key == Key(Setup, id)
    && s.callers[step.caller].pc.Worked? && s.callers[step.caller].pc.o.Success?
  }

  lemma {:induction false} StaysCleared(run: seq<Sys>, steps: seq<Step>, i: nat, j: nat, id: nat)
    requires IsRun(run, steps) && i <= j < |run| && id !in run[i].shared.cache
    requires forall m :: i <= m < j ==> !Stores(run[m], steps[m], id)
    ensures id !in run[j].shared.cache
    decreases j
  {
    if i < j {
      StaysCleared(run, steps, i, j - 1, id);
      assert !Stores(run[j - 1], steps[j - 1], id);
      assert Enabled(run[j - 1], steps[j - 1]) && run[j] == Next(run[j - 1], steps[j - 1]);
    }
  }

  // After a teardown, whatever the plugins answered, and until a setup stores a result again, a setup that
  // starts finds none.
  lemma NextCallMisses(run: seq<Sys>, steps: seq<Step>, i: nat, j: nat, id: nat)
    requires IsRun(run, steps) && i < j < |steps| && Clears(run[i], steps[i], id)
    requires steps[j].ReadCache? && run[j].callers[steps[j].caller].key.id == id
    requires forall m :: i < m < j ==> !Stores(run[m], steps[m], id)
    ensures run[j + 1].callers[steps[j].caller].pc == Joining
  {
    assert Enabled(run[i], steps[i]) && run[i + 1] == Next(run[i], steps[i]);
    StaysCleared(run, steps, i + 1, j, id);
    assert Enabled(run[j], steps[j]) && run[j + 1] == Next(run[j], steps[j]);
  }

  // The result that a call takes from the cache is the one that the latest successful setup stored.
  lemma {:induction false} CachedIsStored(run: seq<Sys>, steps: seq<Step>, j: nat, id: nat) returns (m: nat)
    requires IsRun(run, steps) && j < |run| && id in run[j].shared.cache
    ensures m < j && Stores(run[m], steps[m], id)
    ensures run[j].shared.cache[id] == run[m].callers[steps[m].caller].pc.o.value
    ensures forall n :: m < n < j ==> !Stores(run[n], steps[n], id) && !Clears(run[n], steps[n], id)
    decreases j
  {
    assert j > 0;
    var s, step := run[j - 1], steps[j - 1];
    assert Enabled(s, step) && run[j] == Next(s, step);
    if Stores(s, step, id) { m := j - 1; } else { m := CachedIsStored(run, steps, j - 1, id); }
  }

  // ---------------------------------------------------------------- what is not promised

  // A setup and a teardown of one container can run their plugins at the same time.
  lemma SetupMeetsTeardown(id: nat) returns (run: seq<Sys>, steps: seq<Step>)
    ensures IsRun(run, steps)
    ensures var s := run[|run| - 1];
            && 0 in s.callers && s.callers[0].key == Key(Setup, id) && s.callers[0].pc.Working?
            && 1 in s.callers && s.callers[1].key == Key(Teardown, id) && s.callers[1].pc.Working?
  {
    steps := [Call(0, Key(Setup, id)), ReadCache(0), TakeLock(0), Call(1, Key(Teardown, id)), TakeLock(1)];
    var s0 := Initial();
    var s1 := Next(s0, steps[0]);
    var s2 := Next(s1, steps[1]);
    var s3 := Next(s2, steps[2]);
    var s4 := Next(s3, steps[3]);
    var s5 := Next(s4, steps[4]);
    run := [s0, s1, s2, s3, s4, s5];
  }

  lemma Extend(run: seq<Sys>, steps: seq<Step>, step: Step)
    requires IsRun(run, steps) && Enabled(run[|steps|], step)
    ensures IsRun(run + [Next(run[|steps|], step)], steps + [step])
  {
  }

  // Two callers look into the empty cache.
  lemma TwoMisses(k: Key) returns (run: seq<Sys>, steps: seq<Step>)
    requires k.op == Setup
    ensures IsRun(run, steps)
    ensures run[|steps|] == Initial().(callers := map[0 := Caller(k, Joining), 1 := Caller(k, Joining)])
  {
    steps := [Call(0, k), Call(1, k), ReadCache(1), ReadCache(0)];
    var s0 := Initial();
    var s1 := Next(s0, steps[0]);
    var s2 := Next(s1, steps[1]);
    var s3 := Next(s2, steps[2]);
    var s4 := Next(s3, steps[3]);
    run := [s0, s1, s2, s3, s4];
  }

  lemma FirstSetup(k: Key, v: nat) returns (run: seq<Sys>, steps: seq<Step>)
    requires k.op == Setup
    ensures IsRun(run, steps)
    ensures var s := run[|steps|];
            && s.shared == Shared(map[k.id := v], map[k := 0], map[0 := Tracker(k, 0, None, 0)], 1)
            && s.callers == map[0 := Caller(k, Written(0, Success(v))), 1 := Caller(k, Joining)]
  {
    run, steps := TwoMisses(k);
    var s4 := run[|steps|];
    var s5 := Next(s4, TakeLock(0));
    var s6 := Next(s5, Perform(0, Success(v)));
    var s7 := Next(s6, WriteCache(0));
    Extend(run, steps, TakeLock(0));
    Extend(run + [s5], steps + [TakeLock(0)], Perform(0, Success(v)));
    run, steps := run + [s5] + [s6], steps + [TakeLock(0)] + [Perform(0, Success(v))];
    Extend(run, steps, WriteCache(0));
    run, steps := run + [s7], steps + [WriteCache(0)];
  }

  // A caller that looked into the cache too early runs the plugins again although the first setup
  // succeeded and nothing was torn down.
  lemma SecondSetup(id: nat, v: nat) returns (run: seq<Sys>, steps: seq<Step>)
    ensures IsRun(run, steps)
    ensures var s := run[|steps|];
            && s.shared.cache == map[id := v] && 1 in s.callers
            && s.callers[1].key == Key(Setup, id) && s.callers[1].pc.Working?
  {
    run, steps := FirstSetup(Key(Setup, id), v);
    var s7 := run[|steps|];
    var s8 := Next(s7, SetOutcome(0));
    var s9 := Next(s8, CloseDone(0));
    var s10 := Next(s9, Delete(0));
    var s11 := Next(s10, TakeLock(1));
    Extend(run, steps, SetOutcome(0));
    Extend(run + [s8], steps + [SetOutcome(0)], CloseDone(0));
    Extend(run + [s8] + [s9], steps + [SetOutcome(0)] + [CloseDone(0)], Delete(0));
    run, steps := run + [s8] + [s9] + [s10], steps + [SetOutcome(0)] + [CloseDone(0)] + [Delete(0)];
    Extend(run, steps, TakeLock(1));
    run, steps := run + [s11], steps + [TakeLock(1)];
  }
}
