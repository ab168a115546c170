// The CNI network manager as an object: its critical sections, and the order in which the two
// public calls go through them.
module CniManager {
  import opened Base
  import opened CniSingleFlight

  // How a call ends: with a result, or waiting for another caller's tracker.
  datatype Ended = Finished(o: Outcome) | WaitsFor(t: nat)

  // Leading a key from the plugins' outcome to the deletion of the tracker.
  function Lead(sh: Shared, key: Key, t: nat, o: Outcome): Shared
    requires t in sh.trackers
  {
    Remove(Close(Settle(Write(sh, key, o), t, o), t), key)
  }

  class Manager {
    var cniResults: map<nat, nat>
    var inFlight: map<nat, nat>
    var teardownInFlight: map<nat, nat>
    var trackers: map<nat, Tracker>
    var next: nat
    ghost var shared: Shared

    ghost predicate Valid()
      reads this
    {
      && shared.cache == cniResults && shared.trackers == trackers && shared.next == next
      && (forall id :: (id in inFlight <==> Key(Setup, id) in shared.inFlight) &&
                       (id in teardownInFlight <==> Key(Teardown, id) in shared.inFlight))
      && (forall id :: id in inFlight ==> inFlight[id] == shared.inFlight[Key(Setup, id)])
      && (forall id :: id in teardownInFlight ==> teardownInFlight[id] == shared.inFlight[Key(Teardown, id)])
    }

    constructor ()
      ensures Valid() && shared == Shared(map[], map[], map[], 0)
    {
      cniResults, inFlight, teardownInFlight, trackers, next := map[], map[], map[], map[], 0;
      shared := Shared(map[], map[], map[], 0);
    }

    method JoinSetup(id: nat, caller: nat) returns (t: nat, leader: bool)
      requires Valid()
      modifies this
      ensures Valid() && (shared, t, leader) == Join(old(shared), Key(Setup, id), caller)
    {
      if id in inFlight { return inFlight[id], false; }
      t, leader := next, true;
      trackers := trackers[t := Tracker(Key(Setup, id), caller, None, 0)];
      inFlight := inFlight[id := t];
      next := next + 1;
      shared := Join(shared, Key(Setup, id), caller).0;
    }

    method JoinTeardown(id: nat, caller: nat) returns (t: nat, leader: bool)
      requires Valid()
      modifies this
      ensures Valid() && (shared, t, leader) == Join(old(shared), Key(Teardown, id), caller)
    {
      if id in teardownInFlight { return teardownInFlight[id], false; }
      t, leader := next, true;
      trackers := trackers[t := Tracker(Key(Teardown, id), caller, None, 0)];
      teardownInFlight := teardownInFlight[id := t];
      next := next + 1;
      shared := Join(shared, Key(Teardown, id), caller).0;
    }

    method Store(id: nat, value: nat)
      requires Valid()
      modifies this
      ensures Valid() && shared == Write(old(shared), Key(Setup, id), Success(value))
    {
      cniResults := cniResults[id := value];
      shared := Write(shared, Key(Setup, id), Success(value));
    }

    method Clear(id: nat, o: Outcome)
      requires Valid()
      modifies this
      ensures Valid() && shared == Write(old(shared), Key(Teardown, id), o)
    {
      cniResults := cniResults - {id};
      shared := Write(shared, Key(Teardown, id), o);
    }

    // The tracker gets its outcome, is closed, and is taken out of its map.
    method Finish(key: Key, t: nat, o: Outcome)
      requires Valid() && t in trackers
      modifies this
      ensures Valid() && shared == Remove(Close(Settle(old(shared), t, o), t), key)
    {
      trackers := trackers[t := trackers[t].(outcome := Some(o))];
      shared := Settle(shared, t, o);
      trackers := trackers[t := trackers[t].(closes := trackers[t].closes + 1)];
      shared := Close(shared, t);
      if key.op == Setup { inFlight := inFlight - {key.id}; } else { teardownInFlight := teardownInFlight - {key.id}; }
      shared := Remove(shared, key);
    }

    // ensureNetworkResourcesCNI, with no other caller in between; o: what the plugins do.
    method EnsureNetworkResources(id: nat, caller: nat, o: Outcome) returns (r: Ended)
      requires Valid()
      modifies this
      ensures Valid()
      ensures var key, was := Key(Setup, id), old(shared);
              if id in was.cache then shared == was && r == Finished(Success(was.cache[id]))
              else if key in was.inFlight then shared == was && r == WaitsFor(was.inFlight[key])
              else shared == Lead(Join(was, key, caller).0, key, was.next, o) && r == Finished(o)
    {
      if id in cniResults { return Finished(Success(cniResults[id])); }
      var t, leader := JoinSetup(id, caller);
      if !leader { return WaitsFor(t); }
      if o.Success? { Store(id, o.value); }
      Finish(Key(Setup, id), t, o);
      r := Finished(o);
    }

    // releaseNetworkResourcesCNI, likewise.
    method ReleaseNetworkResources(id: nat, caller: nat, o: Outcome) returns (r: Ended)
      requires Valid()
      modifies this
      ensures Valid()
      ensures var key, was := Key(Teardown, id), old(shared);
              if key in was.inFlight then shared == was && r == WaitsFor(was.inFlight[key])
              else shared == Lead(Join(was, key, caller).0, key, was.next, o) && r == Finished(o)
    {
      var t, leader := JoinTeardown(id, caller);
      if !leader { return WaitsFor(t); }
      Clear(id, o);
      Finish(Key(Teardown, id), t, o);
      r := Finished(o);
    }
  }
}
