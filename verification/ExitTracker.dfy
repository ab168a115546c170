// The exit tracker and its three parts as objects; each method is one critical section, or the
// sequence of critical sections that one call goes through.
module ExitTracker {
  import opened Base
  import E = ExitTracking

  class EarlyExitDetector {
    var nextSubID: nat
    var subscriptions: set<nat>          // the active ones
    var exits: map<nat, E.Collected>     // what each subscription has collected

    constructor ()
      ensures Value() == E.NO_SUBSCRIPTIONS
    {
      nextSubID, subscriptions, exits := 0, {}, map[];
    }

    ghost function Value(): E.Detector
      reads this
    {
      E.Detector(nextSubID, subscriptions, exits)
    }

    method Subscribe() returns (id: nat)
      modifies this
      ensures (Value(), id) == E.Subscribe(old(Value()))
    {
      nextSubID := nextSubID + 1;
      id := nextSubID;
      exits := exits[id := map[]];
      subscriptions := subscriptions + {id};
    }

    method NotifyExit(e: E.Exit)
      modifies this
      ensures Value() == E.Broadcast(old(Value()), e)
    {
      ghost var before := exits;
      var left := subscriptions;
      while left != {}
        invariant left <= subscriptions == old(subscriptions) && nextSubID == old(nextSubID)
        invariant exits.Keys == before.Keys
        invariant forall id :: id in before ==>
          exits[id] == if id in subscriptions - left then E.Collect(before[id], e) else before[id]
        decreases |left|
      {
        var id :| id in left;
        left := left - {id};
        if id in exits {
          var c: E.Collected := exits[id];
          exits := exits[id := c[e.pid := (if e.pid in c then c[e.pid] else []) + [e]]];
        }
      }
    }

    method Remove(id: nat)
      modifies this
      ensures Value() == E.Unsubscribe(old(Value()), id)
    {
      subscriptions := subscriptions - {id};
    }
  }

  lemma {:induction false} OthersSnoc(ps: seq<E.Proc>, p: E.Proc, c: nat)
    ensures E.Others(ps + [p], c) == if p.container != c then E.Others(ps, c) + [p] else E.Others(ps, c)
  {
    if ps != [] {
      OthersSnoc(ps[1..], p, c);
      assert (ps + [p])[1..] == ps[1..] + [p];
    }
  }

  class ProcessRegistry {
    var running: map<nat, seq<E.Proc>>

    constructor ()
      ensures running == map[]
    {
      running := map[];
    }

    method Add(pid: nat, p: E.Proc)
      modifies this
      ensures running == E.Add(old(running), pid, p)
    {
      running := running[pid := (if pid in running then running[pid] else []) + [p]];
    }

    method RemoveByPID(pid: nat) returns (ps: seq<E.Proc>)
      modifies this
      ensures ps == E.At(old(running), pid) && running == E.RemovePid(old(running), pid)
    {
      ps := if pid in running then running[pid] else [];
      running := running - {pid};
    }

    // The entries of other containers, in order.
    static method Filter(ps: seq<E.Proc>, c: nat) returns (remaining: seq<E.Proc>)
      ensures remaining == E.Others(ps, c)
    {
      remaining := [];
      for i := 0 to |ps|
        invariant remaining == E.Others(ps[..i], c)
      {
        assert ps[..i + 1] == ps[..i] + [ps[i]];
        OthersSnoc(ps[..i], ps[i], c);
        if ps[i].container != c { remaining := remaining + [ps[i]]; }
      }
      assert ps[..|ps|] == ps;
    }

    method RemoveByContainer(pid: nat, c: nat)
      modifies this
      ensures running == E.RemoveByContainer(old(running), pid, c)
    {
      if pid !in running || running[pid] == [] { return; }
      var remaining := Filter(running[pid], c);
      if remaining != [] { running := running[pid := remaining]; } else { running := running - {pid}; }
    }

    method CleanupContainer(c: nat)
      modifies this
      ensures running == E.CleanupContainer(old(running), c)
    {
      ghost var before := running;
      var left := running.Keys;
      while left != {}
        invariant left <= before.Keys && running == Partly(before, left, c)
        decreases |left|
      {
        var pid :| pid in left;
        PartlyStep(before, left, c, pid);
        left := left - {pid};
        var remaining := Filter(running[pid], c);
        if remaining != [] { running := running[pid := remaining]; } else { running := running - {pid}; }
      }
    }
  }

  // The registry while it is cleaned up: the PIDs left are as before.
  ghost function Partly(before: E.Registry, left: set<nat>, c: nat): E.Registry {
    map pid | pid in before && (pid in left || E.Others(before[pid], c) != []) ::
      if pid in left then before[pid] else E.Others(before[pid], c)
  }

  lemma PartlyStep(before: E.Registry, left: set<nat>, c: nat, pid: nat)
    requires pid in left && left <= before.Keys
    ensures var now, rest := Partly(before, left, c), E.Others(before[pid], c);
            && pid in now && now[pid] == before[pid]
            && Partly(before, left - {pid}, c) == if rest != [] then now[pid := rest] else now - {pid}
  {
  }

  class ExitCoordinator {
    var containers: map<nat, E.Counts>
    var chans: nat
    var closed: seq<nat>

    constructor ()
      ensures Value() == E.Coordinator(map[], 0, [])
    {
      containers := map[];
      chans := 0;
      closed := [];
    }

    ghost function Value(): E.Coordinator
      reads this
    {
      E.Coordinator(containers, chans, closed)
    }

    // getOrCreateState
    method GetOrCreate(c: nat) returns (s: E.Counts)
      modifies this
      ensures s == E.StateOf(old(Value()), c) && c in containers
      ensures Value() == old(Value()).(states := old(containers)[c := s])
    {
      if c !in containers { containers := containers[c := E.FRESH]; }
      s := containers[c];
      assert containers == old(containers)[c := s];
    }

    method IncrementExecCount(c: nat)
      modifies this
      ensures Value() == E.Increment(old(Value()), c)
    {
      var s := GetOrCreate(c);
      containers := containers[c := s.(runningExecs := s.runningExecs + 1)];
    }

    method StashInitExit(c: nat, e: E.Exit)
      modifies this
      ensures Value() == E.Stash(old(Value()), c, e)
    {
      var s := GetOrCreate(c);
      containers := containers[c := s.(initExit := Some(e))];
    }

    method ShouldDelayInitExit(c: nat) returns (wait: Option<nat>)
      modifies this
      ensures (Value(), wait) == E.ShouldDelay(old(Value()), c)
    {
      if c !in containers || containers[c].runningExecs == 0 { return None; }
      wait := Some(chans);
      chans := chans + 1;
      containers := containers[c := containers[c].(waiter := wait)];
    }

    method NotifyExecExit(c: nat)
      modifies this
      ensures Value() == E.ExecExited(old(Value()), c)
    {
      if c !in containers { return; }
      var s := containers[c];
      s := s.(runningExecs := s.runningExecs - 1);
      containers := containers[c := s];
      if s.runningExecs > 0 { return; }
      if s.waiter.Some? {
        closed := closed + [s.waiter.value];
        containers := containers[c := s.(waiter := None)];
      }
    }

    method GetInitExit(c: nat) returns (e: Option<E.Exit>)
      modifies this
      ensures e == E.InitExit(old(Value()), c) && Value() == E.TakeInitExit(old(Value()), c)
    {
      if c !in containers || containers[c].initExit.None? { return None; }
      e := containers[c].initExit;
      containers := containers[c := containers[c].(initExit := None)];
    }

    method InitHasExited(c: nat) returns (r: bool)
      ensures r == E.InitExit(Value(), c).Some?
    {
      r := c in containers && containers[c].initExit.Some?;
    }

    method Cleanup(c: nat)
      modifies this
      ensures Value() == E.Forget(old(Value()), c)
    {
      containers := containers - {c};
    }
  }

  class Tracker {
    const detector: EarlyExitDetector
    const coordinator: ExitCoordinator
    const processes: ProcessRegistry

    constructor ()
      ensures Value() == E.Tracker(E.NO_SUBSCRIPTIONS, map[], E.Coordinator(map[], 0, []))
      ensures fresh(detector) && fresh(coordinator) && fresh(processes)
    {
      detector := new EarlyExitDetector();
      coordinator := new ExitCoordinator();
      processes := new ProcessRegistry();
    }

    ghost function Value(): E.Tracker
      reads detector, coordinator, processes
    {
      E.Tracker(detector.Value(), processes.running, coordinator.Value())
    }

    method Subscribe(r: Option<E.Restart>) returns (id: nat)
      modifies detector, processes
      ensures (Value(), id) == E.Open(old(Value()), r)
    {
      id := detector.Subscribe();
      if r.Some? { processes.RemoveByContainer(r.value.pid, r.value.container); }
    }

    method NotifyExit(e: E.Exit) returns (ps: seq<E.Proc>)
      modifies detector, processes, coordinator
      ensures (Value(), ps) == E.Notify(old(Value()), e)
    {
      detector.NotifyExit(e);
      ps := processes.RemoveByPID(e.pid);
      var i := 0;
      assert ps[0..] == ps;
      while i < |ps|
        invariant 0 <= i <= |ps|
        invariant detector.Value() == E.Broadcast(old(detector.Value()), e)
        invariant processes.running == E.RemovePid(old(processes.running), e.pid)
        invariant E.StashAll(old(coordinator.Value()), ps, e) == E.StashAll(coordinator.Value(), ps[i..], e)
        modifies coordinator
      {
        assert ps[i..][0] == ps[i] && ps[i..][1..] == ps[i + 1..];
        if ps[i].init { coordinator.StashInitExit(ps[i].container, e); }
        i := i + 1;
      }
    }

    // HandleStart: the early exits of the process, or none, and then it is registered.
    method HandleStart(id: nat, p: E.Proc, pid: nat) returns (early: seq<E.Exit>)
      modifies detector, processes, coordinator
      ensures (Value(), early) == E.Started(old(Value()), id, p, pid)
      ensures var registers := pid != 0 && early == [];
              E.StateOf(coordinator.Value(), p.container).runningExecs ==
              old(E.StateOf(coordinator.Value(), p.container).runningExecs) + (if registers && !p.init then 1 else 0)
    {
      detector.Remove(id);
      early := if id in detector.exits then E.Of(detector.exits[id], pid) else [];
      if pid == 0 || early != [] { return; }
      processes.Add(pid, p);
      if !p.init { coordinator.IncrementExecCount(p.container); }
    }

    method Cancel(id: nat)
      modifies detector
      ensures Value() == E.Cancel(old(Value()), id)
    {
      detector.Remove(id);
    }

    method Cleanup(c: nat)
      modifies processes, coordinator
      ensures Value() == E.Cleanup(old(Value()), c)
    {
      coordinator.Cleanup(c);
      processes.CleanupContainer(c);
    }
  }
}
