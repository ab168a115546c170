// The guest's exit tracker, part by part: the early-exit detector, the process registry and the
// init/exec exit coordinator, as functions on their state.
module ExitTracking {
  import opened Base

  // serial says whose exit this is; the tracker itself only looks at the PID.
  datatype Exit = Exit(pid: nat, serial: nat)

  datatype Proc = Proc(container: nat, serial: nat, init: bool)

  // ---------------------------------------------------------------- early-exit detector

  type Collected = map<nat, seq<Exit>>

  // open: the active subscriptions; exits: what each subscription, active or closed, has collected.
  datatype Detector = Detector(next: nat, open: set<nat>, exits: map<nat, Collected>)

  const NO_SUBSCRIPTIONS := Detector(0, {}, map[])

  function Of(c: Collected, pid: nat): seq<Exit> { if pid in c then c[pid] else [] }

  function Subscribe(d: Detector): (Detector, nat) {
    (Detector(d.next + 1, d.open + {d.next + 1}, d.exits[d.next + 1 := map[]]), d.next + 1)
  }

  function Collect(c: Collected, e: Exit): Collected { c[e.pid := Of(c, e.pid) + [e]] }

  function Broadcast(d: Detector, e: Exit): (r: Detector)
    ensures r.exits.Keys == d.exits.Keys && r.open == d.open && r.next == d.next
  {
    d.(exits := map id | id in d.exits :: if id in d.open then Collect(d.exits[id], e) else d.exits[id])
  }

  function Unsubscribe(d: Detector, id: nat): Detector { d.(open := d.open - {id}) }

  // ---------------------------------------------------------------- process registry

  type Registry = map<nat, seq<Proc>>

  function At(r: Registry, pid: nat): seq<Proc> { if pid in r then r[pid] else [] }

  function Add(r: Registry, pid: nat, p: Proc): Registry { r[pid := At(r, pid) + [p]] }

  function RemovePid(r: Registry, pid: nat): Registry { r - {pid} }

  function Others(ps: seq<Proc>, c: nat): seq<Proc> {
    if ps == [] then [] else (if ps[0].container != c then [ps[0]] else []) + Others(ps[1..], c)
  }

  function RemoveByContainer(r: Registry, pid: nat, c: nat): Registry {
    if At(r, pid) == [] then r
    else if Others(At(r, pid), c) == [] then r - {pid}
    else r[pid := Others(At(r, pid), c)]
  }

  function CleanupContainer(r: Registry, c: nat): Registry {
    map pid | pid in r && Others(r[pid], c) != [] :: Others(r[pid], c)
  }

  // ---------------------------------------------------------------- coordinator

  // waiter: the channel that an init exit waits on.
  datatype Counts = Counts(runningExecs: int, waiter: Option<nat>, initExit: Option<Exit>)

  // chans: channels made so far; closed: channels closed, in order.
  datatype Coordinator = Coordinator(states: map<nat, Counts>, chans: nat, closed: seq<nat>)

  const FRESH := Counts(0, None, None)

  function StateOf(k: Coordinator, c: nat): Counts { if c in k.states then k.states[c] else FRESH }

  function Increment(k: Coordinator, c: nat): Coordinator {
    var s := StateOf(k, c);
    k.(states := k.states[c := s.(runningExecs := s.runningExecs + 1)])
  }

  function Stash(k: Coordinator, c: nat, e: Exit): Coordinator {
    k.(states := k.states[c := StateOf(k, c).(initExit := Some(e))])
  }

  // None: publish at once; otherwise the channel to wait on.
  function ShouldDelay(k: Coordinator, c: nat): (Coordinator, Option<nat>) {
    if c !in k.states || k.states[c].runningExecs == 0 then (k, None)
    else (k.(states := k.states[c := k.states[c].(waiter := Some(k.chans))], chans := k.chans + 1), Some(k.chans))
  }

  function ExecExited(k: Coordinator, c: nat): Coordinator {
    if c !in k.states then k
    else
      var s := k.states[c].(runningExecs := k.states[c].runningExecs - 1);
      if s.runningExecs > 0 || s.waiter.None? then k.(states := k.states[c := s])
      else k.(states := k.states[c := s.(waiter := None)], closed := k.closed + [s.waiter.value])
  }

  function InitExit(k: Coordinator, c: nat): Option<Exit> { if c in k.states then k.states[c].initExit else None }

  function TakeInitExit(k: Coordinator, c: nat): Coordinator {
    if InitExit(k, c).None? then k else k.(states := k.states[c := k.states[c].(initExit := None)])
  }

  function Forget(k: Coordinator, c: nat): Coordinator { k.(states := k.states - {c}) }

  // ---------------------------------------------------------------- the tracker

  datatype Tracker = Tracker(detector: Detector, processes: Registry, coordinator: Coordinator)

  // The init process to take out of the registry when a created container is started.
  datatype Restart = Restart(pid: nat, container: nat)

  function Open(t: Tracker, r: Option<Restart>): (Tracker, nat) {
    var (d, id) := Subscribe(t.detector);
    var ps := if r.None? then t.processes else RemoveByContainer(t.processes, r.value.pid, r.value.container);
    (t.(detector := d, processes := ps), id)
  }

  function StashAll(k: Coordinator, ps: seq<Proc>, e: Exit): Coordinator
    decreases |ps|
  {
    if ps == [] then k
    else StashAll(if ps[0].init then Stash(k, ps[0].container, e) else k, ps[1..], e)
  }

  // NotifyExit: the processes that the exit is handed out for.
  function Notify(t: Tracker, e: Exit): (Tracker, seq<Proc>) {
    var ps := At(t.processes, e.pid);
    (Tracker(Broadcast(t.detector, e), RemovePid(t.processes, e.pid), StashAll(t.coordinator, ps, e)), ps)
  }

  // HandleStart; pid 0: the process did not start. The result: early exits to hand out for p.
  function Started(t: Tracker, id: nat, p: Proc, pid: nat): (Tracker, seq<Exit>) {
    var early := if id in t.detector.exits then Of(t.detector.exits[id], pid) else [];
    var u := t.(detector := Unsubscribe(t.detector, id));
    if pid == 0 || early != [] then (u, early)
    else
      (u.(processes := Add(t.processes, pid, p),
          coordinator := if p.init then t.coordinator else Increment(t.coordinator, p.container)), [])
  }

  function Cancel(t: Tracker, id: nat): Tracker { t.(detector := Unsubscribe(t.detector, id)) }

  function Cleanup(t: Tracker, c: nat): Tracker {
    t.(processes := CleanupContainer(t.processes, c), coordinator := Forget(t.coordinator, c))
  }
}
