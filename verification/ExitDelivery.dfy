// Exactly-once delivery of process exits: the tracker among processes that start and exit.
// One step is one call of the tracker or one event of the guest's kernel.
module ExitDelivery {
  import opened Base
  import opened ExitTracking

  // How far a process has come, to the kernel: live, exited but not yet notified, notified.
  datatype Phase = Live | Exited | Notified

  // Where it stands with the tracker: no part of a start, in an open start window, registered,
  // handed out, or given up (its window was closed without it, or its container was deleted).
  datatype Place = Foreign | Opening(window: nat) | Registered | HandedOut | GivenUp

  datatype Info = Info(proc: Proc, pid: nat, phase: Phase, place: Place)

  datatype Handout = Handout(proc: Proc, exit: Exit)

  // procs: every process, by serial; windows: open start windows and what was spawned in them.
  datatype Sys = Sys(tracker: Tracker, procs: map<nat, Info>, windows: map<nat, Option<nat>>, log: seq<Handout>)

  function Initial(): Sys {
    Sys(Tracker(NO_SUBSCRIPTIONS, map[], Coordinator(map[], 0, [])), map[], map[], [])
  }

  datatype Step =
    | OpenStart                                   // Create, or Start of an exec
    | OpenRestart(serial: nat)                    // Start of a container's init
    | Attach(window: nat, serial: nat)            // Start of an exec that was started before: refused, with its PID
    | Spawn(proc: Proc, pid: nat, into: Option<nat>)
    | ProcExit(serial: nat)
    | NotifyExit(serial: nat)
    | HandleStart(window: nat)
    | GiveUp(window: nat)                         // closed without a process: HandleStart with PID 0, or Cancel
    | Delete(container: nat)

  // ---------------------------------------------------------------- what can happen

  predicate Current(i: Info) { i.phase != Notified }

  // Its PID is taken: the process is about, or a start window waits for it.
  predicate InUse(i: Info) { Current(i) || i.place.Opening? }

  // No process of that PID is about, and none is waiting in a start window.
  predicate PidIsFree(s: Sys, pid: nat) {
    forall n :: n in s.procs && InUse(s.procs[n]) ==> s.procs[n].pid != pid
  }

  predicate Enabled(s: Sys, step: Step) {
    match step
    case OpenStart => true
    case OpenRestart(n) => n in s.procs && s.procs[n].proc.init && s.procs[n].place != Foreign
    case Attach(w, n) =>
      && w in s.windows && s.windows[w].None? && w in s.tracker.detector.exits
      && n in s.procs && !s.procs[n].proc.init && s.procs[n].place != Foreign
    case Spawn(p, pid, w) =>
      && p.serial !in s.procs && pid > 0 && PidIsFree(s, pid)
      && (w.Some? ==> w.value in s.windows && s.windows[w.value].None? && w.value in s.tracker.detector.exits
                      && Of(s.tracker.detector.exits[w.value], pid) == [])
    case ProcExit(n) => n in s.procs && s.procs[n].phase == Live
    case NotifyExit(n) => n in s.procs && s.procs[n].phase == Exited
    case HandleStart(w) => w in s.windows && s.windows[w].Some? && s.windows[w].value in s.procs
    case GiveUp(w) => w in s.windows
    case Delete(c) => true
  }

  // The exits that a window holds for the process started in it.
  predicate Held(i: Info, n: nat, c: Collected) {
    Of(c, i.pid) == if i.phase == Notified then [Exit(i.pid, n)] else []
  }

  // A Start of a process that was started before.
  predicate Restarts(step: Step) { step.OpenRestart? || step.Attach? }

  // Such a Start that delivery survives. An init is registered, or was given up, and its exit was not
  // notified yet. An exec was given up, and its window holds just what was notified of it, with its PID not
  // taken again.
  predicate Orderly(s: Sys, step: Step)
    requires Enabled(s, step)
  {
    Restarts(step) ==>
      var n := step.serial;
      var i := s.procs[n];
      if step.OpenRestart? then Current(i) && (i.place == Registered || i.place == GivenUp)
      else
        && i.place == GivenUp && Held(i, n, s.tracker.detector.exits[step.window])
        && (Current(i) || forall m :: m in s.procs && Current(s.procs[m]) ==> s.procs[m].pid != i.pid)
  }

  // ---------------------------------------------------------------- what then happens

  function Handouts(ps: seq<Proc>, e: Exit): (r: seq<Handout>)
    ensures |r| == |ps| && forall i :: 0 <= i < |r| ==> r[i] == Handout(ps[i], e)
  {
    seq(|ps|, i requires 0 <= i < |ps| => Handout(ps[i], e))
  }

  function EarlyHandouts(p: Proc, es: seq<Exit>): (r: seq<Handout>)
    ensures |r| == |es| && forall i :: 0 <= i < |r| ==> r[i] == Handout(p, es[i])
  {
    seq(|es|, i requires 0 <= i < |es| => Handout(p, es[i]))
  }

  function SetPlace(s: Sys, n: nat, place: Place): map<nat, Info>
    requires n in s.procs
  {
    s.procs[n := s.procs[n].(place := place)]
  }

  function GiveUpAll(procs: map<nat, Info>, c: nat): map<nat, Info> {
    map n | n in procs ::
      if procs[n].proc.container == c && procs[n].place == Registered then procs[n].(place := GivenUp) else procs[n]
  }

  function Next(s: Sys, step: Step): Sys
    requires Enabled(s, step)
  {
    match step
    case OpenStart =>
      var (t, id) := Open(s.tracker, None);
      s.(tracker := t, windows := s.windows[id := None])
    case OpenRestart(n) =>
      var (t, id) := Open(s.tracker, Some(Restart(s.procs[n].pid, s.procs[n].proc.container)));
      s.(tracker := t, windows := s.windows[id := Some(n)], procs := SetPlace(s, n, Opening(id)))
    case Attach(w, n) => s.(windows := s.windows[w := Some(n)], procs := SetPlace(s, n, Opening(w)))
    case Spawn(p, pid, w) =>
      var place := if w.None? then Foreign else Opening(w.value);
      s.(procs := s.procs[p.serial := Info(p, pid, Live, place)],
         windows := if w.None? then s.windows else s.windows[w.value := Some(p.serial)])
    case ProcExit(n) => s.(procs := s.procs[n := s.procs[n].(phase := Exited)])
    case NotifyExit(n) =>
      var e := Exit(s.procs[n].pid, n);
      var (t, ps) := Notify(s.tracker, e);
      var i := s.procs[n].(phase := Notified);
      s.(tracker := t, log := s.log + Handouts(ps, e),
         procs := s.procs[n := if i.place == Registered then i.(place := HandedOut) else i])
    case HandleStart(w) =>
      var n := s.windows[w].value;
      var i := s.procs[n];
      var (t, early) := Started(s.tracker, w, i.proc, i.pid);
      s.(tracker := t, windows := s.windows - {w}, log := s.log + EarlyHandouts(i.proc, early),
         procs := SetPlace(s, n, if early == [] then Registered else HandedOut))
    case GiveUp(w) =>
      s.(tracker := Cancel(s.tracker, w), windows := s.windows - {w},
         procs := if s.windows[w].Some? && s.windows[w].value in s.procs then SetPlace(s, s.windows[w].value, GivenUp)
                  else s.procs)
    case Delete(c) => s.(tracker := Cleanup(s.tracker, c), procs := GiveUpAll(s.procs, c))
  }

  // ---------------------------------------------------------------- invariant

  predicate ProcOk(s: Sys, n: nat)
    requires n in s.procs
  {
    var i := s.procs[n];
    && i.proc.serial == n && i.pid > 0
    && (i.place.Opening? ==>
          && i.place.window in s.windows && s.windows[i.place.window] == Some(n)
          && i.place.window in s.tracker.detector.exits && Held(i, n, s.tracker.detector.exits[i.place.window]))
    && (i.place == Registered ==> i.phase != Notified && At(s.tracker.processes, i.pid) == [i.proc])
    && (i.place == HandedOut ==> i.phase == Notified)
  }

  predicate Clash(i: Info, j: Info) { InUse(i) && InUse(j) && i.pid == j.pid }

  // A PID that is taken is one process's.
  predicate Distinct(s: Sys) {
    forall m, n :: m in s.procs && n in s.procs && Clash(s.procs[m], s.procs[n]) ==> m == n
  }

  predicate RegistryOk(s: Sys) {
    forall pid :: pid in s.tracker.processes ==>
      exists n :: n in s.procs && s.procs[n].place == Registered && s.procs[n].pid == pid
  }

  predicate WindowsOk(s: Sys) {
    && s.windows.Keys == s.tracker.detector.open <= s.tracker.detector.exits.Keys
    && (forall w :: w in s.windows ==> w <= s.tracker.detector.next)
    && (forall w :: w in s.windows && s.windows[w].Some? ==>
          s.windows[w].value in s.procs && s.procs[s.windows[w].value].place == Opening(w))
  }

  // What is collected under a PID are notified exits of that PID, and the latest of them is the same in
  // every open window that holds any.
  ghost predicate CollectedOk(s: Sys) {
    && (forall w, pid, e :: Holds(s, w, pid, e) ==> NotifiedExit(s, pid, e))
    && (forall v, w, pid :: v in s.windows && w in s.windows ==> SameLatest(s.tracker.detector.exits, v, w, pid))
  }

  predicate Holds(s: Sys, w: nat, pid: nat, e: Exit) {
    w in s.windows && w in s.tracker.detector.exits && e in Of(s.tracker.detector.exits[w], pid)
  }

  predicate NotifiedExit(s: Sys, pid: nat, e: Exit) {
    e.pid == pid && e.serial in s.procs && s.procs[e.serial].phase == Notified && s.procs[e.serial].pid == pid
  }

  predicate SameLatest(exits: map<nat, Collected>, v: nat, w: nat, pid: nat) {
    v in exits && w in exits && Of(exits[v], pid) != [] && Of(exits[w], pid) != [] ==>
      Of(exits[v], pid)[|Of(exits[v], pid)| - 1] == Of(exits[w], pid)[|Of(exits[w], pid)| - 1]
  }

  function Times(log: seq<Handout>, n: nat): nat {
    if log == [] then 0 else Times(log[..|log| - 1], n) + (if log[|log| - 1].proc.serial == n then 1 else 0)
  }

  predicate OwnExit(s: Sys, h: Handout) {
    var n := h.proc.serial;
    n in s.procs && h.proc == s.procs[n].proc && h.exit == Exit(s.procs[n].pid, n)
  }

  // Every hand-out is of the process's own exit, and each process has as many as it should.
  predicate LogOk(s: Sys) {
    && (forall h :: h in s.log ==> OwnExit(s, h))
    && (forall n :: n in s.procs ==> Times(s.log, n) == if s.procs[n].place == HandedOut then 1 else 0)
  }

  predicate Core(s: Sys) {
    && (forall n :: n in s.procs ==> ProcOk(s, n))
    && Distinct(s) && RegistryOk(s) && WindowsOk(s) && LogOk(s)
  }

  ghost predicate Inv(s: Sys) { Core(s) && CollectedOk(s) }
}
