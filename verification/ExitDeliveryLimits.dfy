// Orderly Starts are exactly what delivery needs: after any other Start of a known process, a run goes on to
// hand it a second exit, or one that is not its own.
module ExitDeliveryLimits {
  import opened Base
  import opened ExitTracking
  import opened ExitDelivery
  import opened ExitDeliverySafety

  // ---------------------------------------------------------------- runs

  lemma Extend(s: Sys, run: seq<Sys>, steps: seq<Step>, step: Step)
    requires RunFrom(s, run, steps) && Enabled(run[|steps|], step)
    ensures RunFrom(s, run + [Next(run[|steps|], step)], steps + [step])
  {
  }

  lemma Concat(s: Sys, run: seq<Sys>, steps: seq<Step>, more: seq<Sys>, rest: seq<Step>)
    requires RunFrom(s, run, steps) && RunFrom(run[|steps|], more, rest)
    ensures RunFrom(s, run + more[1..], steps + rest)
    ensures (run + more[1..])[|steps + rest|] == more[|rest|]
  {
    var all, done := run + more[1..], steps + rest;
    forall i | 0 <= i < |done| ensures Enabled(all[i], done[i]) && all[i + 1] == Next(all[i], done[i]) {
      if i >= |steps| {
        assert all[i] == more[i - |steps|] && all[i + 1] == more[i + 1 - |steps|];
      }
    }
  }

  // No known process is started, and none is spawned unless that is allowed.
  predicate Plain(step: Step, spawning: bool) { !Restarts(step) && (step.Spawn? ==> spawning) }

  ghost predicate PlainRun(s: Sys, run: seq<Sys>, steps: seq<Step>, spawning: bool) {
    RunFrom(s, run, steps) && forall k :: 0 <= k < |steps| ==> Plain(steps[k], spawning)
  }

  ghost predicate Reaches(s: Sys, t: Sys, spawning: bool) {
    exists run: seq<Sys>, steps: seq<Step> :: PlainRun(s, run, steps, spawning) && run[|steps|] == t
  }

  lemma ReachesItself(s: Sys, spawning: bool)
    ensures Reaches(s, s, spawning)
  {
    assert PlainRun(s, [s], [], spawning);
  }

  lemma ReachesNext(s: Sys, t: Sys, step: Step, spawning: bool)
    requires Reaches(s, t, spawning) && Enabled(t, step) && Plain(step, spawning)
    ensures Reaches(s, Next(t, step), spawning)
  {
    var run: seq<Sys>, steps: seq<Step> :| PlainRun(s, run, steps, spawning) && run[|steps|] == t;
    Extend(s, run, steps, step);
    assert PlainRun(s, run + [Next(t, step)], steps + [step], spawning);
  }

  lemma ReachesOn(s: Sys, t: Sys, u: Sys, spawning: bool)
    requires Reaches(s, t, spawning) && Reaches(t, u, spawning)
    ensures Reaches(s, u, spawning)
  {
    var run: seq<Sys>, steps: seq<Step> :| PlainRun(s, run, steps, spawning) && run[|steps|] == t;
    var more: seq<Sys>, rest: seq<Step> :| PlainRun(t, more, rest, spawning) && more[|rest|] == u;
    Concat(s, run, steps, more, rest);
    assert PlainRun(s, run + more[1..], steps + rest, spawning);
  }

  lemma ReachesAnyhow(s: Sys, t: Sys)
    requires Reaches(s, t, false)
    ensures Reaches(s, t, true)
  {
    var run: seq<Sys>, steps: seq<Step> :| PlainRun(s, run, steps, false) && run[|steps|] == t;
    assert PlainRun(s, run, steps, true);
  }

  // ---------------------------------------------------------------- counting hand-outs

  lemma {:induction false} TimesAppend(log: seq<Handout>, more: seq<Handout>, n: nat)
    ensures Times(log + more, n) == Times(log, n) + Times(more, n)
  {
    if more == [] {
      assert log + more == log;
    } else {
      var all := log + more;
      assert all[..|all| - 1] == log + more[..|more| - 1];
      TimesAppend(log, more[..|more| - 1], n);
    }
  }

  lemma {:induction false} TimesFound(log: seq<Handout>, h: Handout)
    requires h in log
    ensures Times(log, h.proc.serial) >= 1
  {
    var front := log[..|log| - 1];
    assert log == front + [log[|log| - 1]];
    if h in front { TimesFound(front, h); }
  }

  // All of them for one process.
  lemma {:induction false} TimesAll(log: seq<Handout>, n: nat)
    requires forall k :: 0 <= k < |log| ==> log[k].proc.serial == n
    ensures Times(log, n) == |log|
  {
    if log != [] { TimesAll(log[..|log| - 1], n); }
  }

  // n was handed an exit that is not its own.
  ghost predicate Mistaken(log: seq<Handout>, p: Proc) {
    exists h :: h in log && h.proc == p && h.exit.serial != p.serial
  }

  // n was handed at most one exit, and only its own.
  ghost predicate Delivered(s: Sys, n: nat) {
    n in s.procs && Times(s.log, n) <= 1 && !Mistaken(s.log, s.procs[n].proc)
  }

  // ---------------------------------------------------------------- steps

  // The window of a Start of a known process, and what it holds for it.
  function Window(s: Sys, step: Step): nat
    requires Restarts(step)
  {
    if step.OpenRestart? then s.tracker.detector.next + 1 else step.window
  }

  function Holding(s: Sys, step: Step): seq<Exit>
    requires Restarts(step) && Enabled(s, step)
  {
    if step.OpenRestart? then [] else Of(s.tracker.detector.exits[step.window], s.procs[step.serial].pid)
  }

  // A window is open for n and holds c.
  ghost predicate OpenFor(s: Sys, w: nat, n: nat, c: seq<Exit>) {
    && w in s.windows && s.windows[w] == Some(n) && n in s.procs && s.procs[n].pid > 0
    && w in s.tracker.detector.open && w in s.tracker.detector.exits
    && Of(s.tracker.detector.exits[w], s.procs[n].pid) == c
  }

  // In t there is a window for n, and the other windows are what they were.
  ghost predicate Reopened(s: Sys, t: Sys, step: Step)
    requires Restarts(step) && Enabled(s, step)
  {
    var n := step.serial;
    && n in t.procs && t.procs == SetPlace(s, n, t.procs[n].place) && OpenFor(t, Window(s, step), n, Holding(s, step))
    && OthersOpen(s, t, n)
  }

  // All windows for other processes are open still.
  ghost predicate OthersOpen(s: Sys, t: Sys, n: nat) {
    forall w :: w in s.windows && s.windows[w].Some? && s.windows[w] != Some(n) ==>
      w in t.windows && t.windows[w] == s.windows[w]
  }

  lemma Opens(s: Sys, step: Step)
    requires Core(s) && Restarts(step) && Enabled(s, step)
    ensures var t, pid := Next(s, step), s.procs[step.serial].pid;
            && Reopened(s, t, step) && t.log == s.log
            && (At(s.tracker.processes, pid) == [] ==> At(t.tracker.processes, pid) == [])
            && (step.Attach? ==> t.tracker.processes == s.tracker.processes)
  {
    assert ProcOk(s, step.serial);
  }

  // The window that was open for n before is open still.
  lemma StillOpen(s: Sys, step: Step)
    requires Core(s) && Restarts(step) && Enabled(s, step) && s.procs[step.serial].place.Opening?
    ensures var n := step.serial;
            var i, w := s.procs[n], s.procs[n].place.window;
            && w != Window(s, step) && s.windows[w] == Some(n)
            && OpenFor(Next(s, step), w, n, if i.phase == Notified then [Exit(i.pid, n)] else [])
  {
    assert ProcOk(s, step.serial);
  }

  // HandleStart on a window that collected nothing for its process registers it.
  lemma Registers(s: Sys, w: nat, n: nat)
    requires OpenFor(s, w, n, [])
    ensures Enabled(s, HandleStart(w))
    ensures var t, i := Next(s, HandleStart(w)), s.procs[n];
            && t.log == s.log && t.procs == SetPlace(s, n, Registered) && Closed(s, t, w)
            && t.tracker.processes == Add(s.tracker.processes, i.pid, i.proc)
  {
    assert s.log + [] == s.log;
  }

  // HandleStart on a window that collected exits hands them out.
  lemma HandsOut(s: Sys, w: nat, n: nat, c: seq<Exit>)
    requires OpenFor(s, w, n, c) && c != []
    ensures Enabled(s, HandleStart(w))
    ensures var t := Next(s, HandleStart(w));
            && t.log == s.log + EarlyHandouts(s.procs[n].proc, c) && t.procs == SetPlace(s, n, HandedOut)
            && Closed(s, t, w) && t.tracker.processes == s.tracker.processes
  {
  }

  // Just the one window was closed.
  ghost predicate Closed(s: Sys, t: Sys, w: nat) {
    && t.windows == s.windows - {w} && t.tracker.detector.open == s.tracker.detector.open - {w}
    && t.tracker.detector.exits == s.tracker.detector.exits
  }

  // The process exits, if it has not yet, and its exit is notified.
  lemma LetExit(s: Sys, n: nat) returns (t: Sys)
    requires n in s.procs && Current(s.procs[n])
    ensures Reaches(s, t, false) && t.procs.Keys == s.procs.Keys
    ensures var pid := s.procs[n].pid;
            t.log == s.log + Handouts(At(s.tracker.processes, pid), Exit(pid, n))
    ensures forall w, m, c :: m != n && OpenFor(s, w, m, c) && s.procs[m].pid == s.procs[n].pid ==>
              OpenFor(t, w, m, c + [Exit(s.procs[n].pid, n)])
    ensures forall m :: m in s.procs && m != n ==> t.procs[m] == s.procs[m]
  {
    t := s;
    ReachesItself(s, false);
    if s.procs[n].phase == Live {
      ReachesNext(s, s, ProcExit(n), false);
      t := Next(s, ProcExit(n));
    }
    ReachesNext(s, t, NotifyExit(n), false);
    t := Next(t, NotifyExit(n));
  }

  // ---------------------------------------------------------------- a live process registered twice

  lemma TwoHandouts(log: seq<Handout>, p: Proc, e: Exit)
    requires Times(log, p.serial) == 0
    ensures Times(log + Handouts([p, p], e), p.serial) == 2
  {
    TimesAppend(log, Handouts([p, p], e), p.serial);
    TimesAll(Handouts([p, p], e), p.serial);
  }

  lemma TwiceRegistered(s: Sys, t: Sys, n: nat) returns (u: Sys)
    requires Core(s) && n in s.procs && n in t.procs && Current(t.procs[n]) && t.procs[n].pid == s.procs[n].pid
    requires s.procs[n].place != HandedOut && t.log == s.log
    requires At(t.tracker.processes, t.procs[n].pid) == [s.procs[n].proc, s.procs[n].proc]
    ensures Reaches(t, u, false) && Times(u.log, n) == 2
  {
    assert ProcOk(s, n);
    u := LetExit(t, n);
    TwoHandouts(s.log, s.procs[n].proc, Exit(s.procs[n].pid, n));
  }

  lemma RegisterTwice(s: Sys, v: nat, w: nat, n: nat) returns (t: Sys)
    requires v != w && OpenFor(s, v, n, []) && OpenFor(s, w, n, [])
    requires At(s.tracker.processes, s.procs[n].pid) == []
    ensures Reaches(s, t, false) && t.log == s.log && t.procs == SetPlace(s, n, Registered)
    ensures At(t.tracker.processes, s.procs[n].pid) == [s.procs[n].proc, s.procs[n].proc]
  {
    Registers(s, v, n);
    ReachesItself(s, false);
    ReachesNext(s, s, HandleStart(v), false);
    var u := Next(s, HandleStart(v));
    Registers(u, w, n);
    ReachesNext(s, u, HandleStart(w), false);
    t := Next(u, HandleStart(w));
  }

  // Both windows register the process.
  lemma BothRegister(s: Sys, step: Step) returns (t: Sys)
    requires Core(s) && Restarts(step) && Enabled(s, step) && Holding(s, step) == []
    requires Current(s.procs[step.serial]) && s.procs[step.serial].place.Opening?
    ensures var i := s.procs[step.serial];
            && Reaches(Next(s, step), t, false) && t.log == s.log
            && step.serial in t.procs && t.procs[step.serial] == i.(place := Registered)
            && At(t.tracker.processes, i.pid) == [i.proc, i.proc]
  {
    var n := step.serial;
    assert ProcOk(s, n);
    StartFinds(s, s.procs[n].place.window);
    Opens(s, step);
    StillOpen(s, step);
    t := RegisterTwice(Next(s, step), s.procs[n].place.window, Window(s, step), n);
  }

  // A second registration besides the one that is there.
  lemma RegisterAgain(s: Sys, step: Step) returns (t: Sys)
    requires Core(s) && step.Attach? && Enabled(s, step) && Holding(s, step) == []
    requires s.procs[step.serial].place == Registered
    ensures var i := s.procs[step.serial];
            && Reaches(Next(s, step), t, false) && t.log == s.log
            && step.serial in t.procs && t.procs[step.serial] == i
            && At(t.tracker.processes, i.pid) == [i.proc, i.proc]
  {
    var n := step.serial;
    assert ProcOk(s, n);
    Opens(s, step);
    var s1 := Next(s, step);
    Registers(s1, step.window, n);
    ReachesItself(s1, false);
    ReachesNext(s1, s1, HandleStart(step.window), false);
    t := Next(s1, HandleStart(step.window));
  }

  // No PID is reused: a live process that is registered, or in a window, is registered once more, and its one
  // exit is handed out twice.
  lemma SecondWindowDoubles(s: Sys, step: Step) returns (t: Sys)
    requires Core(s) && Restarts(step) && Enabled(s, step) && Holding(s, step) == [] && Current(s.procs[step.serial])
    requires s.procs[step.serial].place.Opening? || (step.Attach? && s.procs[step.serial].place == Registered)
    ensures Reaches(Next(s, step), t, false) && Times(t.log, step.serial) == 2
  {
    var u;
    if s.procs[step.serial].place.Opening? { u := BothRegister(s, step); } else { u := RegisterAgain(s, step); }
    t := TwiceRegistered(s, u, step.serial);
    ReachesOn(Next(s, step), u, t, false);
  }

  // ---------------------------------------------------------------- a Start after the exit

  // Taken PIDs are one process's each, and a window is open for each process that waits in one.
  ghost predicate Usable(s: Sys) {
    Distinct(s) && forall m :: m in s.procs && s.procs[m].place.Opening? ==>
      s.procs[m].place.window in s.windows && s.windows[s.procs[m].place.window] == Some(m)
  }

  // n is registered under its PID.
  ghost predicate Listed(s: Sys, n: nat) {
    && n in s.procs && s.procs[n].pid > 0 && s.procs[n].proc.serial == n
    && s.procs[n].proc in At(s.tracker.processes, s.procs[n].pid)
  }

  // What a stale registration leads to: the process is handed an exit that is not its own.
  ghost predicate Misled(s: Sys, t: Sys, n: nat) {
    && Reaches(s, t, true) && n in s.procs && Mistaken(t.log, s.procs[n].proc)
    && Times(t.log, n) >= Times(s.log, n) + 1
  }

  // Another process with the PID exits.
  lemma Strike(s: Sys, n: nat, q: nat) returns (t: Sys)
    requires Listed(s, n) && q in s.procs && q != n && Current(s.procs[q]) && s.procs[q].pid == s.procs[n].pid
    ensures Misled(s, t, n)
  {
    t := LetExit(s, q);
    ReachesAnyhow(s, t);
    var p, pid := s.procs[n].proc, s.procs[n].pid;
    var ps := At(s.tracker.processes, pid);
    var more := Handouts(ps, Exit(pid, q));
    var k :| 0 <= k < |ps| && ps[k] == p;
    assert more[k] == Handout(p, Exit(pid, q)) && more[k] in more && more[k] in t.log;
    TimesAppend(s.log, more, n);
    TimesFound(more, more[k]);
  }

  // Whoever waits for the PID in a window gives up.
  lemma FreePid(s: Sys, pid: nat) returns (t: Sys)
    requires Usable(s) && forall m :: m in s.procs && s.procs[m].pid == pid ==> !Current(s.procs[m])
    ensures Reaches(s, t, true)
    ensures PidIsFree(t, pid) && t.log == s.log && t.tracker.processes == s.tracker.processes
    ensures forall m :: m in s.procs ==> m in t.procs && (!InUse(s.procs[m]) ==> t.procs[m] == s.procs[m])
  {
    t := s;
    ReachesItself(s, true);
    if m :| m in s.procs && InUse(s.procs[m]) && s.procs[m].pid == pid {
      var w := s.procs[m].place.window;
      ReachesNext(s, s, GiveUp(w), true);
      t := Next(s, GiveUp(w));
      forall k | k in t.procs && InUse(t.procs[k]) ensures t.procs[k].pid != pid {
        assert k != m && s.procs[k] == t.procs[k];
        assert !Clash(s.procs[k], s.procs[m]);
      }
    }
  }

  lemma SpawnAndStrike(s: Sys, n: nat) returns (t: Sys)
    requires Listed(s, n) && PidIsFree(s, s.procs[n].pid)
    ensures Misled(s, t, n)
  {
    var q := Unused(s.procs.Keys);
    var spawn := Spawn(Proc(0, q, false), s.procs[n].pid, None);
    ReachesItself(s, true);
    ReachesNext(s, s, spawn, true);
    t := Strike(Next(s, spawn), n, q);
    ReachesOn(s, Next(s, spawn), t, true);
  }

  // A process that is registered although its exit was notified is handed another one's exit.
  lemma StaleIsMistaken(s: Sys, n: nat) returns (t: Sys)
    requires Usable(s) && Listed(s, n) && !InUse(s.procs[n])
    ensures Misled(s, t, n)
  {
    var pid := s.procs[n].pid;
    if q :| q in s.procs && s.procs[q].pid == pid && Current(s.procs[q]) {
      t := Strike(s, n, q);
    } else {
      var u := FreePid(s, pid);
      t := SpawnAndStrike(u, n);
      ReachesOn(s, u, t, true);
    }
  }

  // Closing another window for n leaves that of the new Start open.
  lemma ReopenedStill(s: Sys, step: Step, u: Sys, t: Sys, w: nat, place: Place)
    requires Restarts(step) && Enabled(s, step) && Reopened(s, u, step)
    requires w in s.windows && s.windows[w] == Some(step.serial) && w != Window(s, step)
    requires Closed(u, t, w) && t.procs == SetPlace(u, step.serial, place)
    ensures Reopened(s, t, step)
  {
  }

  lemma OneMore(log: seq<Handout>, p: Proc, e: Exit)
    ensures Times(log + EarlyHandouts(p, [e]), p.serial) == Times(log, p.serial) + 1
  {
    TimesAppend(log, EarlyHandouts(p, [e]), p.serial);
    TimesAll(EarlyHandouts(p, [e]), p.serial);
  }

  // The window that is open for n, besides that of the new Start, hands out the exit that it holds.
  lemma FirstHandsOut(s: Sys, step: Step) returns (t: Sys)
    requires Core(s) && Restarts(step) && Enabled(s, step)
    requires !Current(s.procs[step.serial]) && s.procs[step.serial].place.Opening?
    ensures Reaches(Next(s, step), t, false) && Reopened(s, t, step)
    ensures Times(t.log, step.serial) == 1
  {
    var n := step.serial;
    var i, w := s.procs[n], s.procs[n].place.window;
    assert ProcOk(s, n);
    Opens(s, step);
    StillOpen(s, step);
    var s1 := Next(s, step);
    HandsOut(s1, w, n, [Exit(i.pid, n)]);
    ReachesItself(s1, false);
    ReachesNext(s1, s1, HandleStart(w), false);
    t := Next(s1, HandleStart(w));
    ReopenedStill(s, step, s1, t, w, HandedOut);
    OneMore(s.log, i.proc, Exit(i.pid, n));
  }

  // After that, or when no such window is there.
  lemma OneOpenWindow(s: Sys, step: Step) returns (t: Sys)
    requires Core(s) && Restarts(step) && Enabled(s, step) && !Current(s.procs[step.serial])
    ensures Reaches(Next(s, step), t, false) && Reopened(s, t, step)
    ensures Times(t.log, step.serial) == if s.procs[step.serial].place == GivenUp then 0 else 1
  {
    assert ProcOk(s, step.serial);
    if s.procs[step.serial].place.Opening? {
      t := FirstHandsOut(s, step);
    } else {
      Opens(s, step);
      t := Next(s, step);
      ReachesItself(t, false);
    }
  }

  lemma StaysUsable(s: Sys, t: Sys, n: nat)
    requires Core(s) && n in s.procs && n in t.procs && t.procs == s.procs[n := t.procs[n]] && !InUse(t.procs[n])
    requires OthersOpen(s, t, n)
    ensures Usable(t)
  {
    forall m | m in t.procs && t.procs[m].place.Opening?
      ensures t.procs[m].place.window in t.windows && t.windows[t.procs[m].place.window] == Some(m)
    {
      assert m != n && ProcOk(s, m);
    }
    forall a, b | a in t.procs && b in t.procs && Clash(t.procs[a], t.procs[b]) ensures a == b {
      assert Clash(s.procs[a], s.procs[b]);
    }
  }

  lemma RegisterStale(s: Sys, step: Step, u: Sys) returns (t: Sys)
    requires Restarts(step) && Enabled(s, step) && Reopened(s, u, step) && Holding(s, step) == []
    requires s.procs[step.serial].proc.serial == step.serial && (step.OpenRestart? ==> Window(s, step) !in s.windows)
    ensures Reaches(u, t, false) && t.log == u.log && t.procs == SetPlace(s, step.serial, Registered)
    ensures OthersOpen(s, t, step.serial) && Listed(t, step.serial)
  {
    var n, w := step.serial, Window(s, step);
    Registers(u, w, n);
    ReachesItself(u, false);
    ReachesNext(u, u, HandleStart(w), false);
    t := Next(u, HandleStart(w));
  }

  // The new window is closed too: the process is registered again.
  lemma StaleStart(s: Sys, step: Step) returns (t: Sys)
    requires Core(s) && Restarts(step) && Enabled(s, step) && !Current(s.procs[step.serial]) && Holding(s, step) == []
    ensures Reaches(Next(s, step), t, false) && Usable(t) && Listed(t, step.serial) && !InUse(t.procs[step.serial])
    ensures t.procs[step.serial].proc == s.procs[step.serial].proc
    ensures Times(t.log, step.serial) == if s.procs[step.serial].place == GivenUp then 0 else 1
  {
    assert ProcOk(s, step.serial);
    var u := OneOpenWindow(s, step);
    t := RegisterStale(s, step, u);
    ReachesOn(Next(s, step), u, t, false);
    StaysUsable(s, t, step.serial);
  }

  // A process that is started after its exit was notified is registered again, and the next exit with its PID
  // goes to it.
  lemma StaleStartMistakes(s: Sys, step: Step) returns (t: Sys)
    requires Core(s) && Restarts(step) && Enabled(s, step) && !Current(s.procs[step.serial]) && Holding(s, step) == []
    ensures Reaches(Next(s, step), t, true) && Mistaken(t.log, s.procs[step.serial].proc)
    ensures s.procs[step.serial].place != GivenUp ==> Times(t.log, step.serial) >= 2
  {
    var u := StaleStart(s, step);
    ReachesAnyhow(Next(s, step), u);
    t := StaleIsMistaken(u, step.serial);
    ReachesOn(Next(s, step), u, t, true);
  }

  // ---------------------------------------------------------------- a window that holds exits

  // What breaks the delivery to n.
  ghost predicate Broken(s: Sys, t: Sys, step: Step)
    requires Restarts(step) && Enabled(s, step)
  {
    && Reaches(Next(s, step), t, true)
    && (Times(t.log, step.serial) >= 2 || Mistaken(t.log, s.procs[step.serial].proc))
  }

  // The window hands out the exits c, with an exit that is not n's among them, or as one too many.
  lemma HandsOutTooMuch(s: Sys, step: Step, u: Sys, c: seq<Exit>) returns (t: Sys)
    requires Restarts(step) && Enabled(s, step) && s.procs[step.serial].proc.serial == step.serial
    requires Reaches(Next(s, step), u, false) && OpenFor(u, Window(s, step), step.serial, c) && c != []
    requires u.procs[step.serial].proc == s.procs[step.serial].proc
    requires (exists k :: 0 <= k < |c| && c[k].serial != step.serial) || Times(u.log, step.serial) + |c| >= 2
    ensures Broken(s, t, step)
  {
    var n, w, p := step.serial, Window(s, step), s.procs[step.serial].proc;
    HandsOut(u, w, n, c);
    ReachesNext(Next(s, step), u, HandleStart(w), false);
    t := Next(u, HandleStart(w));
    ReachesAnyhow(Next(s, step), t);
    var more := EarlyHandouts(p, c);
    TimesAppend(u.log, more, n);
    TimesAll(more, n);
    if k :| 0 <= k < |c| && c[k].serial != n { assert more[k] == Handout(p, c[k]) && more[k] in t.log; }
  }

  // The window was open when the exit was notified, and the PID is taken again: that process exits too.
  lemma TakenAgain(s: Sys, step: Step, m: nat) returns (t: Sys)
    requires Core(s) && Restarts(step) && Enabled(s, step) && Holding(s, step) != []
    requires m in s.procs && m != step.serial && Current(s.procs[m]) && s.procs[m].pid == s.procs[step.serial].pid
    ensures Broken(s, t, step)
  {
    var n, c := step.serial, Holding(s, step);
    assert ProcOk(s, n);
    Opens(s, step);
    var u := LetExit(Next(s, step), m);
    assert (c + [Exit(s.procs[m].pid, m)])[|c|].serial == m;
    t := HandsOutTooMuch(s, step, u, c + [Exit(s.procs[m].pid, m)]);
  }

  // A window with one exit, the process's own: it was handed out before, or another window hands it out.
  lemma OwnExitTwice(s: Sys, step: Step) returns (t: Sys)
    requires Core(s) && Restarts(step) && Enabled(s, step) && Holding(s, step) != []
    requires !Current(s.procs[step.serial]) && s.procs[step.serial].place != GivenUp
    ensures Broken(s, t, step)
  {
    assert ProcOk(s, step.serial);
    var u := OneOpenWindow(s, step);
    t := HandsOutTooMuch(s, step, u, Holding(s, step));
  }

  lemma HoldingBreaks(s: Sys, step: Step) returns (t: Sys)
    requires Inv(s) && Restarts(step) && Enabled(s, step) && !Orderly(s, step) && Holding(s, step) != []
    ensures Broken(s, t, step)
  {
    var n, w, c := step.serial, step.window, Holding(s, step);
    assert ProcOk(s, n);
    assert Holds(s, w, s.procs[n].pid, c[0]) && NotifiedExit(s, s.procs[n].pid, c[0]);
    if |c| >= 2 || c[0].serial != n {
      Opens(s, step);
      ReachesItself(Next(s, step), false);
      t := HandsOutTooMuch(s, step, Next(s, step), c);
    } else if s.procs[n].place != GivenUp {
      t := OwnExitTwice(s, step);
    } else {
      assert c == [Exit(s.procs[n].pid, n)];
      var m :| m in s.procs && Current(s.procs[m]) && s.procs[m].pid == s.procs[n].pid;
      t := TakenAgain(s, step, m);
    }
  }

  // ---------------------------------------------------------------- main results

  // Every Start of a known process that is not orderly has a continuation, with no further such Start, that
  // breaks the delivery to it.
  lemma DisorderlyStartBreaks(s: Sys, step: Step) returns (t: Sys)
    requires Inv(s) && Restarts(step) && Enabled(s, step) && !Orderly(s, step)
    ensures Broken(s, t, step)
  {
    var n := step.serial;
    assert ProcOk(s, n);
    if Holding(s, step) != [] {
      t := HoldingBreaks(s, step);
    } else if Current(s.procs[n]) {
      t := SecondWindowDoubles(s, step);
      ReachesAnyhow(Next(s, step), t);
    } else {
      t := StaleStartMistakes(s, step);
    }
  }

  // Some run leads from s to t in which all Starts of known processes are orderly.
  ghost predicate Follows(s: Sys, t: Sys) {
    exists run: seq<Sys>, steps: seq<Step> :: OrderlyRun(s, run, steps) && run[|steps|] == t
  }

  ghost predicate OrderlyRun(s: Sys, run: seq<Sys>, steps: seq<Step>) {
    RunFrom(s, run, steps) && AllOrderly(run, steps)
  }

  lemma ReachesFollows(s: Sys, t: Sys)
    requires Reaches(s, t, true)
    ensures Follows(s, t)
  {
    var run: seq<Sys>, steps: seq<Step> :| PlainRun(s, run, steps, true) && run[|steps|] == t;
    assert OrderlyRun(s, run, steps);
  }

  lemma {:induction false} ProcsStay(s: Sys, run: seq<Sys>, steps: seq<Step>, n: nat, k: nat)
    requires RunFrom(s, run, steps) && n in s.procs && k < |run|
    ensures n in run[k].procs && run[k].procs[n].proc == s.procs[n].proc
    decreases k
  {
    if k > 0 {
      ProcsStay(s, run, steps, n, k - 1);
      assert run[k] == Next(run[k - 1], steps[k - 1]);
    }
  }

  lemma OrderlyDelivers(s: Sys, t: Sys, n: nat)
    requires Inv(s) && n in s.procs && Follows(s, t)
    ensures Delivered(t, n) && t.procs[n].proc == s.procs[n].proc
  {
    var run: seq<Sys>, steps: seq<Step> :| OrderlyRun(s, run, steps) && run[|steps|] == t;
    ProcsStay(s, run, steps, n, |steps|);
    RunsKeep(s, run, steps, |steps|);
    assert ProcOk(t, n);
    assert forall h :: h in t.log ==> OwnExit(t, h);
  }

  // The condition is exact: in every reachable state, a Start of a known process is orderly if and only if
  // nothing that can follow it, with orderly Starts only, breaks the delivery to that process.
  lemma OrderlyIsExact(s: Sys, step: Step)
    requires Inv(s) && Restarts(step) && Enabled(s, step)
    ensures Orderly(s, step) <==> forall t: Sys :: Follows(Next(s, step), t) ==> Delivered(t, step.serial)
  {
    var u := Next(s, step);
    if Orderly(s, step) {
      StepKeeps(s, step);
      forall t: Sys | Follows(u, t) ensures Delivered(t, step.serial) { OrderlyDelivers(u, t, step.serial); }
    } else {
      var t := DisorderlyStartBreaks(s, step);
      ReachesFollows(u, t);
      var run: seq<Sys>, steps: seq<Step> :| PlainRun(u, run, steps, true) && run[|steps|] == t;
      ProcsStay(u, run, steps, step.serial, |steps|);
    }
  }

  // ---------------------------------------------------------------- from the start

  const INIT := Proc(0, 0, true)
  const EXEC := Proc(0, 0, false)

  lemma ThreeSteps(s: Sys, a: Step, b: Step, c: Step)
    requires Enabled(s, a) && Enabled(Next(s, a), b) && Enabled(Next(Next(s, a), b), c)
    ensures var s1 := Next(s, a);
            var s2 := Next(s1, b);
            RunFrom(s, [s, s1, s2, Next(s2, c)], [a, b, c])
  {
  }

  // A process is started and registered.
  lemma Launched(p: Proc) returns (run: seq<Sys>, steps: seq<Step>)
    requires p.serial == 0
    ensures IsRun(run, steps) && AllOrderly(run, steps)
    ensures var s := run[|steps|];
            && 0 in s.procs && s.procs[0] == Info(p, 1, Live, Registered) && s.windows == map[]
  {
    var spawn := Spawn(p, 1, Some(1));
    ThreeSteps(Initial(), OpenStart, spawn, HandleStart(1));
    var s1 := Next(Initial(), OpenStart);
    var s2 := Next(s1, spawn);
    run, steps := [Initial(), s1, s2, Next(s2, HandleStart(1))], [OpenStart, spawn, HandleStart(1)];
  }

  // It exits and is handed its exit.
  lemma LaunchedAndDone(p: Proc) returns (run: seq<Sys>, steps: seq<Step>)
    requires p.serial == 0
    ensures IsRun(run, steps) && AllOrderly(run, steps)
    ensures var s := run[|steps|];
            && 0 in s.procs && s.procs[0] == Info(p, 1, Notified, HandedOut) && s.windows == map[]
  {
    run, steps := Launched(p);
    var s := run[|steps|];
    Extend(Initial(), run, steps, ProcExit(0));
    run, steps := run + [Next(s, ProcExit(0))], steps + [ProcExit(0)];
    var t := run[|steps|];
    Extend(Initial(), run, steps, NotifyExit(0));
    run, steps := run + [Next(t, NotifyExit(0))], steps + [NotifyExit(0)];
  }

  // The run goes on with a Start that ends as t.
  lemma GoesOn(run: seq<Sys>, steps: seq<Step>, step: Step, t: Sys) returns (run2: seq<Sys>, steps2: seq<Step>)
    requires IsRun(run, steps) && Enabled(run[|steps|], step) && Reaches(Next(run[|steps|], step), t, true)
    ensures IsRun(run2, steps2) && run2[|steps2|] == t
  {
    var u := Next(run[|steps|], step);
    Extend(Initial(), run, steps, step);
    var run1, steps1 := run + [u], steps + [step];
    var more: seq<Sys>, rest: seq<Step> :| PlainRun(u, more, rest, true) && more[|rest|] == t;
    Concat(Initial(), run1, steps1, more, rest);
    run2, steps2 := run1 + more[1..], steps1 + rest;
  }

  // A window is opened for a Start of an exec.
  lemma StartOfExec(run: seq<Sys>, steps: seq<Step>) returns (run2: seq<Sys>, steps2: seq<Step>, w: nat)
    requires IsRun(run, steps) && AllOrderly(run, steps)
    ensures IsRun(run2, steps2) && AllOrderly(run2, steps2)
    ensures run2[|steps2|].procs == run[|steps|].procs
    ensures w in run2[|steps2|].windows && run2[|steps2|].windows[w].None?
    ensures w in run2[|steps2|].tracker.detector.exits && run2[|steps2|].tracker.detector.exits[w] == map[]
  {
    Extend(Initial(), run, steps, OpenStart);
    run2, steps2 := run + [Next(run[|steps|], OpenStart)], steps + [OpenStart];
    w := run[|steps|].tracker.detector.next + 1;
  }

  // Two overlapping Starts of one init: its only exit is handed out twice.
  lemma OverlappingStarts() returns (run: seq<Sys>, steps: seq<Step>)
    ensures IsRun(run, steps) && Times(run[|steps|].log, 0) == 2
  {
    run, steps := Launched(INIT);
    var s := run[|steps|];
    Extend(Initial(), run, steps, OpenRestart(0));
    run, steps := run + [Next(s, OpenRestart(0))], steps + [OpenRestart(0)];
    RunsKeep(Initial(), run, steps, |steps|);
    var t := SecondWindowDoubles(run[|steps|], OpenRestart(0));
    ReachesAnyhow(Next(run[|steps|], OpenRestart(0)), t);
    run, steps := GoesOn(run, steps, OpenRestart(0), t);
  }

  // A Start after the init's exit was handed out: the next process with its PID makes it a second one.
  lemma StartAfterExit() returns (run: seq<Sys>, steps: seq<Step>)
    ensures IsRun(run, steps) && Times(run[|steps|].log, 0) >= 2 && Mistaken(run[|steps|].log, INIT)
  {
    run, steps := LaunchedAndDone(INIT);
    RunsKeep(Initial(), run, steps, |steps|);
    var t := StaleStartMistakes(run[|steps|], OpenRestart(0));
    run, steps := GoesOn(run, steps, OpenRestart(0), t);
  }

  // A second Start of a running exec is refused, and registers it again: its only exit is handed out twice.
  lemma SecondStartOfExec() returns (run: seq<Sys>, steps: seq<Step>)
    ensures IsRun(run, steps) && Times(run[|steps|].log, 0) == 2
  {
    run, steps := Launched(EXEC);
    var w;
    run, steps, w := StartOfExec(run, steps);
    RunsKeep(Initial(), run, steps, |steps|);
    var t := SecondWindowDoubles(run[|steps|], Attach(w, 0));
    ReachesAnyhow(Next(run[|steps|], Attach(w, 0)), t);
    run, steps := GoesOn(run, steps, Attach(w, 0), t);
  }

  // A Start of an exec that has exited: the next process with its PID makes it a second exit.
  lemma StartOfExitedExec() returns (run: seq<Sys>, steps: seq<Step>)
    ensures IsRun(run, steps) && Times(run[|steps|].log, 0) >= 2 && Mistaken(run[|steps|].log, EXEC)
  {
    run, steps := LaunchedAndDone(EXEC);
    var w;
    run, steps, w := StartOfExec(run, steps);
    RunsKeep(Initial(), run, steps, |steps|);
    var t := StaleStartMistakes(run[|steps|], Attach(w, 0));
    run, steps := GoesOn(run, steps, Attach(w, 0), t);
  }
}
