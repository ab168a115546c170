// Every step keeps the delivery invariant, so every exit of a started process is handed out once.
module ExitDeliverySafety {
  import opened Base
  import opened ExitTracking
  import opened ExitDelivery

  // ---------------------------------------------------------------- parts of the invariant

  // As far as the log can tell, n is the same process.
  predicate SameToLog(i: Info, j: Info) {
    i.proc == j.proc && i.pid == j.pid && (i.place == HandedOut) == (j.place == HandedOut)
  }

  lemma LogStays(s: Sys, t: Sys)
    requires LogOk(s) && t.log == s.log && s.procs.Keys == t.procs.Keys
    requires forall n :: n in s.procs ==> SameToLog(s.procs[n], t.procs[n])
    ensures LogOk(t)
  {
    forall h | h in t.log ensures OwnExit(t, h) { assert OwnExit(s, h); }
  }

  // No new clash of PIDs can come from what a step does to one process.
  lemma DistinctStays(s: Sys, t: Sys)
    requires Distinct(s) && s.procs.Keys == t.procs.Keys
    requires forall n :: n in s.procs ==> s.procs[n].pid == t.procs[n].pid
    requires forall n :: n in s.procs && InUse(t.procs[n]) ==> InUse(s.procs[n])
    ensures Distinct(t)
  {
    forall a, b | a in t.procs && b in t.procs && Clash(t.procs[a], t.procs[b]) ensures a == b {
      assert Clash(s.procs[a], s.procs[b]);
    }
  }

  // Registered processes are found in the registry by their PID, alone.
  lemma RegistryHas(s: Sys, pid: nat)
    requires Core(s) && pid in s.tracker.processes
    ensures exists n :: n in s.procs && s.procs[n].place == Registered && s.procs[n].pid == pid && Current(s.procs[n])
  {
    var n :| n in s.procs && s.procs[n].place == Registered && s.procs[n].pid == pid;
    assert ProcOk(s, n);
  }

  lemma RegistryStays(s: Sys, t: Sys)
    requires RegistryOk(s) && t.tracker.processes.Keys <= s.tracker.processes.Keys && s.procs.Keys <= t.procs.Keys
    requires forall n :: n in s.procs && s.procs[n].place == Registered && s.procs[n].pid in t.tracker.processes ==>
      t.procs[n].place == Registered && t.procs[n].pid == s.procs[n].pid
    ensures RegistryOk(t)
  {
    forall pid | pid in t.tracker.processes
      ensures exists n :: n in t.procs && t.procs[n].place == Registered && t.procs[n].pid == pid
    {
      var n :| n in s.procs && s.procs[n].place == Registered && s.procs[n].pid == pid;
      assert n in t.procs;
    }
  }

  // A step that hands nothing out, and at most moves processes on.
  predicate MovedOn(i: Info, j: Info) {
    SameToLog(i, j) && (InUse(j) ==> InUse(i))
  }

  lemma QuietStep(s: Sys, t: Sys)
    requires Distinct(s) && RegistryOk(s) && LogOk(s) && t.log == s.log && s.procs.Keys == t.procs.Keys
    requires forall n :: n in s.procs ==> MovedOn(s.procs[n], t.procs[n])
    requires t.tracker.processes.Keys <= s.tracker.processes.Keys
    requires forall n :: n in s.procs && s.procs[n].place == Registered && s.procs[n].pid in t.tracker.processes ==>
      t.procs[n].place == Registered
    ensures Distinct(t) && RegistryOk(t) && LogOk(t)
  {
    DistinctStays(s, t);
    RegistryStays(s, t);
    LogStays(s, t);
  }

  // Notified processes stay what they are.
  predicate NotifiedStay(s: Sys, t: Sys) {
    forall n :: n in s.procs && s.procs[n].phase == Notified ==>
      n in t.procs && t.procs[n].phase == Notified && t.procs[n].pid == s.procs[n].pid
  }

  predicate CollectedSame(s: Sys, t: Sys, w: nat) {
    && w in t.tracker.detector.exits
    && var c := t.tracker.detector.exits[w];
       if w in s.windows && w in s.tracker.detector.exits then c == s.tracker.detector.exits[w] else c == map[]
  }

  // No window collects anything; a new one is empty.
  lemma CollectedStays(s: Sys, t: Sys)
    requires CollectedOk(s) && NotifiedStay(s, t)
    requires forall w :: w in t.windows ==> CollectedSame(s, t, w)
    ensures CollectedOk(t)
  {
    forall w, pid, e | Holds(t, w, pid, e) ensures NotifiedExit(t, pid, e) { assert Holds(s, w, pid, e); }
    forall v, w, pid | v in t.windows && w in t.windows ensures SameLatest(t.tracker.detector.exits, v, w, pid) {
      assert v in s.windows && w in s.windows ==> SameLatest(s.tracker.detector.exits, v, w, pid);
    }
  }

  // ---------------------------------------------------------------- steps

  lemma OpenStartKeeps(s: Sys)
    requires Core(s)
    ensures Core(Next(s, OpenStart))
  {
    var t := Next(s, OpenStart);
    forall n | n in t.procs ensures ProcOk(t, n) { assert ProcOk(s, n); }
  }

  // A restarted process is alone in the registry with its PID, or nothing is there.
  lemma RestartFinds(s: Sys, n: nat)
    requires Core(s) && Enabled(s, OpenRestart(n)) && Orderly(s, OpenRestart(n))
    ensures var i := s.procs[n];
            && At(s.tracker.processes, i.pid) == (if i.place == Registered then [i.proc] else [])
            && Next(s, OpenRestart(n)).tracker.processes == s.tracker.processes - {i.pid}
  {
    var i := s.procs[n];
    assert ProcOk(s, n);
    OthersOfOne(i.proc, i.proc.container);
    if i.pid in s.tracker.processes {
      RegistryHas(s, i.pid);
      var m :| m in s.procs && s.procs[m].place == Registered && s.procs[m].pid == i.pid && Current(s.procs[m]);
      assert Clash(s.procs[m], i);
    }
  }

  lemma RestartProcs(s: Sys, n: nat, m: nat)
    requires Core(s) && Enabled(s, OpenRestart(n)) && Orderly(s, OpenRestart(n)) && m in s.procs
    ensures ProcOk(Next(s, OpenRestart(n)), m) && MovedOn(s.procs[m], Next(s, OpenRestart(n)).procs[m])
  {
    assert ProcOk(s, n) && ProcOk(s, m);
    RestartFinds(s, n);
    if m != n && s.procs[m].place == Registered { assert !Clash(s.procs[m], s.procs[n]); }
  }

  lemma OpenRestartKeeps(s: Sys, n: nat)
    requires Core(s) && Enabled(s, OpenRestart(n)) && Orderly(s, OpenRestart(n))
    ensures Core(Next(s, OpenRestart(n)))
  {
    var t := Next(s, OpenRestart(n));
    RestartFinds(s, n);
    forall m | m in s.procs ensures ProcOk(t, m) && MovedOn(s.procs[m], t.procs[m]) { RestartProcs(s, n, m); }
    QuietStep(s, t);
  }

  // The PID of an exec that is attached to a window is its own.
  lemma AttachIsAlone(s: Sys, w: nat, n: nat, m: nat)
    requires Inv(s) && Enabled(s, Attach(w, n)) && Orderly(s, Attach(w, n))
    requires m in s.procs && m != n && InUse(s.procs[m])
    ensures s.procs[m].pid != s.procs[n].pid
  {
    assert ProcOk(s, n) && ProcOk(s, m);
    var i, j := s.procs[n], s.procs[m];
    if Current(i) {
      assert !Clash(i, j);
    } else if !Current(j) {
      assert SameLatest(s.tracker.detector.exits, w, j.place.window, i.pid);
    }
  }

  lemma AttachProcs(s: Sys, w: nat, n: nat, m: nat)
    requires Core(s) && Enabled(s, Attach(w, n)) && Orderly(s, Attach(w, n)) && m in s.procs
    ensures ProcOk(Next(s, Attach(w, n)), m) && SameToLog(s.procs[m], Next(s, Attach(w, n)).procs[m])
  {
    assert ProcOk(s, n) && ProcOk(s, m);
  }

  lemma AttachKeeps(s: Sys, w: nat, n: nat)
    requires Inv(s) && Enabled(s, Attach(w, n)) && Orderly(s, Attach(w, n))
    ensures Core(Next(s, Attach(w, n)))
  {
    var t := Next(s, Attach(w, n));
    forall m | m in s.procs ensures ProcOk(t, m) && SameToLog(s.procs[m], t.procs[m]) { AttachProcs(s, w, n, m); }
    forall a, b | a in t.procs && b in t.procs && Clash(t.procs[a], t.procs[b]) ensures a == b {
      if a != n && b == n { AttachIsAlone(s, w, n, a); }
      if a == n && b != n { AttachIsAlone(s, w, n, b); }
      if a != n && b != n { assert Clash(s.procs[a], s.procs[b]); }
    }
    RegistryStays(s, t);
    LogStays(s, t);
  }

  lemma SpawnKeeps(s: Sys, p: Proc, pid: nat, w: Option<nat>)
    requires Core(s) && Enabled(s, Spawn(p, pid, w))
    ensures Core(Next(s, Spawn(p, pid, w)))
  {
    var t := Next(s, Spawn(p, pid, w));
    forall m | m in t.procs ensures ProcOk(t, m) {
      if m != p.serial { assert ProcOk(s, m); }
    }
    forall a, b | a in t.procs && b in t.procs && Clash(t.procs[a], t.procs[b]) ensures a == b {
      if a != p.serial && b != p.serial { assert Clash(s.procs[a], s.procs[b]); }
    }
    RegistryStays(s, t);
    SpawnLog(s, t, p.serial);
  }

  lemma SpawnLog(s: Sys, t: Sys, n: nat)
    requires LogOk(s) && t.log == s.log && n !in s.procs && n in t.procs && t.procs == s.procs[n := t.procs[n]]
    requires t.procs[n].place != HandedOut
    ensures LogOk(t)
  {
    forall h | h in t.log ensures OwnExit(t, h) && h.proc.serial != n { assert OwnExit(s, h); }
    NeverHandedOut(s.log, n);
  }

  lemma {:induction false} NeverHandedOut(log: seq<Handout>, n: nat)
    requires forall h :: h in log ==> h.proc.serial != n
    ensures Times(log, n) == 0
  {
    if log != [] { NeverHandedOut(log[..|log| - 1], n); }
  }

  lemma ProcExitKeeps(s: Sys, n: nat)
    requires Core(s) && Enabled(s, ProcExit(n))
    ensures Core(Next(s, ProcExit(n)))
  {
    var t := Next(s, ProcExit(n));
    forall m | m in t.procs ensures ProcOk(t, m) { assert ProcOk(s, m); }
    QuietStep(s, t);
  }

  // An exit is handed out for the process that it is the exit of, if that one is registered, and for no other.
  lemma NotifyFinds(s: Sys, n: nat)
    requires Core(s) && Enabled(s, NotifyExit(n))
    ensures At(s.tracker.processes, s.procs[n].pid) == if s.procs[n].place == Registered then [s.procs[n].proc] else []
  {
    var pid := s.procs[n].pid;
    assert ProcOk(s, n);
    if pid in s.tracker.processes {
      RegistryHas(s, pid);
      var m :| m in s.procs && s.procs[m].place == Registered && s.procs[m].pid == pid && Current(s.procs[m]);
      assert Clash(s.procs[m], s.procs[n]);
    }
  }

  lemma CollectedAt(s: Sys, n: nat, w: nat, pid: nat)
    requires WindowsOk(s) && Enabled(s, NotifyExit(n)) && w in s.windows
    ensures w in s.tracker.detector.exits && w in Next(s, NotifyExit(n)).tracker.detector.exits
    ensures var c, d := s.tracker.detector.exits[w], Next(s, NotifyExit(n)).tracker.detector.exits[w];
            Of(d, pid) == if pid == s.procs[n].pid then Of(c, pid) + [Exit(pid, n)] else Of(c, pid)
  {
  }

  lemma NotifyProcs(s: Sys, n: nat, m: nat)
    requires Core(s) && Enabled(s, NotifyExit(n)) && m in s.procs
    ensures ProcOk(Next(s, NotifyExit(n)), m)
  {
    assert ProcOk(s, m);
    var i := s.procs[m];
    if i.place.Opening? { CollectedAt(s, n, i.place.window, i.pid); }
    if m != n { assert i.place.Opening? || i.place == Registered ==> !Clash(s.procs[n], i); }
  }

  // Handing one process its own exit.
  lemma LogGrows(s: Sys, t: Sys, n: nat)
    requires LogOk(s) && s.procs.Keys == t.procs.Keys && n in s.procs && s.procs[n].proc.serial == n
    requires s.procs[n].place != HandedOut && t.procs[n].place == HandedOut
    requires forall m :: m in s.procs ==> s.procs[m].proc == t.procs[m].proc && s.procs[m].pid == t.procs[m].pid
    requires forall m :: m in s.procs && m != n ==> s.procs[m].place == t.procs[m].place
    requires t.log == s.log + [Handout(s.procs[n].proc, Exit(s.procs[n].pid, n))]
    ensures LogOk(t)
  {
    var h0 := Handout(s.procs[n].proc, Exit(s.procs[n].pid, n));
    forall h | h in t.log ensures OwnExit(t, h) { assert h in s.log ==> OwnExit(s, h); }
    forall m | m in t.procs ensures Times(t.log, m) == if t.procs[m].place == HandedOut then 1 else 0 {
      assert t.log[..|t.log| - 1] == s.log;
    }
  }

  lemma NotifyLog(s: Sys, n: nat)
    requires Core(s) && Enabled(s, NotifyExit(n))
    ensures LogOk(Next(s, NotifyExit(n)))
  {
    var t := Next(s, NotifyExit(n));
    NotifyFinds(s, n);
    assert ProcOk(s, n);
    var e := Exit(s.procs[n].pid, n);
    if s.procs[n].place == Registered {
      assert Handouts([s.procs[n].proc], e) == [Handout(s.procs[n].proc, e)];
      LogGrows(s, t, n);
    } else {
      assert Handouts([], e) == [] && s.log + [] == s.log;
      LogStays(s, t);
    }
  }

  lemma NotifyRest(s: Sys, n: nat)
    requires Core(s) && Enabled(s, NotifyExit(n))
    ensures var t := Next(s, NotifyExit(n));
            Distinct(t) && RegistryOk(t) && WindowsOk(t)
  {
    var t := Next(s, NotifyExit(n));
    DistinctStays(s, t);
    RegistryStays(s, t);
  }

  // Every open window collects the exit.
  lemma NotifyCollected(s: Sys, n: nat)
    requires Inv(s) && Enabled(s, NotifyExit(n))
    ensures CollectedOk(Next(s, NotifyExit(n)))
  {
    var t := Next(s, NotifyExit(n));
    forall w, pid, e | Holds(t, w, pid, e) ensures NotifiedExit(t, pid, e) {
      CollectedAt(s, n, w, pid);
      if e in Of(s.tracker.detector.exits[w], pid) { assert Holds(s, w, pid, e) && NotifiedExit(s, pid, e); }
    }
    forall v, w, pid | v in t.windows && w in t.windows ensures SameLatest(t.tracker.detector.exits, v, w, pid) {
      CollectedAt(s, n, v, pid);
      CollectedAt(s, n, w, pid);
      assert SameLatest(s.tracker.detector.exits, v, w, pid);
    }
  }

  lemma NotifyKeeps(s: Sys, n: nat)
    requires Core(s) && Enabled(s, NotifyExit(n))
    ensures Core(Next(s, NotifyExit(n)))
  {
    var t := Next(s, NotifyExit(n));
    forall m | m in t.procs ensures ProcOk(t, m) { NotifyProcs(s, n, m); }
    NotifyRest(s, n);
    NotifyLog(s, n);
  }

  // The start window holds nothing for a process that runs on, and exactly its exit otherwise.
  lemma StartFinds(s: Sys, w: nat)
    requires Core(s) && Enabled(s, HandleStart(w))
    ensures var n := s.windows[w].value;
            var i := s.procs[n];
            && i.place == Opening(w) && i.proc.serial == n && i.pid > 0
            && w in s.tracker.detector.exits && Held(i, n, s.tracker.detector.exits[w])
            && (i.phase != Notified ==> At(s.tracker.processes, i.pid) == [])
  {
    var n := s.windows[w].value;
    assert ProcOk(s, n);
    var pid := s.procs[n].pid;
    if pid in s.tracker.processes {
      RegistryHas(s, pid);
      var m :| m in s.procs && s.procs[m].place == Registered && s.procs[m].pid == pid && Current(s.procs[m]);
      assert Clash(s.procs[m], s.procs[n]);
    }
  }

  lemma StartProcs(s: Sys, w: nat, m: nat)
    requires Core(s) && Enabled(s, HandleStart(w)) && m in s.procs
    ensures ProcOk(Next(s, HandleStart(w)), m)
  {
    StartFinds(s, w);
    assert ProcOk(s, m);
    var n := s.windows[w].value;
    if m != n && s.procs[m].place == Registered { assert !Clash(s.procs[m], s.procs[n]); }
  }

  lemma StartRegistry(s: Sys, w: nat)
    requires Core(s) && Enabled(s, HandleStart(w))
    ensures RegistryOk(Next(s, HandleStart(w)))
  {
    StartFinds(s, w);
    var t := Next(s, HandleStart(w));
    var n := s.windows[w].value;
    forall pid | pid in t.tracker.processes
      ensures exists m :: m in t.procs && t.procs[m].place == Registered && t.procs[m].pid == pid
    {
      if pid in s.tracker.processes {
        var m :| m in s.procs && s.procs[m].place == Registered && s.procs[m].pid == pid;
        assert m in t.procs && m != n;
      } else {
        assert t.procs[n].place == Registered;
      }
    }
  }

  lemma StartLog(s: Sys, w: nat)
    requires Core(s) && Enabled(s, HandleStart(w))
    ensures LogOk(Next(s, HandleStart(w)))
  {
    StartFinds(s, w);
    var t := Next(s, HandleStart(w));
    var n := s.windows[w].value;
    var i := s.procs[n];
    if i.phase == Notified {
      assert EarlyHandouts(i.proc, [Exit(i.pid, n)]) == [Handout(i.proc, Exit(i.pid, n))];
      LogGrows(s, t, n);
    } else {
      assert EarlyHandouts(i.proc, []) == [] && s.log + [] == s.log;
      LogStays(s, t);
    }
  }

  lemma StartDistinct(s: Sys, w: nat)
    requires Core(s) && Enabled(s, HandleStart(w))
    ensures Distinct(Next(s, HandleStart(w))) && WindowsOk(Next(s, HandleStart(w)))
  {
    StartFinds(s, w);
    DistinctStays(s, Next(s, HandleStart(w)));
  }

  lemma StartKeeps(s: Sys, w: nat)
    requires Core(s) && Enabled(s, HandleStart(w))
    ensures Core(Next(s, HandleStart(w)))
  {
    var t := Next(s, HandleStart(w));
    forall m | m in t.procs ensures ProcOk(t, m) { StartProcs(s, w, m); }
    StartDistinct(s, w);
    StartRegistry(s, w);
    StartLog(s, w);
  }

  lemma GiveUpProcs(s: Sys, w: nat, m: nat)
    requires Core(s) && Enabled(s, GiveUp(w)) && m in s.procs
    ensures ProcOk(Next(s, GiveUp(w)), m) && MovedOn(s.procs[m], Next(s, GiveUp(w)).procs[m])
  {
    assert ProcOk(s, m);
  }

  lemma GiveUpKeeps(s: Sys, w: nat)
    requires Core(s) && Enabled(s, GiveUp(w))
    ensures Core(Next(s, GiveUp(w)))
  {
    var t := Next(s, GiveUp(w));
    forall m | m in s.procs ensures ProcOk(t, m) && MovedOn(s.procs[m], t.procs[m]) { GiveUpProcs(s, w, m); }
    QuietStep(s, t);
  }

  lemma OthersOfOne(p: Proc, c: nat)
    ensures Others([p], c) == if p.container == c then [] else [p]
  {
    assert [p][1..] == [];
  }

  lemma DeleteProcs(s: Sys, c: nat, m: nat)
    requires Core(s) && m in s.procs
    ensures var t := Next(s, Delete(c));
            && ProcOk(t, m) && MovedOn(s.procs[m], t.procs[m])
            && (s.procs[m].place == Registered && s.procs[m].pid in t.tracker.processes ==>
                  t.procs[m].place == Registered)
  {
    assert ProcOk(s, m);
    OthersOfOne(s.procs[m].proc, c);
  }

  lemma DeleteKeeps(s: Sys, c: nat)
    requires Core(s)
    ensures Core(Next(s, Delete(c)))
  {
    var t := Next(s, Delete(c));
    forall m | m in s.procs
      ensures ProcOk(t, m) && MovedOn(s.procs[m], t.procs[m])
      ensures s.procs[m].place == Registered && s.procs[m].pid in t.tracker.processes ==> t.procs[m].place == Registered
    {
      DeleteProcs(s, c, m);
    }
    QuietStep(s, t);
  }

  lemma OnlyNotifyCollects(s: Sys, step: Step)
    requires WindowsOk(s) && Enabled(s, step) && !step.NotifyExit?
    ensures NotifiedStay(s, Next(s, step))
    ensures forall w :: w in Next(s, step).windows ==> CollectedSame(s, Next(s, step), w)
  {
  }

  lemma CollectedKeeps(s: Sys, step: Step)
    requires Inv(s) && Enabled(s, step)
    ensures CollectedOk(Next(s, step))
  {
    if step.NotifyExit? {
      NotifyCollected(s, step.serial);
    } else {
      OnlyNotifyCollects(s, step);
      CollectedStays(s, Next(s, step));
    }
  }

  lemma StepKeeps(s: Sys, step: Step)
    requires Inv(s) && Enabled(s, step) && Orderly(s, step)
    ensures Inv(Next(s, step))
  {
    match step {
      case OpenStart => OpenStartKeeps(s);
      case OpenRestart(n) => OpenRestartKeeps(s, n);
      case Attach(w, n) => AttachKeeps(s, w, n);
      case Spawn(p, pid, w) => SpawnKeeps(s, p, pid, w);
      case ProcExit(n) => ProcExitKeeps(s, n);
      case NotifyExit(n) => NotifyKeeps(s, n);
      case HandleStart(w) => StartKeeps(s, w);
      case GiveUp(w) => GiveUpKeeps(s, w);
      case Delete(c) => DeleteKeeps(s, c);
    }
    CollectedKeeps(s, step);
  }

  // ---------------------------------------------------------------- runs

  ghost predicate RunFrom(s: Sys, run: seq<Sys>, steps: seq<Step>) {
    && |run| == |steps| + 1 && run[0] == s
    && forall i :: 0 <= i < |steps| ==> Enabled(run[i], steps[i]) && run[i + 1] == Next(run[i], steps[i])
  }

  ghost predicate IsRun(run: seq<Sys>, steps: seq<Step>) { RunFrom(Initial(), run, steps) }

  // Every Start of a known process in the run is one that delivery survives.
  ghost predicate AllOrderly(run: seq<Sys>, steps: seq<Step>)
    requires |run| == |steps| + 1 && forall i :: 0 <= i < |steps| ==> Enabled(run[i], steps[i])
  {
    forall i :: 0 <= i < |steps| ==> Orderly(run[i], steps[i])
  }

  lemma {:induction false} RunsKeep(s: Sys, run: seq<Sys>, steps: seq<Step>, k: nat)
    requires Inv(s) && RunFrom(s, run, steps) && AllOrderly(run, steps) && k < |run|
    ensures Inv(run[k])
    decreases k
  {
    if k > 0 {
      RunsKeep(s, run, steps, k - 1);
      StepKeeps(run[k - 1], steps[k - 1]);
    }
  }

  // In every run whose Starts of known processes are orderly: each process is handed at most one exit, its own; a
  // started process whose exit was notified has been handed it as soon as its start window is closed; a
  // registered one has not exited; and no subscription is left once no start is open.
  lemma ExactlyOnce(run: seq<Sys>, steps: seq<Step>, k: nat)
    requires IsRun(run, steps) && AllOrderly(run, steps) && k < |run|
    ensures var s := run[k];
            && (forall h :: h in s.log ==> OwnExit(s, h))
            && (forall n :: n in s.procs ==> Times(s.log, n) <= 1)
            && (forall n :: n in s.procs && (s.procs[n].place == Registered || s.procs[n].place == HandedOut) ==>
                  Times(s.log, n) == if s.procs[n].phase == Notified then 1 else 0)
            && s.tracker.detector.open == s.windows.Keys
  {
    RunsKeep(Initial(), run, steps, k);
    var s := run[k];
    forall n | n in s.procs && (s.procs[n].place == Registered || s.procs[n].place == HandedOut)
      ensures Times(s.log, n) == if s.procs[n].phase == Notified then 1 else 0
    {
      assert ProcOk(s, n);
    }
  }
}
