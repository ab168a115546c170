// Runs of the tracker's own calls. Every call is watched by the ordering model: its books say which execs run,
// whatever the tracker counts.
module TrackerRuns {
  import opened Base
  import opened ExitTracking
  import O = ExitOrdering
  import S = ExitOrderingSafety

  // watch: the ordering model, told of every exec that runs on after its start and of every init's exit.
  datatype Sys = Sys(tracker: Tracker, watch: O.Sys)

  function Initial(): Sys { Sys(Tracker(NO_SUBSCRIPTIONS, map[], Coordinator(map[], 0, [])), O.Initial()) }

  // exec: a name for the start in the books, when it is one of an exec. Note: anything the tracker is told apart
  // from starts, exits and deletions.
  datatype Call =
    | Subscribe(restart: Option<Restart>)
    | HandleStart(id: nat, p: Proc, pid: nat, exec: nat)
    | CancelStart(id: nat)
    | NotifyExit(e: Exit)
    | Delete(c: nat)
    | Note(step: O.Step)

  // The process has started and no exit of it came in its start window.
  predicate RunsOn(t: Tracker, id: nat, pid: nat) {
    pid != 0 && !(id in t.detector.exits && pid in t.detector.exits[id] && t.detector.exits[id][pid] != [])
  }

  predicate Alive(w: O.Sys, c: nat) { c in w.books && !w.books[c].gone }

  // A process that runs on belongs to a container that is there.
  predicate Enabled(s: Sys, call: Call) {
    match call
    case HandleStart(id, p, pid, x) =>
      RunsOn(s.tracker, id, pid) ==>
        Alive(s.watch, p.container) && (!p.init ==> x !in s.watch.books[p.container].registered)
    case Delete(c) => O.Enabled(s.watch, O.Cleanup(c))
    case Note(step) => !step.Register? && !step.InitStash? && !step.Cleanup? && O.Enabled(s.watch, step)
    case _ => true
  }

  // ---------------------------------------------------------------- what the tracker does

  // NotifyExecExit, ShouldDelayInitExit and GetInitExit.
  function Noted(k: Coordinator, step: O.Step): Coordinator {
    match step
    case Account(c, _) => ExecExited(k, c)
    case Decrement(c) => ExecExited(k, c)
    case Decide(c) => ShouldDelay(k, c).0
    case TakeExit(c) => TakeInitExit(k, c)
    case _ => k
  }

  function Tracks(t: Tracker, call: Call): Tracker {
    match call
    case Subscribe(r) => Open(t, r).0
    case HandleStart(id, p, pid, _) => Started(t, id, p, pid).0
    case CancelStart(id) => Cancel(t, id)
    case NotifyExit(e) => Notify(t, e).0
    case Delete(c) => Cleanup(t, c)
    case Note(step) => t.(coordinator := Noted(t.coordinator, step))
  }

  // ---------------------------------------------------------------- what happens

  function Happens(w: O.Sys, step: O.Step): O.Sys { if O.Enabled(w, step) then O.Next(w, step) else w }

  // The exit of every init among the processes.
  function InitsExit(w: O.Sys, ps: seq<Proc>, e: Exit): O.Sys
    decreases |ps|
  {
    if ps == [] then w
    else InitsExit(if ps[0].init then Happens(w, O.InitStash(ps[0].container, e)) else w, ps[1..], e)
  }

  function Watches(s: Sys, call: Call): O.Sys {
    match call
    case HandleStart(id, p, pid, x) =>
      if RunsOn(s.tracker, id, pid) && !p.init then Happens(s.watch, O.Register(p.container, x)) else s.watch
    case NotifyExit(e) => InitsExit(s.watch, At(s.tracker.processes, e.pid), e)
    case Delete(c) => Happens(s.watch, O.Cleanup(c))
    case Note(step) => Happens(s.watch, step)
    case _ => s.watch
  }

  function Next(s: Sys, call: Call): Sys { Sys(Tracks(s.tracker, call), Watches(s, call)) }

  ghost predicate IsRun(run: seq<Sys>, calls: seq<Call>) {
    && |run| == |calls| + 1 && run[0] == Initial()
    && forall i :: 0 <= i < |calls| ==> Enabled(run[i], calls[i]) && run[i + 1] == Next(run[i], calls[i])
  }

  // ---------------------------------------------------------------- the registry

  ghost predicate AllAlive(w: O.Sys, ps: seq<Proc>) { forall p :: p in ps ==> Alive(w, p.container) }

  ghost predicate RegistryOk(w: O.Sys, r: Registry) { forall pid :: pid in r ==> AllAlive(w, r[pid]) }

  lemma {:induction false} OthersMeans(ps: seq<Proc>, c: nat)
    ensures forall p :: p in Others(ps, c) <==> p in ps && p.container != c
  {
    if ps != [] { OthersMeans(ps[1..], c); }
  }

  lemma OpenKeepsRegistry(w: O.Sys, t: Tracker, r: Option<Restart>)
    requires RegistryOk(w, t.processes)
    ensures RegistryOk(w, Open(t, r).0.processes)
  {
    if r.Some? { OthersMeans(At(t.processes, r.value.pid), r.value.container); }
  }

  lemma StartKeepsRegistry(w: O.Sys, w': O.Sys, t: Tracker, id: nat, p: Proc, pid: nat)
    requires RegistryOk(w, t.processes) && (RunsOn(t, id, pid) ==> Alive(w, p.container))
    requires forall c :: Alive(w, c) ==> Alive(w', c)
    ensures RegistryOk(w', Started(t, id, p, pid).0.processes)
  {
  }

  lemma DeleteKeepsRegistry(w: O.Sys, w': O.Sys, r: Registry, c: nat)
    requires RegistryOk(w, r) && forall a :: Alive(w, a) && a != c ==> Alive(w', a)
    ensures RegistryOk(w', CleanupContainer(r, c))
  {
    forall pid | pid in CleanupContainer(r, c) ensures AllAlive(w', CleanupContainer(r, c)[pid]) {
      OthersMeans(r[pid], c);
    }
  }

  // ---------------------------------------------------------------- the tracker agrees with the books

  // The coordinator counts what happens, and every registered process belongs to a container that is there.
  ghost predicate Inv(s: Sys) {
    && O.Inv(s.watch) && s.tracker.coordinator == s.watch.coordinator
    && RegistryOk(s.watch, s.tracker.processes)
  }

  lemma StashStep(w: O.Sys, c: nat, e: Exit)
    requires O.Inv(w) && Alive(w, c)
    ensures var w' := Happens(w, O.InitStash(c, e));
            && O.Inv(w') && w'.coordinator == Stash(w.coordinator, c, e)
            && forall a :: Alive(w, a) <==> Alive(w', a)
  {
    S.StepKeeps(w, O.InitStash(c, e));
  }

  lemma {:induction false} StashesAgree(w: O.Sys, ps: seq<Proc>, e: Exit)
    requires O.Inv(w) && AllAlive(w, ps)
    ensures var w' := InitsExit(w, ps, e);
            && O.Inv(w') && w'.coordinator == StashAll(w.coordinator, ps, e)
            && forall a :: Alive(w, a) <==> Alive(w', a)
    decreases |ps|
  {
    if ps != [] {
      var p := ps[0];
      var w1 := if p.init then Happens(w, O.InitStash(p.container, e)) else w;
      if p.init { StashStep(w, p.container, e); }
      StashesAgree(w1, ps[1..], e);
    }
  }

  lemma StartKeeps(s: Sys, id: nat, p: Proc, pid: nat, x: nat)
    requires Inv(s) && Enabled(s, HandleStart(id, p, pid, x))
    ensures Inv(Next(s, HandleStart(id, p, pid, x)))
  {
    var w' := Watches(s, HandleStart(id, p, pid, x));
    if RunsOn(s.tracker, id, pid) && !p.init {
      S.StepKeeps(s.watch, O.Register(p.container, x));
    }
    StartKeepsRegistry(s.watch, w', s.tracker, id, p, pid);
  }

  lemma NotifyKeeps(s: Sys, e: Exit)
    requires Inv(s)
    ensures Inv(Next(s, NotifyExit(e)))
  {
    StashesAgree(s.watch, At(s.tracker.processes, e.pid), e);
  }

  lemma DeleteKeeps(s: Sys, c: nat)
    requires Inv(s) && Enabled(s, Delete(c))
    ensures Inv(Next(s, Delete(c)))
  {
    S.StepKeeps(s.watch, O.Cleanup(c));
    DeleteKeepsRegistry(s.watch, Watches(s, Delete(c)), s.tracker.processes, c);
  }

  lemma NoteAgrees(w: O.Sys, step: O.Step)
    requires !step.Register? && !step.InitStash? && !step.Cleanup? && O.Enabled(w, step)
    ensures O.Next(w, step).coordinator == Noted(w.coordinator, step)
  {
  }

  lemma NoteKeepsAlive(w: O.Sys, step: O.Step, c: nat)
    requires !step.Cleanup? && O.Enabled(w, step) && Alive(w, c)
    ensures Alive(O.Next(w, step), c)
  {
  }

  lemma NoteKeepsRegistry(w: O.Sys, step: O.Step, r: Registry)
    requires !step.Cleanup? && O.Enabled(w, step) && RegistryOk(w, r)
    ensures RegistryOk(O.Next(w, step), r)
  {
    forall pid | pid in r ensures AllAlive(O.Next(w, step), r[pid]) {
      forall p | p in r[pid] ensures Alive(O.Next(w, step), p.container) { NoteKeepsAlive(w, step, p.container); }
    }
  }

  lemma NoteKeeps(s: Sys, step: O.Step)
    requires Inv(s) && Enabled(s, Note(step))
    ensures Inv(Next(s, Note(step)))
  {
    S.StepKeeps(s.watch, step);
    NoteAgrees(s.watch, step);
    NoteKeepsRegistry(s.watch, step, s.tracker.processes);
  }

  lemma CallKeeps(s: Sys, call: Call)
    requires Inv(s) && Enabled(s, call)
    ensures Inv(Next(s, call))
  {
    match call
    case Subscribe(r) => OpenKeepsRegistry(s.watch, s.tracker, r);
    case HandleStart(id, p, pid, x) => StartKeeps(s, id, p, pid, x);
    case CancelStart(_) =>
    case NotifyExit(e) => NotifyKeeps(s, e);
    case Delete(c) => DeleteKeeps(s, c);
    case Note(step) => NoteKeeps(s, step);
  }

  lemma {:induction false} RunsKeep(run: seq<Sys>, calls: seq<Call>, k: nat)
    requires IsRun(run, calls) && k < |run|
    ensures Inv(run[k])
    decreases k
  {
    if k > 0 {
      RunsKeep(run, calls, k - 1);
      CallKeeps(run[k - 1], calls[k - 1]);
    }
  }

  // ---------------------------------------------------------------- the counter

  // The execs of a container that HandleStart has registered, because they ran on, and that NotifyExecExit has
  // not accounted for.
  function Running(run: seq<Sys>, calls: seq<Call>, k: nat, c: nat): set<nat>
    requires k <= |calls| < |run|
  {
    if k == 0 then {}
    else
      var before, call := Running(run, calls, k - 1, c), calls[k - 1];
      match call
      case HandleStart(id, p, pid, x) =>
        if RunsOn(run[k - 1].tracker, id, pid) && !p.init && p.container == c then before + {x} else before
      case Note(Account(a, x)) => if a == c then before - {x} else before
      case _ => before
  }

  function Outstanding(w: O.Sys, c: nat): set<nat> { if c in w.books then w.books[c].outstanding else {} }

  lemma {:induction false} InitsExitKeep(w: O.Sys, ps: seq<Proc>, e: Exit, c: nat)
    ensures Outstanding(InitsExit(w, ps, e), c) == Outstanding(w, c)
    decreases |ps|
  {
    if ps != [] {
      var w1 := if ps[0].init then Happens(w, O.InitStash(ps[0].container, e)) else w;
      InitsExitKeep(w1, ps[1..], e, c);
    }
  }

  lemma {:induction false} RunningIsOutstanding(run: seq<Sys>, calls: seq<Call>, k: nat, c: nat)
    requires IsRun(run, calls) && k <= |calls|
    ensures Running(run, calls, k, c) == Outstanding(run[k].watch, c)
    decreases k
  {
    if k > 0 {
      RunningIsOutstanding(run, calls, k - 1, c);
      var s, call := run[k - 1], calls[k - 1];
      assert Enabled(s, call) && run[k] == Next(s, call);
      if call.NotifyExit? { InitsExitKeep(s.watch, At(s.tracker.processes, call.e.pid), call.e, c); }
    }
  }

  // The tracker's counter, in every run of its calls: of a container without unmatched decrements that is not
  // deleted, it is the number of execs that HandleStart registered and that are not accounted for yet.
  lemma CountsRunningExecs(run: seq<Sys>, calls: seq<Call>, k: nat, c: nat)
    requires IsRun(run, calls) && k <= |calls| && Alive(run[k].watch, c) && run[k].watch.books[c].unmatched == 0
    ensures StateOf(run[k].tracker.coordinator, c).runningExecs == |Running(run, calls, k, c)|
  {
    RunsKeep(run, calls, k);
    RunningIsOutstanding(run, calls, k, c);
    assert O.BookOk(run[k].watch.coordinator, c, run[k].watch.books[c]);
  }

  // So an init's exit is delayed if and only if such an exec is running.
  lemma DelayedWhileExecsRun(run: seq<Sys>, calls: seq<Call>, k: nat, c: nat)
    requires IsRun(run, calls) && k <= |calls| && Alive(run[k].watch, c) && run[k].watch.books[c].unmatched == 0
    ensures ShouldDelay(run[k].tracker.coordinator, c).1.Some? <==> Running(run, calls, k, c) != {}
  {
    CountsRunningExecs(run, calls, k, c);
    assert |Running(run, calls, k, c)| == 0 <==> Running(run, calls, k, c) == {};
  }

  // And it comes last, as in the ordering model.
  lemma InitExitComesLast(run: seq<Sys>, calls: seq<Call>, k: nat, c: nat)
    requires IsRun(run, calls) && k <= |calls| && c in run[k].watch.books
    requires run[k].watch.books[c].unmatched == 0 && !run[k].watch.books[c].cut
    ensures var w := run[k].watch;
            var b := w.books[c];
            && (O.Waits(run[k].tracker.coordinator, b.init) ==> !b.gone && Running(run, calls, k, c) != {})
            && (b.init.Published? ==> O.InitLast(w.log, c, b.init.decided))
  {
    RunsKeep(run, calls, k);
    RunningIsOutstanding(run, calls, k, c);
    assert O.BookOk(run[k].watch.coordinator, c, run[k].watch.books[c]) && O.LogOk(run[k].watch, c);
  }

  // ---------------------------------------------------------------- the init's exit

  // The latest exit notified for a registered init of the container, unless it was taken or the container was
  // deleted since.
  function LatestExit(run: seq<Sys>, calls: seq<Call>, k: nat, c: nat): Option<Exit>
    requires k <= |calls| < |run|
  {
    if k == 0 then None
    else
      var before, call := LatestExit(run, calls, k - 1, c), calls[k - 1];
      match call
      case NotifyExit(e) => if HasInit(At(run[k - 1].tracker.processes, e.pid), c) then Some(e) else before
      case Note(TakeExit(a)) => if a == c then None else before
      case Delete(a) => if a == c then None else before
      case _ => before
  }

  predicate HasInit(ps: seq<Proc>, c: nat) { exists i :: 0 <= i < |ps| && ps[i].init && ps[i].container == c }

  lemma {:induction false} StashAllMeans(k: Coordinator, ps: seq<Proc>, e: Exit, c: nat)
    ensures InitExit(StashAll(k, ps, e), c) == if HasInit(ps, c) then Some(e) else InitExit(k, c)
    decreases |ps|
  {
    if ps != [] {
      var k1 := if ps[0].init then Stash(k, ps[0].container, e) else k;
      StashAllMeans(k1, ps[1..], e, c);
      if HasInit(ps[1..], c) {
        var i :| 0 <= i < |ps[1..]| && ps[1..][i].init && ps[1..][i].container == c;
        assert ps[i + 1] == ps[1..][i];
      }
      assert HasInit(ps, c) <==> (ps[0].init && ps[0].container == c) || HasInit(ps[1..], c);
    }
  }

  lemma NoteKeepsExit(k: Coordinator, step: O.Step, c: nat)
    ensures InitExit(Noted(k, step), c) == if step == O.TakeExit(c) then None else InitExit(k, c)
  {
  }

  // InitHasExited holds exactly of the containers whose registered init's exit was notified and neither taken
  // nor cleaned up, and GetInitExit answers the latest one.
  lemma {:induction false} InitExitIsLatest(run: seq<Sys>, calls: seq<Call>, k: nat, c: nat)
    requires IsRun(run, calls) && k <= |calls|
    ensures InitExit(run[k].tracker.coordinator, c) == LatestExit(run, calls, k, c)
    decreases k
  {
    if k > 0 {
      InitExitIsLatest(run, calls, k - 1, c);
      var s, call := run[k - 1], calls[k - 1];
      assert run[k] == Next(s, call);
      if call.NotifyExit? { StashAllMeans(s.tracker.coordinator, At(s.tracker.processes, call.e.pid), call.e, c); }
      if call.Note? { NoteKeepsExit(s.tracker.coordinator, call.step, c); }
    }
  }
}
