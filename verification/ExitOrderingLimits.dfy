// When the init's exit comes last although the exec counter went down unmatched or the container was
// deleted, and when it does not.
module ExitOrderingLimits {
  import opened Base
  import opened ExitTracking
  import opened ExitOrdering
  import opened ExitOrderingSafety

  lemma Extend(s: Sys, run: seq<Sys>, steps: seq<Step>, step: Step)
    requires RunFrom(s, run, steps) && Enabled(run[|steps|], step)
    ensures RunFrom(s, run + [Next(run[|steps|], step)], steps + [step])
  {
  }

  lemma Concat(s: Sys, run: seq<Sys>, steps: seq<Step>, more: seq<Sys>, rest: seq<Step>)
    requires RunFrom(s, run, steps) && RunFrom(run[|steps|], more, rest)
    ensures RunFrom(s, run + more[1..], steps + rest)
    ensures (run + more[1..])[|steps + rest|] == more[|rest|]
  {
    var all, done := run + more[1..], steps + rest;
    forall i | 0 <= i < |done| ensures Enabled(all[i], done[i]) && all[i + 1] == Next(all[i], done[i]) {
      if i >= |steps| {
        assert all[i] == more[i - |steps|] && all[i + 1] == more[i + 1 - |steps|];
      }
    }
  }

  // ---------------------------------------------------------------- good decisions

  // At the decision: no unmatched decrement so far, or every exec was published and one is still to be
  // accounted for; of a deleted container, every exec was published.
  predicate Good(b: Book) {
    if b.gone then b.registered <= b.sent
    else b.unmatched == 0 || (b.registered <= b.sent && b.outstanding != {})
  }

  // What is promised for a container whose init has exited: its exit is published after those of all execs
  // registered at the decision, and while it waits there is something that can wake it.
  predicate Promise(s: Sys, c: nat) {
    && c in s.books
    && var b := s.books[c];
    && (b.init.Published? || b.init.Early? ==> InitLast(s.log, c, b.init.decided))
    && (Waits(s.coordinator, b.init) ==> !b.gone && b.outstanding != {})
  }

  predicate Decided(i: InitState) { i.Waiting? || i.Ready? || i.Published? }

  // What every step but a decrement, and a deletion while the init waits, keeps.
  predicate Fine(s: Sys, c: nat) {
    && c in s.books
    && var b := s.books[c];
    && Decided(b.init) && ((!b.gone && b.unmatched == 0) || b.init.decided <= b.sent)
    && (Waits(s.coordinator, b.init) ==> !b.gone && b.outstanding != {})
    && (b.init.Published? ==> InitLast(s.log, c, b.init.decided))
  }

  predicate Quiet(s: Sys, step: Step, c: nat) {
    && step != Decrement(c)
    && (step == Cleanup(c) ==> c in s.books && !Waits(s.coordinator, s.books[c].init))
  }

  lemma GoodIsFine(s: Sys, c: nat)
    requires Inv(s) && Enabled(s, Decide(c)) && Good(s.books[c])
    ensures Fine(Next(s, Decide(c)), c)
  {
    assert BookOk(s.coordinator, c, s.books[c]);
  }

  lemma PublishIsFine(s: Sys, c: nat)
    requires Inv(s) && Fine(s, c) && Enabled(s, Publish(c))
    ensures Fine(Next(s, Publish(c)), c)
  {
    var b := s.books[c];
    assert BookOk(s.coordinator, c, b) && LogOk(s, c);
    assert b.init.decided <= b.sent;
    LastNow(s.log, c, b.init.decided, b.sent);
  }

  lemma CleanupIsFine(s: Sys, c: nat)
    requires Inv(s) && Fine(s, c) && Enabled(s, Cleanup(c)) && !Waits(s.coordinator, s.books[c].init)
    ensures Fine(Next(s, Cleanup(c)), c)
  {
    assert BookOk(s.coordinator, c, s.books[c]);
  }

  lemma AccountIsFine(s: Sys, c: nat, x: nat)
    requires Inv(s) && Fine(s, c) && Enabled(s, Account(c, x))
    ensures Fine(Next(s, Account(c, x)), c)
  {
    var t := Next(s, Account(c, x));
    StepKeeps(s, Account(c, x));
    assert BookOk(s.coordinator, c, s.books[c]) && BookOk(t.coordinator, c, t.books[c]);
  }

  // The stashed exit does not matter.
  lemma ExitIsFine(s: Sys, step: Step, c: nat)
    requires Inv(s) && Fine(s, c) && Enabled(s, step) && step.c == c && (step.InitStash? || step.TakeExit?)
    ensures Fine(Next(s, step), c)
  {
    assert Next(s, step).books[c] == s.books[c];
    assert Next(s, step).coordinator.closed == s.coordinator.closed;
  }

  // A step on another container.
  lemma OtherIsFine(s: Sys, step: Step, c: nat)
    requires Inv(s) && Fine(s, c) && Enabled(s, step) && step.c != c
    ensures Fine(Next(s, step), c)
  {
    var t, b := Next(s, step), s.books[c];
    OtherLeaves(s, step, c);
    if b.init.Published? && t.log != s.log { LastStays(s.log, t.log[|s.log|], c, b.init.decided); }
  }

  lemma OtherLeaves(s: Sys, step: Step, c: nat)
    requires Inv(s) && c in s.books && Enabled(s, step) && step.c != c
    ensures var t := Next(s, step);
            && c in t.books && t.books[c] == s.books[c]
            && (Waits(t.coordinator, t.books[c].init) <==> Waits(s.coordinator, s.books[c].init))
            && (t.log == s.log || exists e: Event :: e.container != c && t.log == s.log + [e])
  {
    var t := Next(s, step);
    if step.Account? || step.Decrement? { ExecExitedChannels(s, step.c, t); }
    if step.Send? { assert t.log == s.log + [ExecExit(step.c, step.exec)]; }
    if step.Publish? || step.EarlyExit? { assert t.log == s.log + [InitExit(step.c)]; }
  }

  lemma FineStays(s: Sys, step: Step, c: nat)
    requires Inv(s) && Fine(s, c) && Enabled(s, step) && Quiet(s, step, c)
    ensures Fine(Next(s, step), c)
  {
    if step.c != c {
      OtherIsFine(s, step, c);
    } else {
      var b := s.books[c];
      assert BookOk(s.coordinator, c, b);
      match step
      case Register(_, _) =>
      case Send(_, x) => if b.init.Published? { LastStays(s.log, ExecExit(c, x), c, b.init.decided); }
      case Account(_, x) => AccountIsFine(s, c, x);
      case InitStash(_, _) => ExitIsFine(s, step, c);
      case TakeExit(_) => ExitIsFine(s, step, c);
      case Publish(_) => PublishIsFine(s, c);
      case Cleanup(_) => CleanupIsFine(s, c);
    }
  }

  // ---------------------------------------------------------------- bad decisions

  ghost predicate QuietRun(s: Sys, run: seq<Sys>, steps: seq<Step>, c: nat) {
    RunFrom(s, run, steps) && forall k :: 0 <= k < |steps| ==> Quiet(run[k], steps[k], c)
  }

  // Some run leads from s to t in which the counter of c does not go down unmatched and c is not deleted
  // while its init waits.
  ghost predicate Reaches(s: Sys, t: Sys, c: nat) {
    exists run: seq<Sys>, steps: seq<Step> :: QuietRun(s, run, steps, c) && run[|steps|] == t
  }

  lemma ReachesItself(s: Sys, c: nat)
    ensures Reaches(s, s, c)
  {
    assert QuietRun(s, [s], [], c);
  }

  lemma ReachesNext(s: Sys, t: Sys, c: nat, step: Step)
    requires Reaches(s, t, c) && Enabled(t, step) && Quiet(t, step, c)
    ensures Reaches(s, Next(t, step), c)
  {
    var run: seq<Sys>, steps: seq<Step> :| QuietRun(s, run, steps, c) && run[|steps|] == t;
    Extend(s, run, steps, step);
    assert QuietRun(s, run + [Next(t, step)], steps + [step], c);
  }

  lemma ReachesOn(s: Sys, t: Sys, u: Sys, c: nat)
    requires Reaches(s, t, c) && Reaches(t, u, c)
    ensures Reaches(s, u, c)
  {
    var run: seq<Sys>, steps: seq<Step> :| QuietRun(s, run, steps, c) && run[|steps|] == t;
    var more: seq<Sys>, rest: seq<Step> :| QuietRun(t, more, rest, c) && more[|rest|] == u;
    Concat(s, run, steps, more, rest);
    var all, done := run + more[1..], steps + rest;
    forall k | 0 <= k < |done| ensures Quiet(all[k], done[k], c) {
      if k >= |steps| { assert all[k] == more[k - |steps|]; }
    }
    assert QuietRun(s, all, done, c);
  }

  // The init of c waits, there were unmatched decrements, and x, registered at the decision, still runs.
  ghost predicate Endangered(s: Sys, c: nat, x: nat) {
    && Inv(s) && c in s.books
    && var b := s.books[c];
    && b.unmatched > 0 && !b.gone && Waits(s.coordinator, b.init)
    && x in b.init.decided && x !in b.sent
  }

  // The init may be published although x, registered at the decision, still runs.
  ghost predicate Overtaken(s: Sys, c: nat, x: nat) {
    && Inv(s) && c in s.books
    && var b := s.books[c];
    MayPublish(s.coordinator, b.init) && x in b.init.decided && x !in b.sent
  }

  lemma SendOther(s: Sys, c: nat, x: nat, y: nat)
    requires Endangered(s, c, x) && Enabled(s, Send(c, y)) && y != x
    ensures var t := Next(s, Send(c, y));
            && Endangered(t, c, x) && Enabled(s, Send(c, y))
            && y in t.books[c].sent && t.books[c].outstanding == s.books[c].outstanding
  {
    StepKeeps(s, Send(c, y));
  }

  // Exec y has exited.
  lemma Exited(s: Sys, c: nat, x: nat, y: nat) returns (t: Sys)
    requires Endangered(s, c, x) && y in s.books[c].outstanding && y != x
    ensures Reaches(s, t, c) && Endangered(t, c, x) && Enabled(t, Account(c, y))
    ensures t.books[c].outstanding == s.books[c].outstanding
  {
    assert BookOk(s.coordinator, c, s.books[c]);
    t := s;
    ReachesItself(s, c);
    if y !in s.books[c].sent {
      SendOther(s, c, x, y);
      ReachesNext(s, s, c, Send(c, y));
      t := Next(s, Send(c, y));
    }
  }

  // Accounting for another exec endangers x further, or wakes the init too early.
  lemma AccountOther(s: Sys, c: nat, x: nat, y: nat)
    requires Endangered(s, c, x) && Enabled(s, Account(c, y)) && y != x
    ensures var t := Next(s, Account(c, y));
            && c in t.books && t.books[c].outstanding == s.books[c].outstanding - {y}
            && (Overtaken(t, c, x) || (Endangered(t, c, x) && |t.books[c].outstanding| > 1))
  {
    StepKeeps(s, Account(c, y));
    var t := Next(s, Account(c, y));
    assert BookOk(s.coordinator, c, s.books[c]) && BookOk(t.coordinator, c, t.books[c]);
  }

  lemma Other(a: set<nat>, x: nat) returns (y: nat)
    requires |a| > 1
    ensures y in a && y != x && |a - {y}| < |a|
  {
    if x in a { assert |a - {x}| == |a| - 1; } else { assert a - {x} == a; }
    y :| y in a - {x};
  }

  // The other execs exit one after the other until the init is woken.
  lemma {:induction false} Drain(s: Sys, c: nat, x: nat) returns (t: Sys)
    requires Endangered(s, c, x) && |s.books[c].outstanding| > 1
    ensures Reaches(s, t, c) && Overtaken(t, c, x)
    decreases |s.books[c].outstanding|
  {
    var y := Other(s.books[c].outstanding, x);
    var u := Exited(s, c, x, y);
    AccountOther(u, c, x, y);
    ReachesNext(s, u, c, Account(c, y));
    t := Next(u, Account(c, y));
    if !Overtaken(t, c, x) {
      var more := Drain(t, c, x);
      ReachesOn(s, t, more, c);
      t := more;
    }
  }

  // If x runs alone, another exec is registered first.
  lemma Company(s: Sys, c: nat, x: nat) returns (t: Sys)
    requires Endangered(s, c, x)
    ensures Reaches(s, t, c) && Endangered(t, c, x) && |t.books[c].outstanding| > 1
  {
    var b := s.books[c];
    assert BookOk(s.coordinator, c, b);
    assert x in b.outstanding;
    t := s;
    ReachesItself(s, c);
    if |b.outstanding| == 1 {
      var y := Unused(b.registered);
      StepKeeps(s, Register(c, y));
      ReachesNext(s, s, c, Register(c, y));
      t := Next(s, Register(c, y));
      assert |b.outstanding + {y}| == 2;
    }
  }

  // The init was published although x, registered at the decision, still runs.
  ghost predicate TooEarly(s: Sys, c: nat, x: nat) {
    && c in s.books && (s.books[c].init.Published? || s.books[c].init.Early?)
    && x in s.books[c].init.decided && x !in s.books[c].sent
    && !Promise(s, c)
  }

  lemma OvertakenBreaks(s: Sys, c: nat, x: nat)
    requires Overtaken(s, c, x)
    ensures Enabled(s, Publish(c)) && TooEarly(Next(s, Publish(c)), c, x)
  {
    assert LogOk(s, c);
    LastNow(s.log, c, s.books[c].init.decided, s.books[c].sent);
  }

  // Whether the init waits or not: its exit can be published before that of x.
  lemma Overtakes(s: Sys, c: nat, x: nat) returns (t: Sys)
    requires Endangered(s, c, x) || Overtaken(s, c, x)
    ensures Reaches(s, t, c) && TooEarly(t, c, x)
  {
    var u := s;
    ReachesItself(s, c);
    if !Overtaken(s, c, x) {
      var v := Company(s, c, x);
      u := Drain(v, c, x);
      ReachesOn(s, v, u, c);
    }
    OvertakenBreaks(u, c, x);
    ReachesNext(s, u, c, Publish(c));
    t := Next(u, Publish(c));
  }

  lemma DecidesBadly(s: Sys, c: nat, x: nat)
    requires Inv(s) && Enabled(s, Decide(c)) && (s.books[c].unmatched > 0 || s.books[c].gone)
    requires x in s.books[c].registered && x !in s.books[c].sent
    ensures var t := Next(s, Decide(c)); Endangered(t, c, x) || Overtaken(t, c, x)
  {
    assert BookOk(s.coordinator, c, s.books[c]);
    StepKeeps(s, Decide(c));
  }

  // A decision that is not good: the init's exit overtakes an exec, or waits for ever.
  lemma BadDecisionBreaks(s: Sys, c: nat) returns (t: Sys)
    requires Inv(s) && Enabled(s, Decide(c)) && !Good(s.books[c])
    ensures Reaches(Next(s, Decide(c)), t, c) && !Promise(t, c)
  {
    var b := s.books[c];
    if x :| x in b.registered && x !in b.sent {
      DecidesBadly(s, c, x);
      t := Overtakes(Next(s, Decide(c)), c, x);
    } else {
      t := Next(s, Decide(c));
      ReachesItself(t, c);
      assert BookOk(s.coordinator, c, b);
    }
  }

  // ---------------------------------------------------------------- main results

  lemma {:induction false} GoodKeeps(s: Sys, c: nat, run: seq<Sys>, steps: seq<Step>, k: nat)
    requires Inv(s) && Fine(s, c) && QuietRun(s, run, steps, c) && k < |run|
    ensures Inv(run[k]) && Fine(run[k], c)
    decreases k
  {
    if k > 0 {
      GoodKeeps(s, c, run, steps, k - 1);
      StepKeeps(run[k - 1], steps[k - 1]);
      FineStays(run[k - 1], steps[k - 1], c);
    }
  }

  lemma FineKeepsPromise(s: Sys, c: nat)
    requires Inv(s) && Fine(s, c)
    ensures forall t: Sys :: Reaches(s, t, c) ==> Promise(t, c)
  {
    forall t: Sys | Reaches(s, t, c) ensures Promise(t, c) {
      var run: seq<Sys>, steps: seq<Step> :| QuietRun(s, run, steps, c) && run[|steps|] == t;
      GoodKeeps(s, c, run, steps, |steps|);
    }
  }

  // The condition is exact: in every reachable state, a decision is good if and only if nothing that can
  // follow it, without unmatched decrements, breaks what is promised.
  lemma GoodIsExact(s: Sys, c: nat)
    requires Inv(s) && Enabled(s, Decide(c))
    ensures Good(s.books[c]) <==> forall t: Sys :: Reaches(Next(s, Decide(c)), t, c) ==> Promise(t, c)
  {
    if Good(s.books[c]) {
      StepKeeps(s, Decide(c));
      GoodIsFine(s, c);
      FineKeepsPromise(Next(s, Decide(c)), c);
    } else {
      var t := BadDecisionBreaks(s, c);
    }
  }

  // So it is at any moment of the wait: the container is there, and with unmatched decrements all that the
  // init was to wait for has exited and something is still to be accounted for.
  lemma WaitIsExact(s: Sys, c: nat)
    requires Inv(s) && c in s.books && Waits(s.coordinator, s.books[c].init)
    ensures var b := s.books[c];
            (!b.gone && b.outstanding != {} && (b.unmatched == 0 || b.init.decided <= b.sent)) <==>
            forall t: Sys :: Reaches(s, t, c) ==> Promise(t, c)
  {
    var b := s.books[c];
    if Fine(s, c) {
      FineKeepsPromise(s, c);
    } else if b.outstanding == {} || b.gone {
      ReachesItself(s, c);
    } else {
      var x :| x in b.init.decided && x !in b.sent;
      var t := Overtakes(s, c, x);
    }
  }

  // Nor may a decrement come later: one is enough while an exec that the init waits for still runs.
  lemma LateDecrementBreaks(s: Sys, c: nat, x: nat) returns (t: Sys)
    requires Inv(s) && c in s.books && !s.books[c].gone && Waits(s.coordinator, s.books[c].init)
    requires x in s.books[c].init.decided && x !in s.books[c].sent
    ensures Reaches(Next(s, Decrement(c)), t, c) && TooEarly(t, c, x)
  {
    assert BookOk(s.coordinator, c, s.books[c]);
    StepKeeps(s, Decrement(c));
    t := Overtakes(Next(s, Decrement(c)), c, x);
  }

  // A container may be deleted exactly when its init does not wait.
  lemma CleanupIsExact(s: Sys, c: nat)
    requires Inv(s) && Fine(s, c) && Enabled(s, Cleanup(c))
    ensures !Waits(s.coordinator, s.books[c].init) <==>
            forall t: Sys :: Reaches(Next(s, Cleanup(c)), t, c) ==> Promise(t, c)
  {
    var u := Next(s, Cleanup(c));
    if Waits(s.coordinator, s.books[c].init) {
      ReachesItself(u, c);
    } else {
      CleanupIsFine(s, c);
      StepKeeps(s, Cleanup(c));
      FineKeepsPromise(u, c);
    }
  }

  // An init that waits with nothing outstanding is woken by no step but another unmatched decrement: not
  // even by the registration of an exec, which only gives it something to wait for. Once the container was
  // deleted, it is woken by no step at all.
  lemma NothingWakes(s: Sys, c: nat, step: Step)
    requires Inv(s) && c in s.books && Enabled(s, step) && Waits(s.coordinator, s.books[c].init)
    requires s.books[c].gone || (s.books[c].outstanding == {} && step != Decrement(c))
    ensures var t := Next(s, step);
            && c in t.books && t.books[c].init == s.books[c].init && Waits(t.coordinator, t.books[c].init)
            && (s.books[c].gone ==> t.books[c].gone)
  {
    assert BookOk(s.coordinator, c, s.books[c]);
    if step.c != c && (step.Account? || step.Decrement?) { ExecExitedChannels(s, step.c, Next(s, step)); }
  }

  // So a deletion while the init waits loses its exit, whatever follows.
  lemma {:induction false} CleanupLosesExit(s: Sys, c: nat, run: seq<Sys>, steps: seq<Step>, k: nat)
    requires Inv(s) && c in s.books && s.books[c].gone && Waits(s.coordinator, s.books[c].init)
    requires RunFrom(s, run, steps) && k < |run|
    ensures Inv(run[k]) && c in run[k].books && run[k].books[c].gone
    ensures Waits(run[k].coordinator, run[k].books[c].init) && InitExit(c) !in run[k].log
    decreases k
  {
    if k > 0 {
      CleanupLosesExit(s, c, run, steps, k - 1);
      NothingWakes(run[k - 1], c, steps[k - 1]);
      StepKeeps(run[k - 1], steps[k - 1]);
    }
    assert LogOk(run[k], c);
  }

  // ---------------------------------------------------------------- runs from the start

  // A container with one exec that is registered, and the coordinator of it.
  lemma OneExec() returns (run: seq<Sys>, steps: seq<Step>)
    ensures IsRun(run, steps)
    ensures run[|steps|] == Sys(Coordinator(map[0 := Counts(1, None, None)], 0, []),
                                map[0 := Book({1}, {}, {1}, 0, false, false, Running)], [])
  {
    steps := [Create(0), Register(0, 1)];
    var s1 := Next(Initial(), steps[0]);
    var s2 := Next(s1, steps[1]);
    assert s2.books[0] == Book({1}, {}, {1}, 0, false, false, Running);
    assert s2.coordinator.states == map[0 := Counts(1, None, None)] && s2.books == map[0 := s2.books[0]];
    run := [Initial(), s1, s2];
  }

  // After one unmatched decrement the init exits, and it is decided whether it has to wait.
  lemma InitAfterDecrement(run: seq<Sys>, steps: seq<Step>) returns (run2: seq<Sys>, steps2: seq<Step>)
    requires IsRun(run, steps) && 0 in run[|steps|].books
    requires run[|steps|].books[0].init.Running? && !run[|steps|].books[0].gone
    requires 0 in run[|steps|].coordinator.states
    ensures IsRun(run2, steps2)
    ensures var s := run[|steps|];
            var k := ShouldDelay(Stash(ExecExited(s.coordinator, 0), 0, Exit(0, 0)), 0);
            && run2[|steps2|].coordinator == k.0 && run2[|steps2|].log == s.log
            && run2[|steps2|].books == s.books[0 := s.books[0].(
                 unmatched := s.books[0].unmatched + 1,
                 init := if k.1.None? then Ready(s.books[0].registered) else Waiting(k.1.value, s.books[0].registered))]
  {
    var s := run[|steps|];
    var s1 := Next(s, Decrement(0));
    var s2 := Next(s1, InitStash(0, Exit(0, 0)));
    var s3 := Next(s2, Decide(0));
    assert s3.books == s.books[0 := s3.books[0]];
    assert s2.coordinator == Stash(ExecExited(s.coordinator, 0), 0, Exit(0, 0));
    assert s2.books[0] == s.books[0].(unmatched := s.books[0].unmatched + 1, init := Stashed);
    Extend(Initial(), run, steps, Decrement(0));
    Extend(Initial(), run + [s1], steps + [Decrement(0)], InitStash(0, Exit(0, 0)));
    run2, steps2 := run + [s1] + [s2], steps + [Decrement(0)] + [InitStash(0, Exit(0, 0))];
    Extend(Initial(), run2, steps2, Decide(0));
    run2, steps2 := run2 + [s3], steps2 + [Decide(0)];
    assert run2[|steps2|] == s3;
    assert s3.books[0] == s2.books[0].(init := s3.books[0].init);
  }

  // An exec runs and exits, another one fails to start, and the init's exit waits for ever: nothing
  // is outstanding, and the channel is not closed.
  lemma FailedStartHoldsInitBack() returns (run: seq<Sys>, steps: seq<Step>)
    ensures IsRun(run, steps)
    ensures var s := run[|steps|];
            && 0 in s.books && s.books[0].outstanding == {} && s.books[0].init.Waiting?
            && !MayPublish(s.coordinator, s.books[0].init)
  {
    run, steps := OneExec();
    var s1 := Next(run[|steps|], Send(0, 1));
    var s2 := Next(s1, Account(0, 1));
    Extend(Initial(), run, steps, Send(0, 1));
    run, steps := run + [s1], steps + [Send(0, 1)];
    Extend(Initial(), run, steps, Account(0, 1));
    run, steps := run + [s2], steps + [Account(0, 1)];
    run, steps := InitAfterDecrement(run, steps);
  }

  // While an exec runs, another one fails to start, and the init's exit is published first.
  lemma FailedStartLetsInitPass() returns (run: seq<Sys>, steps: seq<Step>)
    ensures IsRun(run, steps)
    ensures var s := run[|steps|];
            && 0 in s.books && 1 in s.books[0].outstanding && 1 !in s.books[0].sent
            && s.books[0].init == Published({1})
  {
    run, steps := OneExec();
    run, steps := InitAfterDecrement(run, steps);
    var s := Next(run[|steps|], Publish(0));
    Extend(Initial(), run, steps, Publish(0));
    run, steps := run + [s], steps + [Publish(0)];
  }

  // Three execs run and a fourth fails to start. The decision is to wait, and the exits of two of them wake
  // the init while the third still runs.
  lemma FailedStartWakesTooEarly() returns (run: seq<Sys>, steps: seq<Step>)
    ensures IsRun(run, steps) && TooEarly(run[|steps|], 0, 3)
    ensures exists k :: 0 <= k < |run| && 0 in run[k].books && run[k].books[0].init.Waiting?
  {
    run, steps := OneExec();
    var s1 := Next(run[|steps|], Register(0, 2));
    Extend(Initial(), run, steps, Register(0, 2));
    run, steps := run + [s1], steps + [Register(0, 2)];
    Extend(Initial(), run, steps, Register(0, 3));
    run, steps := run + [Next(s1, Register(0, 3))], steps + [Register(0, 3)];
    run, steps := InitAfterDecrement(run, steps);
    RunsKeep(Initial(), run, steps, |steps|);
    var k, s := |steps|, run[|steps|];
    var t := Overtakes(s, 0, 3);
    var more: seq<Sys>, rest: seq<Step> :| QuietRun(s, more, rest, 0) && more[|rest|] == t;
    Concat(Initial(), run, steps, more, rest);
    run, steps := run + more[1..], steps + rest;
    assert run[k] == s;
  }

  // An exec runs in a created container, its init exits, and the container is deleted while the exit waits:
  // it is never published.
  lemma CleanupWhileWaiting() returns (run: seq<Sys>, steps: seq<Step>)
    ensures IsRun(run, steps)
    ensures var s := run[|steps|];
            && 0 in s.books && s.books[0].unmatched == 0 && s.books[0].gone
            && s.books[0].init.Waiting? && Waits(s.coordinator, s.books[0].init)
  {
    run, steps := OneExec();
    var s1 := Next(run[|steps|], InitStash(0, Exit(0, 0)));
    var s2 := Next(s1, Decide(0));
    var s3 := Next(s2, Cleanup(0));
    Extend(Initial(), run, steps, InitStash(0, Exit(0, 0)));
    run, steps := run + [s1], steps + [InitStash(0, Exit(0, 0))];
    Extend(Initial(), run, steps, Decide(0));
    run, steps := run + [s2], steps + [Decide(0)];
    Extend(Initial(), run, steps, Cleanup(0));
    run, steps := run + [s3], steps + [Cleanup(0)];
  }

  // An exec runs in a created container, and its init exits inside its start window: its exit is published
  // first.
  lemma EarlyExitPasses() returns (run: seq<Sys>, steps: seq<Step>)
    ensures IsRun(run, steps) && TooEarly(run[|steps|], 0, 1) && run[|steps|].books[0].unmatched == 0
  {
    run, steps := OneExec();
    var s := run[|steps|];
    LastNow(s.log, 0, {1}, {});
    Extend(Initial(), run, steps, EarlyExit(0));
    run, steps := run + [Next(s, EarlyExit(0))], steps + [EarlyExit(0)];
  }
}
