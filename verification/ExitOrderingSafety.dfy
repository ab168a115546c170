// The init's exit comes last in every run whose counter is balanced.
module ExitOrderingSafety {
  import opened Base
  import opened ExitTracking
  import opened ExitOrdering

  // ---------------------------------------------------------------- one container among others

  // What a step on one container leaves of the others.
  predicate Untouched(k: Coordinator, k2: Coordinator, c: nat, b: Book) {
    && (c in k2.states <==> c in k.states) && StateOf(k2, c) == StateOf(k, c) && k.chans <= k2.chans
    && (b.init.Waiting? ==> (b.init.chan in k2.closed <==> b.init.chan in k.closed))
  }

  lemma OthersStay(k: Coordinator, k2: Coordinator, c: nat, b: Book)
    requires BookOk(k, c, b) && Untouched(k, k2, c, b)
    ensures BookOk(k2, c, b)
  {
    assert c in k.states ==> k2.states[c] == StateOf(k2, c) == StateOf(k, c) == k.states[c];
  }

  lemma LastStays(log: seq<Event>, e: Event, c: nat, decided: set<nat>)
    requires e != InitExit(c)
    ensures InitLast(log + [e], c, decided) <==> InitLast(log, c, decided)
  {
    assert (log + [e])[..|log|] == log;
  }

  lemma LogStays(s: Sys, t: Sys, c: nat, e: Event)
    requires c in s.books && c in t.books && LogOk(s, c) && t.log == s.log + [e] && e.container != c
    requires t.books[c] == s.books[c]
    ensures LogOk(t, c)
  {
    var b := s.books[c];
    forall x: nat ensures x in b.sent <==> ExecExit(c, x) in t.log { assert ExecExit(c, x) != e; }
    if b.init.Published? || b.init.Early? { LastStays(s.log, e, c, b.init.decided); }
  }

  // ---------------------------------------------------------------- steps, on the container they are about

  lemma RegisterBook(k: Coordinator, c: nat, b: Book, x: nat)
    requires BookOk(k, c, b) && !b.gone && x !in b.registered
    ensures BookOk(Increment(k, c), c, b.(registered := b.registered + {x}, outstanding := b.outstanding + {x}))
  {
    assert |b.outstanding + {x}| == |b.outstanding| + 1;
    assert c !in k.states ==> b.outstanding == {};
  }

  lemma AccountBook(k: Coordinator, c: nat, b: Book, x: nat)
    requires BookOk(k, c, b) && x in b.sent && x in b.outstanding
    requires forall w :: w in k.closed ==> w < k.chans
    ensures BookOk(ExecExited(k, c), c, b.(outstanding := b.outstanding - {x}))
  {
    var k2, b2 := ExecExited(k, c), b.(outstanding := b.outstanding - {x});
    assert |b2.outstanding| == |b.outstanding| - 1;
    assert c in k.states || b.gone;
    if k2.closed != k.closed {
      assert b.unmatched == 0 ==> |b2.outstanding| == 0;
    }
  }

  lemma DecrementBook(k: Coordinator, c: nat, b: Book)
    requires BookOk(k, c, b)
    ensures BookOk(ExecExited(k, c), c, b.(unmatched := if c in k.states then b.unmatched + 1 else b.unmatched))
  {
  }

  lemma StashBook(k: Coordinator, c: nat, b: Book, e: Exit)
    requires BookOk(k, c, b) && !b.gone
    ensures BookOk(Stash(k, c, e), c, if b.init.Running? then b.(init := Stashed) else b)
  {
    assert c !in k.states ==> b.outstanding == {};
  }

  lemma DecideBook(k: Coordinator, c: nat, b: Book)
    requires BookOk(k, c, b) && b.init.Stashed? && forall w :: w in k.closed ==> w < k.chans
    ensures var d := ShouldDelay(k, c);
            BookOk(d.0, c, b.(init := if d.1.None? then Ready(b.registered) else Waiting(d.1.value, b.registered)))
  {
    assert c in k.states || b.gone;
    if !b.gone && b.unmatched == 0 && k.states[c].runningExecs == 0 { assert b.outstanding == {}; }
  }

  lemma PublishBook(k: Coordinator, c: nat, b: Book)
    requires BookOk(k, c, b) && MayPublish(k, b.init)
    ensures BookOk(k, c, b.(init := Published(b.init.decided)))
  {
  }

  // ---------------------------------------------------------------- steps, on the whole system

  // A step that is about container c, changes only its book and leaves the log alone.
  predicate OnlyBook(s: Sys, t: Sys, c: nat) {
    c in s.books && c in t.books && t.books == s.books[c := t.books[c]] && t.log == s.log
  }

  // The init's exit is no less in its place in the log than before.
  predicate SameToLog(b: Book, d: Book) {
    && (b.init.Published? || b.init.Early? || d.init.Published? || d.init.Early? ==> d.init == b.init)
    && b.unmatched <= d.unmatched && (b.cut ==> d.cut)
  }

  lemma QuietStep(s: Sys, t: Sys, c: nat)
    requires Inv(s) && OnlyBook(s, t, c) && BookOk(t.coordinator, c, t.books[c])
    requires t.coordinator.states.Keys <= s.coordinator.states.Keys + {c}
    requires t.books[c].sent == s.books[c].sent && SameToLog(s.books[c], t.books[c])
    requires forall a :: a in s.books && a != c ==> Untouched(s.coordinator, t.coordinator, a, s.books[a])
    requires ChannelsOk(t)
    ensures Inv(t)
  {
    forall a | a in t.books ensures BookOk(t.coordinator, a, t.books[a]) && LogOk(t, a) {
      assert LogOk(s, a);
      if a != c { OthersStay(s.coordinator, t.coordinator, a, s.books[a]); }
    }
  }

  // The counter going down closes at most the channel of that container, and only once.
  lemma ExecExitedChannels(s: Sys, c: nat, t: Sys)
    requires Inv(s) && OnlyBook(s, t, c) &&
             t.books[c].init == s.books[c].init && t.coordinator == ExecExited(s.coordinator, c)
    ensures ChannelsOk(t)
    ensures forall a :: a in s.books && a != c ==> Untouched(s.coordinator, t.coordinator, a, s.books[a])
  {
    assert BookOk(s.coordinator, c, s.books[c]);
    forall a, b | a in t.books && b in t.books && SameChannel(t.books[a].init, t.books[b].init) ensures a == b {
      assert SameChannel(s.books[a].init, s.books[b].init);
    }
    forall a | a in s.books && a != c ensures Untouched(s.coordinator, t.coordinator, a, s.books[a]) {
      assert !SameChannel(s.books[a].init, s.books[c].init);
    }
  }

  lemma SameChannels(s: Sys, t: Sys, c: nat)
    requires Inv(s) && OnlyBook(s, t, c) && t.coordinator.closed == s.coordinator.closed
    requires s.coordinator.chans <= t.coordinator.chans
    requires t.books[c].init.Waiting? ==>
               t.books[c].init == s.books[c].init || t.books[c].init.chan >= s.coordinator.chans
    ensures ChannelsOk(t)
  {
    forall a, b | a in t.books && b in t.books && SameChannel(t.books[a].init, t.books[b].init) ensures a == b {
      assert BookOk(s.coordinator, a, s.books[a]) && BookOk(s.coordinator, b, s.books[b]);
      assert t.books[c].init == s.books[c].init ==> SameChannel(s.books[a].init, s.books[b].init);
    }
  }

  lemma CreateKeeps(s: Sys, c: nat)
    requires Inv(s) && Enabled(s, Create(c))
    ensures Inv(Next(s, Create(c)))
  {
    var t := Next(s, Create(c));
    forall a, b | a in t.books && b in t.books && SameChannel(t.books[a].init, t.books[b].init) ensures a == b {
      assert SameChannel(s.books[a].init, s.books[b].init);
    }
    forall a | a in t.books ensures BookOk(t.coordinator, a, t.books[a]) && LogOk(t, a) {
      if a != c { assert LogOk(s, a); }
    }
  }

  lemma RegisterKeeps(s: Sys, c: nat, x: nat)
    requires Inv(s) && Enabled(s, Register(c, x))
    ensures Inv(Next(s, Register(c, x)))
  {
    var t := Next(s, Register(c, x));
    RegisterBook(s.coordinator, c, s.books[c], x);
    SameChannels(s, t, c);
    QuietStep(s, t, c);
  }

  lemma AccountKeeps(s: Sys, c: nat, x: nat)
    requires Inv(s) && Enabled(s, Account(c, x))
    ensures Inv(Next(s, Account(c, x)))
  {
    var t := Next(s, Account(c, x));
    AccountBook(s.coordinator, c, s.books[c], x);
    ExecExitedChannels(s, c, t);
    QuietStep(s, t, c);
  }

  lemma DecrementKeeps(s: Sys, c: nat)
    requires Inv(s) && Enabled(s, Decrement(c))
    ensures Inv(Next(s, Decrement(c)))
  {
    var t := Next(s, Decrement(c));
    DecrementBook(s.coordinator, c, s.books[c]);
    ExecExitedChannels(s, c, t);
    QuietStep(s, t, c);
  }

  lemma StashKeeps(s: Sys, c: nat, e: Exit)
    requires Inv(s) && Enabled(s, InitStash(c, e))
    ensures Inv(Next(s, InitStash(c, e)))
  {
    var t := Next(s, InitStash(c, e));
    StashBook(s.coordinator, c, s.books[c], e);
    SameChannels(s, t, c);
    QuietStep(s, t, c);
  }

  lemma TakeKeeps(s: Sys, c: nat)
    requires Inv(s) && Enabled(s, TakeExit(c))
    ensures Inv(Next(s, TakeExit(c)))
  {
    var t := Next(s, TakeExit(c));
    assert BookOk(s.coordinator, c, s.books[c]) && BookOk(t.coordinator, c, t.books[c]);
    SameChannels(s, t, c);
    QuietStep(s, t, c);
  }

  lemma DecideKeeps(s: Sys, c: nat)
    requires Inv(s) && Enabled(s, Decide(c))
    ensures Inv(Next(s, Decide(c)))
  {
    var t := Next(s, Decide(c));
    DecideBook(s.coordinator, c, s.books[c]);
    SameChannels(s, t, c);
    QuietStep(s, t, c);
  }

  lemma SendKeeps(s: Sys, c: nat, x: nat)
    requires Inv(s) && Enabled(s, Send(c, x))
    ensures Inv(Next(s, Send(c, x)))
  {
    var t := Next(s, Send(c, x));
    assert SetsOk(t.books[c]);
    SameChannels(s, t.(log := s.log), c);
    forall a | a in t.books ensures BookOk(t.coordinator, a, t.books[a]) && LogOk(t, a) {
      assert BookOk(s.coordinator, a, s.books[a]) && LogOk(s, a);
      if a != c {
        LogStays(s, t, a, ExecExit(c, x));
      } else if t.books[c].init.Published? || t.books[c].init.Early? {
        LastStays(s.log, ExecExit(c, x), c, t.books[c].init.decided);
      }
    }
  }

  lemma LastNow(log: seq<Event>, c: nat, decided: set<nat>, sent: set<nat>)
    requires forall x :: x in sent <==> ExecExit(c, x) in log
    ensures InitLast(log + [InitExit(c)], c, decided) <==> decided <= sent
  {
    assert (log + [InitExit(c)])[..|log|] == log;
  }

  lemma PublishLog(s: Sys, c: nat)
    requires Inv(s) && Enabled(s, Publish(c))
    ensures LogOk(Next(s, Publish(c)), c)
  {
    var b := s.books[c];
    assert BookOk(s.coordinator, c, b) && LogOk(s, c);
    LastNow(s.log, c, b.init.decided, b.sent);
    if b.unmatched == 0 && !b.cut { assert b.init.decided <= b.sent; }
  }

  lemma PublishKeeps(s: Sys, c: nat)
    requires Inv(s) && Enabled(s, Publish(c))
    ensures Inv(Next(s, Publish(c)))
  {
    var t := Next(s, Publish(c));
    PublishBook(s.coordinator, c, s.books[c]);
    SameChannels(s, t.(log := s.log), c);
    PublishLog(s, c);
    forall a | a in t.books ensures BookOk(t.coordinator, a, t.books[a]) && LogOk(t, a) {
      assert LogOk(s, a);
      if a != c { LogStays(s, t, a, InitExit(c)); }
    }
  }

  // An init that exits inside its start window is last if and only if all execs were published by then.
  lemma EarlyLog(s: Sys, c: nat)
    requires Inv(s) && Enabled(s, EarlyExit(c))
    ensures LogOk(Next(s, EarlyExit(c)), c)
  {
    assert LogOk(s, c);
    LastNow(s.log, c, s.books[c].registered, s.books[c].sent);
  }

  lemma EarlyExitKeeps(s: Sys, c: nat)
    requires Inv(s) && Enabled(s, EarlyExit(c))
    ensures Inv(Next(s, EarlyExit(c)))
  {
    var t := Next(s, EarlyExit(c));
    assert BookOk(s.coordinator, c, s.books[c]) && BookOk(t.coordinator, c, t.books[c]);
    SameChannels(s, t.(log := s.log), c);
    EarlyLog(s, c);
    forall a | a in t.books ensures BookOk(t.coordinator, a, t.books[a]) && LogOk(t, a) {
      assert LogOk(s, a);
      if a != c { LogStays(s, t, a, InitExit(c)); }
    }
  }

  lemma CleanupKeeps(s: Sys, c: nat)
    requires Inv(s) && Enabled(s, Cleanup(c))
    ensures Inv(Next(s, Cleanup(c)))
  {
    var t := Next(s, Cleanup(c));
    assert BookOk(s.coordinator, c, s.books[c]) && BookOk(t.coordinator, c, t.books[c]);
    SameChannels(s, t, c);
    QuietStep(s, t, c);
  }

  lemma StepKeeps(s: Sys, step: Step)
    requires Inv(s) && Enabled(s, step)
    ensures Inv(Next(s, step))
  {
    match step
    case Create(c) => CreateKeeps(s, c);
    case Register(c, x) => RegisterKeeps(s, c, x);
    case Send(c, x) => SendKeeps(s, c, x);
    case Account(c, x) => AccountKeeps(s, c, x);
    case Decrement(c) => DecrementKeeps(s, c);
    case InitStash(c, e) => StashKeeps(s, c, e);
    case TakeExit(c) => TakeKeeps(s, c);
    case EarlyExit(c) => EarlyExitKeeps(s, c);
    case Decide(c) => DecideKeeps(s, c);
    case Publish(c) => PublishKeeps(s, c);
    case Cleanup(c) => CleanupKeeps(s, c);
  }

  // ---------------------------------------------------------------- runs

  ghost predicate RunFrom(s: Sys, run: seq<Sys>, steps: seq<Step>) {
    && |run| == |steps| + 1 && run[0] == s
    && forall i :: 0 <= i < |steps| ==> Enabled(run[i], steps[i]) && run[i + 1] == Next(run[i], steps[i])
  }

  ghost predicate IsRun(run: seq<Sys>, steps: seq<Step>) { RunFrom(Initial(), run, steps) }

  lemma {:induction false} RunsKeep(s: Sys, run: seq<Sys>, steps: seq<Step>, k: nat)
    requires Inv(s) && RunFrom(s, run, steps) && k < |run|
    ensures Inv(run[k])
    decreases k
  {
    if k > 0 {
      RunsKeep(s, run, steps, k - 1);
      StepKeeps(run[k - 1], steps[k - 1]);
    }
  }

  // The init's exit comes last. In every run, at every point, for a container without unmatched
  // decrements so far, and not deleted while its init's exit was on the way: the counter is the number of
  // outstanding execs until the container is deleted; a waiting init is woken as soon as none is
  // outstanding; and once the init's exit is published, it came after the exits of all execs registered when
  // it was decided to wait.
  lemma InitExitIsLast(run: seq<Sys>, steps: seq<Step>, k: nat, c: nat)
    requires IsRun(run, steps) && k < |run| && c in run[k].books
    requires run[k].books[c].unmatched == 0 && !run[k].books[c].cut
    ensures var s := run[k];
            var b := s.books[c];
            && (!b.gone ==> StateOf(s.coordinator, c).runningExecs == |b.outstanding|)
            && b.registered - b.outstanding <= b.sent
            && (Waits(s.coordinator, b.init) ==> !b.gone && b.outstanding != {})
            && (b.init.Published? ==> InitLast(s.log, c, b.init.decided))
  {
    RunsKeep(Initial(), run, steps, k);
    assert BookOk(run[k].coordinator, c, run[k].books[c]) && LogOk(run[k], c);
  }

  // An init that exits inside its start window: in every run, at every point, its exit came after those of
  // all execs registered by then if and only if they were all published by then.
  lemma EarlyExitIsLast(run: seq<Sys>, steps: seq<Step>, k: nat, c: nat)
    requires IsRun(run, steps) && k < |steps| && steps[k] == EarlyExit(c)
    ensures forall j :: k < j < |run| ==> LastIffSent(run[j].log, c, run[k].books[c])
  {
    forall j | k < j < |run| ensures LastIffSent(run[j].log, c, run[k].books[c]) {
      EarlyStays(run, steps, k, c, j);
      RunsKeep(Initial(), run, steps, j);
      assert LogOk(run[j], c);
    }
  }

  predicate LastIffSent(log: seq<Event>, c: nat, b: Book) {
    InitLast(log, c, b.registered) <==> b.registered <= b.sent
  }

  lemma {:induction false} EarlyStays(run: seq<Sys>, steps: seq<Step>, k: nat, c: nat, j: nat)
    requires IsRun(run, steps) && k < |steps| && steps[k] == EarlyExit(c) && k < j < |run|
    ensures c in run[j].books && run[j].books[c].init == Early(run[k].books[c].registered, run[k].books[c].sent)
    decreases j
  {
    assert run[j] == Next(run[j - 1], steps[j - 1]) && Enabled(run[j - 1], steps[j - 1]);
    if j > k + 1 { EarlyStays(run, steps, k, c, j - 1); }
  }

  lemma ClosedOnce(run: seq<Sys>, steps: seq<Step>, k: nat)
    requires IsRun(run, steps) && k < |run|
    ensures var closed := run[k].coordinator.closed;
            forall i, j :: 0 <= i < j < |closed| ==> closed[i] != closed[j]
  {
    RunsKeep(Initial(), run, steps, k);
  }

  // What InitLast means: the exec's exit has its place before the init's.
  lemma {:induction false} LastMeansLater(log: seq<Event>, c: nat, decided: set<nat>, x: nat) returns (i: nat, j: nat)
    requires InitLast(log, c, decided) && x in decided
    ensures i < j < |log| && log[i] == ExecExit(c, x) && log[j] == InitExit(c)
  {
    var before := log[..|log| - 1];
    if log[|log| - 1] == InitExit(c) {
      j := |log| - 1;
      i :| 0 <= i < |before| && before[i] == ExecExit(c, x);
    } else {
      i, j := LastMeansLater(before, c, decided, x);
    }
  }

  lemma WokenBook(k: Coordinator, c: nat, b: Book, d: Book)
    requires BookOk(k, c, b) && Waits(k, b.init) && d.init == b.init && BookOk(ExecExited(k, c), c, d)
    ensures MayPublish(ExecExited(k, c), d.init) <==> !d.gone && |d.outstanding| <= d.unmatched
  {
  }

  // The wake-up, in every run: the channel of a waiting init is closed by a decrement exactly when the
  // container was not deleted and no more execs are outstanding than there were unmatched decrements.
  lemma WokenExactly(run: seq<Sys>, steps: seq<Step>, k: nat, c: nat)
    requires IsRun(run, steps) && k < |steps| && (steps[k].Account? || steps[k].Decrement?) && steps[k].c == c
    requires Waits(run[k].coordinator, run[k].books[c].init)
    ensures c in run[k + 1].books
    ensures var s := run[k + 1];
            MayPublish(s.coordinator, s.books[c].init) <==>
            !s.books[c].gone && |s.books[c].outstanding| <= s.books[c].unmatched
  {
    RunsKeep(Initial(), run, steps, k);
    RunsKeep(Initial(), run, steps, k + 1);
    assert run[k + 1] == Next(run[k], steps[k]);
    assert BookOk(run[k].coordinator, c, run[k].books[c]) && BookOk(run[k + 1].coordinator, c, run[k + 1].books[c]);
    WokenBook(run[k].coordinator, c, run[k].books[c], run[k + 1].books[c]);
  }

  // With unmatched decrements too, the counter is the number of outstanding execs less that of those
  // decrements, so the exit is published at once exactly when the two agree, or the container was deleted. The
  // decision is right, that is, at once exactly when nothing is outstanding, if and only if there was no
  // unmatched decrement, or some execs are outstanding but not as many as there were unmatched decrements; of
  // a deleted container, if and only if nothing is outstanding.
  lemma DecisionIsRight(run: seq<Sys>, steps: seq<Step>, k: nat, c: nat)
    requires IsRun(run, steps) && k < |run| && Enabled(run[k], Decide(c))
    ensures var b := run[k].books[c];
            var atOnce := Next(run[k], Decide(c)).books[c].init.Ready?;
            && (atOnce <==> b.gone || |b.outstanding| == b.unmatched)
            && ((atOnce <==> b.outstanding == {}) <==>
                if b.gone then b.outstanding == {}
                else b.unmatched == 0 || (b.outstanding != {} && b.unmatched != |b.outstanding|))
  {
    RunsKeep(Initial(), run, steps, k);
    var b := run[k].books[c];
    assert BookOk(run[k].coordinator, c, b);
    assert |b.outstanding| == 0 <==> b.outstanding == {};
  }
}
