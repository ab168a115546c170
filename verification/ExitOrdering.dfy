// The order of exit events: the coordinator among execs that register and exit, and inits that
// exit while execs are still running. Any number of containers interleave.
module ExitOrdering {
  import opened Base
  import opened ExitTracking

  datatype Event = ExecExit(container: nat, exec: nat) | InitExit(container: nat)

  // How far the first exit of a container's init has come. decided: the execs registered when
  // ShouldDelayInitExit was called. Early: published by the init's own start, which does not call it; with
  // the execs registered and published by then.
  datatype InitState =
    | Running
    | Stashed
    | Waiting(chan: nat, decided: set<nat>)
    | Ready(decided: set<nat>)
    | Published(decided: set<nat>)
    | Early(decided: set<nat>, before: set<nat>)

  // What really happened in a container. An exec that is registered twice counts as two. outstanding:
  // registered execs whose exit is not accounted for; unmatched: decrements of the counter that no
  // registration came before; gone: the container was deleted; cut: it was deleted before its init's exit,
  // already notified, was decided on or woken.
  datatype Book = Book(
    registered: set<nat>,
    sent: set<nat>,
    outstanding: set<nat>,
    unmatched: nat,
    gone: bool,
    cut: bool,
    init: InitState)

  datatype Sys = Sys(coordinator: Coordinator, books: map<nat, Book>, log: seq<Event>)

  function Initial(): Sys { Sys(Coordinator(map[], 0, []), map[], []) }

  datatype Step =
    | Create(c: nat)
    | Register(c: nat, exec: nat)     // HandleStart of an exec that runs on
    | Send(c: nat, exec: nat)         // its TaskExit, in handleProcessExit
    | Account(c: nat, exec: nat)      // NotifyExecExit, after the TaskExit
    | Decrement(c: nat)               // NotifyExecExit for an exec that was never registered
    | InitStash(c: nat, e: Exit)      // NotifyExit of the init
    | TakeExit(c: nat)                // GetInitExit
    | EarlyExit(c: nat)               // the TaskExit of an init that exited inside its start window
    | Decide(c: nat)                  // ShouldDelayInitExit
    | Publish(c: nat)                 // the TaskExit of the init
    | Cleanup(c: nat)

  predicate MayPublish(k: Coordinator, i: InitState) { i.Ready? || (i.Waiting? && i.chan in k.closed) }

  // The init waits for a channel that is not closed.
  predicate Waits(k: Coordinator, i: InitState) { i.Waiting? && i.chan !in k.closed }

  // Containers are told apart by identity: one that was there before is not created again.
  predicate Enabled(s: Sys, step: Step) {
    if step.Create? then step.c !in s.books
    else
      && step.c in s.books
      && var b := s.books[step.c];
         match step
         case Register(c, x) => !b.gone && x !in b.registered
         case Send(c, x) => x in b.registered && x !in b.sent
         case Account(c, x) => x in b.sent && x in b.outstanding
         case Decrement(c) => true
         case InitStash(c, e) => !b.gone
         case TakeExit(c) => true
         case EarlyExit(c) => b.init.Running?
         case Decide(c) => b.init.Stashed?
         case Publish(c) => MayPublish(s.coordinator, b.init)
         case Cleanup(c) => !b.gone
  }

  function SetBook(s: Sys, c: nat, b: Book): Sys { s.(books := s.books[c := b]) }

  function Next(s: Sys, step: Step): Sys
    requires Enabled(s, step)
  {
    if step.Create? then SetBook(s, step.c, Book({}, {}, {}, 0, false, false, Running))
    else
      var b := s.books[step.c];
      var k := s.coordinator;
      match step
      case Register(c, x) =>
        SetBook(s, c, b.(registered := b.registered + {x}, outstanding := b.outstanding + {x}))
          .(coordinator := Increment(k, c))
      case Send(c, x) => SetBook(s, c, b.(sent := b.sent + {x})).(log := s.log + [ExecExit(c, x)])
      case Account(c, x) =>
        SetBook(s, c, b.(outstanding := b.outstanding - {x})).(coordinator := ExecExited(k, c))
      case Decrement(c) =>
        SetBook(s, c, b.(unmatched := if c in k.states then b.unmatched + 1 else b.unmatched))
          .(coordinator := ExecExited(k, c))
      case InitStash(c, e) =>
        SetBook(s, c, if b.init.Running? then b.(init := Stashed) else b).(coordinator := Stash(k, c, e))
      case TakeExit(c) => s.(coordinator := TakeInitExit(k, c))
      case EarlyExit(c) => SetBook(s, c, b.(init := Early(b.registered, b.sent))).(log := s.log + [InitExit(c)])
      case Decide(c) =>
        var (k2, w) := ShouldDelay(k, c);
        SetBook(s, c, b.(init := if w.None? then Ready(b.registered) else Waiting(w.value, b.registered)))
          .(coordinator := k2)
      case Publish(c) =>
        SetBook(s, c, b.(init := Published(b.init.decided))).(log := s.log + [InitExit(c)])
      case Cleanup(c) =>
        SetBook(s, c, b.(gone := true, cut := b.init.Stashed? || Waits(k, b.init))).(coordinator := Forget(k, c))
  }

  // ---------------------------------------------------------------- invariant

  // The counter is what is outstanding, less the unmatched decrements.
  predicate CountOk(k: Coordinator, c: nat, b: Book) {
    if c in k.states then !b.gone && k.states[c].runningExecs == |b.outstanding| - b.unmatched
    else b.gone || (b.registered == {} && b.unmatched == 0 && (b.init.Running? || b.init.Early?))
  }

  // A container's waiter is the channel its init waits on, until that is closed.
  predicate WaiterOk(k: Coordinator, c: nat, b: Book) {
    StateOf(k, c).waiter == if Waits(k, b.init) && !b.gone then Some(b.init.chan) else None
  }

  // Without unmatched decrements: an init waits while execs are outstanding, and no longer.
  predicate Balanced(k: Coordinator, c: nat, b: Book) {
    && (Waits(k, b.init) ==> b.outstanding != {})
    && (MayPublish(k, b.init) || b.init.Published? ==> b.init.decided !! b.outstanding)
  }

  predicate SetsOk(b: Book) {
    && b.sent <= b.registered && b.outstanding <= b.registered
    && b.registered - b.outstanding <= b.sent
    && (!b.init.Running? && !b.init.Stashed? ==> b.init.decided <= b.registered)
  }

  predicate BookOk(k: Coordinator, c: nat, b: Book) {
    && SetsOk(b) && CountOk(k, c, b) && WaiterOk(k, c, b)
    && (b.init.Waiting? ==> b.init.chan < k.chans)
    && (b.cut ==> b.gone) && (b.gone && (b.init.Stashed? || Waits(k, b.init)) ==> b.cut)
    && (b.unmatched == 0 && !b.cut ==> Balanced(k, c, b))
  }

  predicate SameChannel(i: InitState, j: InitState) { i.Waiting? && j.Waiting? && i.chan == j.chan }

  // No channel is closed twice, and no two inits wait on the same one.
  predicate ChannelsOk(s: Sys) {
    && (forall i, j :: 0 <= i < j < |s.coordinator.closed| ==> s.coordinator.closed[i] != s.coordinator.closed[j])
    && (forall w :: w in s.coordinator.closed ==> w < s.coordinator.chans)
    && (forall a, b :: a in s.books && b in s.books && SameChannel(s.books[a].init, s.books[b].init) ==> a == b)
  }

  // The init's exit was logged after those of all the execs it was decided to wait for.
  predicate InitLast(log: seq<Event>, c: nat, decided: set<nat>) {
    && log != []
    && var before := log[..|log| - 1];
       if log[|log| - 1] == InitExit(c) then forall x :: x in decided ==> ExecExit(c, x) in before
       else InitLast(before, c, decided)
  }

  ghost predicate LogOk(s: Sys, c: nat)
    requires c in s.books
  {
    var b := s.books[c];
    && (forall x :: x in b.sent <==> ExecExit(c, x) in s.log)
    && (b.init.Published? || b.init.Early? <==> InitExit(c) in s.log)
    && (b.init.Published? && b.unmatched == 0 && !b.cut ==> InitLast(s.log, c, b.init.decided))
    && (b.init.Early? ==> (InitLast(s.log, c, b.init.decided) <==> b.init.decided <= b.init.before))
  }

  ghost predicate Inv(s: Sys) {
    && s.coordinator.states.Keys <= s.books.Keys
    && (forall c :: c in s.books ==> BookOk(s.coordinator, c, s.books[c]))
    && ChannelsOk(s)
    && (forall c :: c in s.books ==> LogOk(s, c))
    && (forall e :: e in s.log ==> e.container in s.books)
  }
}
