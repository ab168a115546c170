// The shim's state machine and the hand-over of mount clean-ups, under any interleaving of Create,
// Delete and shutdown. One step is one atomic operation, one locked section, or one clean-up run.
module ShimLifecycle {
  import opened Base

  datatype State = Idle | Creating | Running | ShuttingDown | Deleting

  // isValidTransition
  predicate ValidTransition(from: State, to: State) {
    || to == ShuttingDown
    || (from == Idle && to == Creating)
    || (from == Creating && (to == Running || to == Idle))
    || (from == Running && to == Deleting)
  }

  // Compare and swap.
  function Cas(s: State, from: State, to: State): State { if s == from then to else s }

  // ---------------------------------------------------------------- threads

  // A mount clean-up function, by number; None: there is nothing to clean up.
  type Token = Option<nat>

  datatype Pc =
    | CreateCalled
    | CreateChecking                  // owns Creating, about to look for an existing container
    | CreateWorking(token: Token)     // owns Creating; the clean-up is on the rollback stack
    | CreateFailing                   // owns Creating, about to give it back
    | CreateStored                    // owns Creating; the container is stored
    | DeleteCalled
    | DeleteAdmitted
    | DeleteFailing                   // the guest refused: clean up what the container still has
    | DeleteCollecting                // the guest deleted the container
    | ShutdownCalled
    | ShutdownForced
    | Cleaning(token: Token)          // runs the clean-up it took
    | Finished(ok: bool)

  // What a stored container still has to clean up.
  datatype Container = Container(token: Token)

  // owner: the Create that set the state to Creating; succeeded: whether any Create finished well.
  datatype Sys = Sys(
    state: State, container: Option<Container>, threads: map<nat, Pc>, owner: Option<nat>, succeeded: bool,
    tokens: nat, ran: seq<nat>)

  function Initial(): Sys { Sys(Idle, None, map[], None, false, 0, []) }

  datatype Rpc = NoClient | Refused | Accepted

  datatype Step =
    | CallCreate(t: nat)
    | CallDelete(t: nat)
    | CallShutdown(t: nat)
    | TryStartCreating(t: nat)
    | CheckExisting(t: nat, instance: bool, valid: bool)   // a VM instance is there; the ID is valid
    | SetUp(t: nat, mounts: bool)
    | Rollback(t: nat)
    | MarkCreationFailed(t: nat)
    | Store(t: nat)
    | MarkCreated(t: nat)
    | TryStartDeleting(t: nat)
    | DeleteRpc(t: nat, rpc: Rpc)
    | Collect(t: nat, sameId: bool)
    | Force(t: nat)
    | Extract(t: nat)
    | RunCleanup(t: nat)

  predicate Owns(pc: Pc) { pc.CreateChecking? || pc.CreateWorking? || pc.CreateFailing? || pc.CreateStored? }

  predicate Enabled(s: Sys, step: Step) {
    if step.CallCreate? || step.CallDelete? || step.CallShutdown? then step.t !in s.threads
    else
      && step.t in s.threads
      && var pc := s.threads[step.t];
         match step
         case TryStartCreating(_) => pc.CreateCalled?
         case CheckExisting(_, _, _) => pc.CreateChecking?
         case SetUp(_, _) => pc.CreateWorking? && pc.token.None?
         case Rollback(_) => pc.CreateWorking?
         case MarkCreationFailed(_) => pc.CreateFailing?
         case Store(_) => pc.CreateWorking?
         case MarkCreated(_) => pc.CreateStored?
         case TryStartDeleting(_) => pc.DeleteCalled?
         case DeleteRpc(_, _) => pc.DeleteAdmitted?
         case Collect(_, _) => pc.DeleteCollecting?
         case Force(_) => pc.ShutdownCalled?
         case Extract(_) => pc.DeleteFailing? || pc.ShutdownForced?
         case RunCleanup(_) => pc.Cleaning?
  }

  function At(s: Sys, t: nat, pc: Pc): Sys { s.(threads := s.threads[t := pc]) }

  function Ran(token: Token): seq<nat> { if token.None? then [] else [token.value] }

  function Next(s: Sys, step: Step): Sys
    requires Enabled(s, step)
  {
    var t := step.t;
    match step
    case CallCreate(_) => At(s, t, CreateCalled)
    case CallDelete(_) => At(s, t, DeleteCalled)
    case CallShutdown(_) => At(s, t, ShutdownCalled)
    case TryStartCreating(_) =>
      if s.state == Idle then At(s, t, CreateChecking).(state := Creating, owner := Some(t))
      else At(s, t, Finished(false))
    case CheckExisting(_, instance, valid) =>
      At(s, t, if instance || s.container.Some? || !valid then CreateFailing else CreateWorking(None))
    case SetUp(_, mounts) =>
      if mounts then At(s, t, CreateWorking(Some(s.tokens))).(tokens := s.tokens + 1) else s
    case Rollback(_) => At(s, t, CreateFailing).(ran := s.ran + Ran(s.threads[t].token))
    case MarkCreationFailed(_) => At(s, t, Finished(false)).(state := Cas(s.state, Creating, Idle), owner := None)
    case Store(_) => At(s, t, CreateStored).(container := Some(Container(s.threads[t].token)))
    case MarkCreated(_) =>
      At(s, t, Finished(true)).(state := Cas(s.state, Creating, Running), owner := None, succeeded := true)
    case TryStartDeleting(_) =>
      if s.state == Running then At(s, t, DeleteAdmitted).(state := Deleting) else At(s, t, Finished(false))
    case DeleteRpc(_, rpc) =>
      At(s, t,
         match rpc
         case NoClient => Finished(false)
         case Refused => DeleteFailing
         case Accepted => DeleteCollecting)
    case Collect(_, sameId) =>
      if s.container.Some? && sameId then At(s, t, Cleaning(s.container.value.token)).(container := None)
      else At(s, t, Finished(true))
    case Force(_) => At(s, t, ShutdownForced).(state := ShuttingDown)
    case Extract(_) =>
      if s.container.Some? then At(s, t, Cleaning(s.container.value.token)).(container := Some(Container(None)))
      else At(s, t, Cleaning(None))
    case RunCleanup(_) => At(s, t, Finished(true)).(ran := s.ran + Ran(s.threads[t].token))
  }

  // ---------------------------------------------------------------- invariant

  function Held(pc: Pc): Token { if pc.CreateWorking? || pc.Cleaning? then pc.token else None }

  function Stored(s: Sys): Token { if s.container.Some? then s.container.value.token else None }

  predicate OwnerOk(s: Sys) {
    && (forall t :: t in s.threads && Owns(s.threads[t]) ==> s.owner == Some(t))
    && (s.owner.Some? ==> s.owner.value in s.threads && Owns(s.threads[s.owner.value]))
    && (s.owner.Some? ==> s.state == Creating || s.state == ShuttingDown)
    && (s.state == Creating ==> s.owner.Some?)
    && (s.succeeded ==> s.owner.None? && s.state != Idle && s.state != Creating)
    && (s.container.Some? ==> s.succeeded ||
                                (s.owner.Some? && s.owner.value in s.threads && s.threads[s.owner.value].CreateStored?))
  }

  // Every clean-up is in one place at most: with one thread, in the container, or run.
  predicate HeldOk(s: Sys, pc: Pc) {
    Held(pc).Some? ==> Held(pc).value < s.tokens && Held(pc).value !in s.ran && Stored(s) != Held(pc)
  }

  predicate SameHeld(i: Pc, j: Pc) { Held(i).Some? && Held(i) == Held(j) }

  predicate RanOk(s: Sys) {
    && (forall n :: n in s.ran ==> n < s.tokens)
    && (forall i, j :: 0 <= i < j < |s.ran| ==> s.ran[i] != s.ran[j])
    && (Stored(s).Some? ==> Stored(s).value < s.tokens && Stored(s).value !in s.ran)
  }

  predicate TokensOk(s: Sys) {
    && (forall t :: t in s.threads ==> HeldOk(s, s.threads[t]))
    && (forall t, u :: t in s.threads && u in s.threads && SameHeld(s.threads[t], s.threads[u]) ==> t == u)
    && RanOk(s)
  }

  predicate Inv(s: Sys) { OwnerOk(s) && TokensOk(s) }
}
