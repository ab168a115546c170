// The shim's lifecycle in every interleaving.
module ShimSafety {
  import opened Base
  import opened ShimLifecycle

  // A thread that owned nothing goes on and owns nothing, and the state moves towards its end.
  lemma OtherOwner(s: Sys, t: Sys, u: nat)
    requires OwnerOk(s) && u in t.threads && t.threads == s.threads[u := t.threads[u]] && !Owns(t.threads[u])
    requires u in s.threads ==> !Owns(s.threads[u])
    requires t.owner == s.owner && t.succeeded == s.succeeded && (t.container.Some? ==> s.container.Some?)
    requires t.state == s.state || t.state == ShuttingDown || (s.state == Running && t.state == Deleting)
    ensures OwnerOk(t)
  {
    forall v | v in t.threads && Owns(t.threads[v]) ensures t.owner == Some(v) { assert v != u; }
  }

  // The owner goes on owning.
  lemma SameOwner(s: Sys, t: Sys, u: nat)
    requires OwnerOk(s) && u in s.threads && Owns(s.threads[u]) && !s.threads[u].CreateStored?
    requires u in t.threads && t.threads == s.threads[u := t.threads[u]] && Owns(t.threads[u])
    requires t.owner == s.owner && t.succeeded == s.succeeded && t.state == s.state
    requires t.container.Some? ==> t.threads[u].CreateStored?
    ensures OwnerOk(t)
  {
    forall v | v in t.threads && Owns(t.threads[v]) ensures t.owner == Some(v) { assert Owns(s.threads[v]); }
  }

  // The owner gives Creating back, or makes it Running.
  lemma NoMoreOwner(s: Sys, t: Sys, u: nat, to: State)
    requires OwnerOk(s) && u in s.threads && Owns(s.threads[u]) && (to == Idle || to == Running)
    requires t.threads == s.threads[u := Finished(to == Running)] && t.state == Cas(s.state, Creating, to)
    requires t.owner.None? && t.container == s.container && t.succeeded == (s.succeeded || to == Running)
    requires to == Idle ==> !s.threads[u].CreateStored?
    ensures OwnerOk(t)
  {
    forall v | v in s.threads && Owns(s.threads[v]) ensures v == u {
    }
  }

  // Only the owner may store a container, so there was none.
  lemma NoContainerYet(s: Sys, u: nat)
    requires OwnerOk(s) && u in s.threads && Owns(s.threads[u]) && !s.threads[u].CreateStored?
    ensures s.container.None?
  {
  }

  lemma OwnerKeeps(s: Sys, step: Step)
    requires Inv(s) && Enabled(s, step)
    ensures OwnerOk(Next(s, step))
  {
    var t, u := Next(s, step), step.t;
    match step
    case TryStartCreating(_) => if s.state != Idle { OtherOwner(s, t, u); }
    case CheckExisting(_, _, _) => NoContainerYet(s, u); SameOwner(s, t, u);
    case SetUp(_, mounts) => NoContainerYet(s, u); if mounts { SameOwner(s, t, u); }
    case Rollback(_) => NoContainerYet(s, u); SameOwner(s, t, u);
    case Store(_) => SameOwner(s, t, u);
    case MarkCreationFailed(_) => NoMoreOwner(s, t, u, Idle);
    case MarkCreated(_) => NoMoreOwner(s, t, u, Running);
    case _ => OtherOwner(s, t, u);
  }

  // ---------------------------------------------------------------- tokens

  // Thread u now holds what it held, or nothing, or what no other thread holds.
  lemma OthersHold(s: Sys, t: Sys, u: nat)
    requires TokensOk(s) && u in t.threads && t.threads == s.threads[u := t.threads[u]]
    requires Held(t.threads[u]).Some? && u in s.threads ==>
      Held(t.threads[u]) == Held(s.threads[u]) ||
      forall v :: v in s.threads ==> Held(s.threads[v]) != Held(t.threads[u])
    requires Held(t.threads[u]).Some? && u !in s.threads ==>
               forall v :: v in s.threads ==> Held(s.threads[v]) != Held(t.threads[u])
    ensures forall v, w :: v in t.threads && w in t.threads && SameHeld(t.threads[v], t.threads[w]) ==> v == w
  {
    forall v | v in s.threads && v != u ensures !SameHeld(t.threads[v], t.threads[u]) {
      assert u in s.threads ==> !SameHeld(s.threads[v], s.threads[u]);
    }
    forall v, w | v in s.threads && w in s.threads && v != u && w != u && SameHeld(t.threads[v], t.threads[w])
      ensures v == w
    {
      assert SameHeld(s.threads[v], s.threads[w]);
    }
  }

  lemma SameTokens(s: Sys, t: Sys, u: nat)
    requires TokensOk(s) && t.tokens == s.tokens && t.ran == s.ran && t.container == s.container
    requires u in t.threads && t.threads == s.threads[u := t.threads[u]]
    requires Held(t.threads[u]).Some? ==> u in s.threads && Held(t.threads[u]) == Held(s.threads[u])
    ensures TokensOk(t)
  {
    OthersHold(s, t, u);
    forall v | v in t.threads ensures HeldOk(t, t.threads[v]) { assert v in s.threads ==> HeldOk(s, s.threads[v]); }
  }

  lemma SetUpTokens(s: Sys, u: nat)
    requires TokensOk(s) && Enabled(s, SetUp(u, true))
    ensures TokensOk(Next(s, SetUp(u, true)))
  {
    var t := Next(s, SetUp(u, true));
    forall v | v in s.threads ensures HeldOk(s, s.threads[v]) && Held(s.threads[v]) != Some(s.tokens) {
    }
    OthersHold(s, t, u);
    forall v | v in t.threads ensures HeldOk(t, t.threads[v]) { assert HeldOk(s, s.threads[v]); }
  }

  // The thread runs what it holds.
  lemma RunTokens(s: Sys, t: Sys, u: nat)
    requires TokensOk(s) && u in s.threads && (s.threads[u].CreateWorking? || s.threads[u].Cleaning?)
    requires t.tokens == s.tokens && t.container == s.container && t.ran == s.ran + Ran(s.threads[u].token)
    requires u in t.threads && t.threads == s.threads[u := t.threads[u]] && Held(t.threads[u]).None?
    ensures TokensOk(t)
  {
    assert HeldOk(s, s.threads[u]);
    OthersHold(s, t, u);
    forall v | v in t.threads ensures HeldOk(t, t.threads[v]) {
      assert HeldOk(s, s.threads[v]);
      if v != u { assert !SameHeld(s.threads[v], s.threads[u]); }
    }
  }

  // Store: the token moves from the thread into the container, which was not there.
  lemma StoreTokens(s: Sys, u: nat)
    requires TokensOk(s) && Enabled(s, Store(u)) && s.container.None?
    ensures TokensOk(Next(s, Store(u)))
  {
    var t := Next(s, Store(u));
    assert HeldOk(s, s.threads[u]);
    OthersHold(s, t, u);
    forall v | v in t.threads ensures HeldOk(t, t.threads[v]) {
      assert HeldOk(s, s.threads[v]);
      if v != u { assert !SameHeld(s.threads[v], s.threads[u]); }
    }
  }

  // Collect and Extract: the token moves from the container to the thread.
  lemma TakeTokens(s: Sys, t: Sys, u: nat)
    requires TokensOk(s) && s.container.Some? && t.tokens == s.tokens && t.ran == s.ran
    requires t.threads == s.threads[u := Cleaning(s.container.value.token)]
    requires t.container.None? || t.container.value.token.None?
    ensures TokensOk(t)
  {
    forall v | v in s.threads ensures HeldOk(s, s.threads[v]) {
    }
    OthersHold(s, t, u);
    forall v | v in t.threads ensures HeldOk(t, t.threads[v]) { assert v != u ==> HeldOk(s, s.threads[v]); }
  }

  lemma TokensKeep(s: Sys, step: Step)
    requires Inv(s) && Enabled(s, step)
    ensures TokensOk(Next(s, step))
  {
    var t := Next(s, step);
    match step
    case SetUp(u, mounts) => if mounts { SetUpTokens(s, u); }
    case Rollback(u) => RunTokens(s, t, u);
    case RunCleanup(u) => RunTokens(s, t, u);
    case Store(u) =>
      NoContainerYet(s, u);
      StoreTokens(s, u);
    case Collect(u, sameId) =>
      if s.container.Some? && sameId { TakeTokens(s, t, u); } else { SameTokens(s, t, u); }
    case Extract(u) =>
      if s.container.Some? { TakeTokens(s, t, u); } else { SameTokens(s, t, u); }
    case _ => SameTokens(s, t, step.t);
  }

  lemma StepKeeps(s: Sys, step: Step)
    requires Inv(s) && Enabled(s, step)
    ensures Inv(Next(s, step))
  {
    OwnerKeeps(s, step);
    TokensKeep(s, step);
  }

  // ---------------------------------------------------------------- runs

  ghost predicate IsRun(run: seq<Sys>, steps: seq<Step>) {
    && |run| == |steps| + 1 && run[0] == Initial()
    && forall i :: 0 <= i < |steps| ==> Enabled(run[i], steps[i]) && run[i + 1] == Next(run[i], steps[i])
  }

  lemma {:induction false} RunsKeep(run: seq<Sys>, steps: seq<Step>, k: nat)
    requires IsRun(run, steps) && k < |run|
    ensures Inv(run[k])
  {
    if k > 0 {
      RunsKeep(run, steps, k - 1);
      StepKeeps(run[k - 1], steps[k - 1]);
    }
  }

  // In every interleaving: the state is Creating exactly while one Create owns it, unless the shim is
  // shutting down, and never two Creates own it; every change of the state is a valid transition.
  lemma CreatingIsOwned(run: seq<Sys>, steps: seq<Step>, k: nat)
    requires IsRun(run, steps) && k < |run|
    ensures var s := run[k];
            && (forall t, u :: t in s.threads && u in s.threads && Owns(s.threads[t]) && Owns(s.threads[u]) ==> t == u)
            && (s.state != ShuttingDown ==> (s.state == Creating <==> exists t :: t in s.threads && Owns(s.threads[t])))
            && (k + 1 < |run| ==> run[k + 1].state == s.state || ValidTransition(s.state, run[k + 1].state))
  {
    RunsKeep(run, steps, k);
    var s := run[k];
    if s.owner.Some? { assert Owns(s.threads[s.owner.value]); }
    if k + 1 < |run| { assert run[k + 1] == Next(run[k], steps[k]); }
  }

  // ---------------------------------------------------------------- the state is its history

  predicate Forced(steps: seq<Step>, k: nat)
    requires k <= |steps|
  {
    exists i :: 0 <= i < k && steps[i].Force?
  }

  predicate Created(steps: seq<Step>, k: nat)
    requires k <= |steps|
  {
    exists i :: 0 <= i < k && steps[i].MarkCreated?
  }

  // The step admits a Delete.
  predicate Admits(step: Step, after: Sys) {
    step.TryStartDeleting? && step.t in after.threads && after.threads[step.t] == DeleteAdmitted
  }

  ghost predicate DeleteBegan(run: seq<Sys>, steps: seq<Step>, k: nat)
    requires k <= |steps| < |run|
  {
    exists i :: 0 <= i < k && Admits(steps[i], run[i + 1])
  }

  // The state of a shim, by what has happened to it.
  function StateBy(forced: bool, deleting: bool, created: bool, owned: bool): State {
    if forced then ShuttingDown
    else if deleting then Deleting
    else if created then State.Running
    else if owned then Creating
    else Idle
  }

  lemma StateStep(s: Sys, step: Step, forced: bool, deleting: bool)
    requires Inv(s) && Enabled(s, step) && s.state == StateBy(forced, deleting, s.succeeded, s.owner.Some?)
    requires deleting ==> s.succeeded
    ensures var t := Next(s, step);
            && t.state == StateBy(forced || step.Force?, deleting || Admits(step, t), t.succeeded, t.owner.Some?)
            && t.succeeded == (s.succeeded || step.MarkCreated?)
            && (deleting || Admits(step, t) ==> t.succeeded)
  {
  }

  // In every run the state is what the steps so far make it: ShuttingDown from the first shutdown on, and before
  // that Deleting from the first Delete that was admitted on, Running once a Create has succeeded, Creating
  // while one is under way, and Idle otherwise.
  lemma {:induction false} StateIsHistory(run: seq<Sys>, steps: seq<Step>, k: nat)
    requires IsRun(run, steps) && k <= |steps|
    ensures run[k].state ==
            StateBy(Forced(steps, k), DeleteBegan(run, steps, k), Created(steps, k), run[k].owner.Some?)
    ensures run[k].succeeded <==> Created(steps, k)
    ensures DeleteBegan(run, steps, k) ==> Created(steps, k)
    decreases k
  {
    if k > 0 {
      StateIsHistory(run, steps, k - 1);
      RunsKeep(run, steps, k - 1);
      StateStep(run[k - 1], steps[k - 1], Forced(steps, k - 1), DeleteBegan(run, steps, k - 1));
      OneMoreStep(run, steps, k);
    }
  }

  lemma OneMoreStep(run: seq<Sys>, steps: seq<Step>, k: nat)
    requires 0 < k <= |steps| < |run|
    ensures Forced(steps, k) <==> Forced(steps, k - 1) || steps[k - 1].Force?
    ensures Created(steps, k) <==> Created(steps, k - 1) || steps[k - 1].MarkCreated?
    ensures DeleteBegan(run, steps, k) <==> DeleteBegan(run, steps, k - 1) || Admits(steps[k - 1], run[k])
  {
  }

  // A Delete is admitted exactly when a Create has succeeded, no Delete was admitted before and no shutdown has
  // begun; a Create exactly when none has succeeded or is under way and no shutdown has begun.
  lemma AdmittedExactly(run: seq<Sys>, steps: seq<Step>, k: nat)
    requires IsRun(run, steps) && k < |steps|
    ensures steps[k].TryStartDeleting? ==>
              (Admits(steps[k], run[k + 1]) <==>
               Created(steps, k) && !DeleteBegan(run, steps, k) && !Forced(steps, k))
    ensures steps[k].TryStartCreating? ==>
              (run[k + 1].owner == Some(steps[k].t) <==>
               !Created(steps, k) && !Forced(steps, k) && forall t :: t in run[k].threads ==> !Owns(run[k].threads[t]))
  {
    RunsKeep(run, steps, k);
    StateIsHistory(run, steps, k);
    assert Enabled(run[k], steps[k]) && run[k + 1] == Next(run[k], steps[k]);
    if run[k].owner.Some? { assert Owns(run[k].threads[run[k].owner.value]); }
  }

  // A Create stores its container, or has set up anything, only after it found no VM instance and a valid ID.
  lemma {:induction false} WorkIsChecked(run: seq<Sys>, steps: seq<Step>, k: nat, t: nat) returns (j: nat)
    requires IsRun(run, steps) && k < |run| && t in run[k].threads
    requires run[k].threads[t].CreateWorking? || run[k].threads[t].CreateStored?
    ensures j < k && steps[j] == CheckExisting(t, false, true) && run[j].container.None?
    decreases k
  {
    assert k > 0;
    var s, step := run[k - 1], steps[k - 1];
    assert Enabled(s, step) && run[k] == Next(s, step);
    if step.CheckExisting? && step.t == t { j := k - 1; } else { j := WorkIsChecked(run, steps, k - 1, t); }
  }

  // ShuttingDown is absorbing.
  lemma {:induction false} ShutdownIsFinal(run: seq<Sys>, steps: seq<Step>, i: nat, j: nat)
    requires IsRun(run, steps) && i <= j < |run| && run[i].state == ShuttingDown
    ensures run[j].state == ShuttingDown
    decreases j
  {
    if i < j {
      ShutdownIsFinal(run, steps, i, j - 1);
      assert run[j] == Next(run[j - 1], steps[j - 1]);
    }
  }

  lemma {:induction false} SuccessStays(run: seq<Sys>, steps: seq<Step>, i: nat, j: nat)
    requires IsRun(run, steps) && i <= j < |run| && run[i].succeeded
    ensures run[j].succeeded
    decreases j
  {
    if i < j {
      SuccessStays(run, steps, i, j - 1);
      assert run[j] == Next(run[j - 1], steps[j - 1]);
    }
  }

  // After a Create succeeded, none is admitted again.
  lemma NoCreateAfterSuccess(run: seq<Sys>, steps: seq<Step>, i: nat, j: nat)
    requires IsRun(run, steps) && i < j < |steps|
    requires steps[i].MarkCreated? && steps[j].TryStartCreating?
    ensures run[j + 1].threads[steps[j].t] == Finished(false) && run[j + 1].state == run[j].state
  {
    assert run[i + 1] == Next(run[i], steps[i]);
    SuccessStays(run, steps, i + 1, j);
    RunsKeep(run, steps, j);
    assert run[j + 1] == Next(run[j], steps[j]);
  }

  // No mount clean-up runs twice, whatever mix of rollback, Delete, failed Delete and shutdown runs
  // them; and one that waits in the container, or with a thread, has not run.
  lemma CleanupsRunOnce(run: seq<Sys>, steps: seq<Step>, k: nat)
    requires IsRun(run, steps) && k < |run|
    ensures var s := run[k];
            && (forall i, j :: 0 <= i < j < |s.ran| ==> s.ran[i] != s.ran[j])
            && (Stored(s).Some? ==> Stored(s).value !in s.ran)
            && (forall t :: t in s.threads && Held(s.threads[t]).Some? ==> Held(s.threads[t]).value !in s.ran)
  {
    RunsKeep(run, steps, k);
    forall t | t in run[k].threads && Held(run[k].threads[t]).Some?
      ensures Held(run[k].threads[t]).value !in run[k].ran
    {
      assert HeldOk(run[k], run[k].threads[t]);
    }
  }

  // ---------------------------------------------------------------- clean-ups that are lost

  ghost predicate Somewhere(s: Sys, n: nat) {
    n in s.ran || Stored(s) == Some(n) || exists t :: t in s.threads && Held(s.threads[t]) == Some(n)
  }

  // A step that does not take the stored clean-up leaves it.
  lemma StoredIsKept(s: Sys, step: Step, n: nat)
    requires OwnerOk(s) && Enabled(s, step) && Stored(s) == Some(n)
    ensures !Takes(step) ==> Stored(Next(s, step)) == Some(n)
    ensures Stored(Next(s, step)) == Some(n) || Held(Next(s, step).threads[step.t]) == Some(n)
  {
    if step.Store? { NoContainerYet(s, step.t); }
  }

  lemma HeldIsKept(s: Sys, step: Step, n: nat)
    requires Enabled(s, step) && step.t in s.threads && Held(s.threads[step.t]) == Some(n)
    ensures var t := Next(s, step);
            n in t.ran || Stored(t) == Some(n) || Held(t.threads[step.t]) == Some(n)
  {
  }

  // No step drops a clean-up.
  lemma NoneIsDropped(s: Sys, step: Step, n: nat)
    requires OwnerOk(s) && Enabled(s, step) && n < Next(s, step).tokens && (n < s.tokens ==> Somewhere(s, n))
    ensures Somewhere(Next(s, step), n)
  {
    var t, u := Next(s, step), step.t;
    if n == s.tokens {
      assert Held(t.threads[u]) == Some(n);
    } else if Stored(s) == Some(n) {
      StoredIsKept(s, step, n);
    } else if v :| v in s.threads && Held(s.threads[v]) == Some(n) {
      if v == u { HeldIsKept(s, step, n); } else { assert Held(t.threads[v]) == Some(n); }
    }
  }

  lemma {:induction false} AllAreSomewhere(run: seq<Sys>, steps: seq<Step>, k: nat, n: nat)
    requires IsRun(run, steps) && k < |run| && n < run[k].tokens
    ensures Somewhere(run[k], n)
    decreases k
  {
    assert k > 0;
    if n < run[k - 1].tokens { AllAreSomewhere(run, steps, k - 1, n); }
    RunsKeep(run, steps, k - 1);
    NoneIsDropped(run[k - 1], steps[k - 1], n);
  }

  // The step takes what is stored out of the container.
  predicate Takes(step: Step) { step.Extract? || (step.Collect? && step.sameId) }

  // The clean-up was stored at j, and nothing took it since.
  ghost predicate StoredSince(run: seq<Sys>, steps: seq<Step>, j: nat, k: nat, n: nat)
    requires k < |run| == |steps| + 1
  {
    && j < k && steps[j].Store? && steps[j].t in run[j].threads && Held(run[j].threads[steps[j].t]) == Some(n)
    && forall m :: j < m < k ==> !Takes(steps[m])
  }

  lemma {:induction false} StoredAt(run: seq<Sys>, steps: seq<Step>, k: nat, n: nat) returns (j: nat)
    requires IsRun(run, steps) && k < |run| && Stored(run[k]) == Some(n)
    ensures StoredSince(run, steps, j, k, n)
    decreases k
  {
    assert k > 0;
    assert Enabled(run[k - 1], steps[k - 1]) && run[k] == Next(run[k - 1], steps[k - 1]);
    if steps[k - 1].Store? { j := k - 1; } else { j := StoredAt(run, steps, k - 1, n); }
  }

  lemma {:induction false} StaysStored(run: seq<Sys>, steps: seq<Step>, j: nat, k: nat, n: nat)
    requires IsRun(run, steps) && k < |run| && StoredSince(run, steps, j, k, n)
    ensures Stored(run[k]) == Some(n)
    decreases k
  {
    if j < k - 1 {
      StaysStored(run, steps, j, k - 1, n);
      RunsKeep(run, steps, k - 1);
      StoredIsKept(run[k - 1], steps[k - 1], n);
    }
  }

  // Once all calls have come to an end, a clean-up has not run if and only if it was stored in the container
  // after the last step that takes one out.
  lemma LostExactly(run: seq<Sys>, steps: seq<Step>, k: nat, n: nat)
    requires IsRun(run, steps) && k < |run| && n < run[k].tokens
    requires forall t :: t in run[k].threads ==> run[k].threads[t].Finished?
    ensures n !in run[k].ran <==> exists j: nat :: StoredSince(run, steps, j, k, n)
  {
    RunsKeep(run, steps, k);
    AllAreSomewhere(run, steps, k, n);
    if Stored(run[k]) == Some(n) { var j := StoredAt(run, steps, k, n); }
    if j: nat :| StoredSince(run, steps, j, k, n) { StaysStored(run, steps, j, k, n); }
  }

  // ---------------------------------------------------------------- clean-ups that run

  predicate RanHas(s: Sys, token: Token) { token.Some? ==> token.value in s.ran }

  // The thread has taken the clean-up, and its call does not end before that has run.
  predicate Taken(s: Sys, t: nat, token: Token) {
    && t in s.threads
    && (s.threads[t] == Cleaning(token) || (s.threads[t] == Finished(true) && RanHas(s, token)))
  }

  lemma TakenStays(s: Sys, step: Step, s': Sys, t: nat, token: Token)
    requires Enabled(s, step) && s' == Next(s, step) && Taken(s, t, token)
    ensures Taken(s', t, token)
  {
  }

  lemma {:induction false} TakenPersists(run: seq<Sys>, m: nat, k: nat, t: nat, token: Token)
    requires m <= k < |run| && Taken(run[m], t, token)
    requires forall j :: m <= j < k ==> Taken(run[j], t, token) ==> Taken(run[j + 1], t, token)
    ensures Taken(run[k], t, token)
    decreases k
  {
    if m < k {
      TakenPersists(run, m, k - 1, t, token);
      var j := k - 1;
      assert Taken(run[j], t, token) ==> Taken(run[j + 1], t, token);
    }
  }

  // What a thread has taken runs before its call comes to an end.
  lemma TakenIsRun(run: seq<Sys>, steps: seq<Step>, m: nat, k: nat, t: nat, token: Token)
    requires IsRun(run, steps) && m < k < |run|
    requires t in run[m + 1].threads && run[m + 1].threads[t] == Cleaning(token)
    ensures Taken(run[k], t, token)
  {
    forall j | m < j < k && Taken(run[j], t, token) ensures Taken(run[j + 1], t, token) {
      TakenStays(run[j], steps[j], run[j + 1], t, token);
    }
    TakenPersists(run, m + 1, k, t, token);
  }

  // A Delete that the guest refused waits for the container's clean-up, and then has taken it.
  lemma {:induction false} RefusedTakes(run: seq<Sys>, steps: seq<Step>, i: nat, k: nat, t: nat) returns (m: nat)
    requires IsRun(run, steps) && i < k < |run| && steps[i] == DeleteRpc(t, Refused)
    ensures t in run[k].threads
    ensures run[k].threads[t] == DeleteFailing ||
              (i < m < k && steps[m] == Extract(t) && t in run[m + 1].threads
               && run[m + 1].threads[t] == Cleaning(Stored(run[m])) && Stored(run[m + 1]).None?)
    decreases k
  {
    m := 0;
    assert Enabled(run[k - 1], steps[k - 1]) && run[k] == Next(run[k - 1], steps[k - 1]);
    if i + 1 < k {
      m := RefusedTakes(run, steps, i, k - 1, t);
      if run[k - 1].threads[t] == DeleteFailing && steps[k - 1].t == t { m := k - 1; }
    }
  }

  // A refused Delete runs the stored clean-up: by its end it has taken what the container had, and that ran.
  lemma RefusedDeleteCleansUp(run: seq<Sys>, steps: seq<Step>, i: nat, k: nat, t: nat) returns (m: nat)
    requires IsRun(run, steps) && i < k < |run| && steps[i] == DeleteRpc(t, Refused)
    requires t in run[k].threads && run[k].threads[t].Finished?
    ensures i < m < k && Stored(run[m + 1]).None? && RanHas(run[k], Stored(run[m]))
  {
    m := RefusedTakes(run, steps, i, k, t);
    TakenIsRun(run, steps, m, k, t, Stored(run[m]));
  }

  // So does one that the guest accepted, when the container is still the one it was for.
  lemma AcceptedDeleteCleansUp(run: seq<Sys>, steps: seq<Step>, m: nat, k: nat, t: nat)
    requires IsRun(run, steps) && m < k < |run| && steps[m] == Collect(t, true)
    requires t in run[k].threads && run[k].threads[t].Finished?
    ensures run[m + 1].container.None? && RanHas(run[k], Stored(run[m]))
  {
    assert Enabled(run[m], steps[m]) && run[m + 1] == Next(run[m], steps[m]);
    if run[m].container.Some? { TakenIsRun(run, steps, m, k, t, Stored(run[m])); }
  }

  lemma Extend(run: seq<Sys>, steps: seq<Step>, step: Step)
    requires IsRun(run, steps) && Enabled(run[|steps|], step)
    ensures IsRun(run + [Next(run[|steps|], step)], steps + [step])
  {
  }

  // A Create sets up mounts.
  lemma MountsSetUp() returns (run: seq<Sys>, steps: seq<Step>)
    ensures IsRun(run, steps)
    ensures run[|steps|] == Sys(Creating, None, map[0 := CreateWorking(Some(0))], Some(0), false, 1, [])
  {
    steps := [CallCreate(0), TryStartCreating(0), CheckExisting(0, false, true), SetUp(0, true)];
    var s1 := Next(Initial(), steps[0]);
    var s2 := Next(s1, steps[1]);
    var s3 := Next(s2, steps[2]);
    run := [Initial(), s1, s2, s3, Next(s3, steps[3])];
  }

  // The shim shuts down and finds nothing to clean up.
  lemma ShutDown() returns (run: seq<Sys>, steps: seq<Step>)
    ensures IsRun(run, steps)
    ensures run[|steps|] ==
            Sys(ShuttingDown, None, map[0 := CreateWorking(Some(0)), 1 := Finished(true)], Some(0), false, 1, [])
  {
    run, steps := MountsSetUp();
    var s1 := Next(run[|steps|], CallShutdown(1));
    var s2 := Next(s1, Force(1));
    var s3 := Next(s2, Extract(1));
    var s4 := Next(s3, RunCleanup(1));
    Extend(run, steps, CallShutdown(1));
    Extend(run + [s1], steps + [CallShutdown(1)], Force(1));
    run, steps := run + [s1] + [s2], steps + [CallShutdown(1)] + [Force(1)];
    Extend(run, steps, Extract(1));
    Extend(run + [s3], steps + [Extract(1)], RunCleanup(1));
    run, steps := run + [s3] + [s4], steps + [Extract(1)] + [RunCleanup(1)];
  }

  // A Create that stores its container after that: all calls have come to an end, no Delete is admitted any
  // more, and its clean-up has not run.
  lemma LateStoreIsLost() returns (run: seq<Sys>, steps: seq<Step>)
    ensures IsRun(run, steps)
    ensures var s := run[|steps|];
            && (forall t :: t in s.threads ==> s.threads[t].Finished?)
            && s.state == ShuttingDown && Stored(s) == Some(0) && s.ran == []
  {
    run, steps := ShutDown();
    var s1 := Next(run[|steps|], Store(0));
    var s2 := Next(s1, MarkCreated(0));
    Extend(run, steps, Store(0));
    Extend(run + [s1], steps + [Store(0)], MarkCreated(0));
    run, steps := run + [s1] + [s2], steps + [Store(0)] + [MarkCreated(0)];
  }

  // A Delete that cannot reach the guest leaves the state at Deleting: no later Delete or Create is
  // admitted until shutdown.
  lemma {:induction false} FailedDeleteIsFinal(run: seq<Sys>, steps: seq<Step>, i: nat, j: nat)
    requires IsRun(run, steps) && i <= j < |run| && run[i].state == Deleting
    ensures run[j].state == Deleting || run[j].state == ShuttingDown
    decreases j
  {
    if i < j {
      FailedDeleteIsFinal(run, steps, i, j - 1);
      assert run[j] == Next(run[j - 1], steps[j - 1]);
    }
  }
}
