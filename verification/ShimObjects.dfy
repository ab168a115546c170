// The shim's state machine, clean-up orchestrator and rollback stack as objects.
module ShimObjects {
  import opened Base
  import opened ShimLifecycle

  class StateMachine {
    var state: State

    constructor ()
      ensures state == Idle
    {
      state := Idle;
    }

    // Transition: a compare-and-swap that refuses invalid pairs.
    method Transition(from: State, to: State) returns (ok: bool)
      modifies this
      ensures ok == (ValidTransition(from, to) && old(state) == from)
      ensures state == if ok then to else old(state)
    {
      if !ValidTransition(from, to) || state != from { return false; }
      state := to;
      ok := true;
    }

    method ForceTransition(to: State) returns (before: State)
      modifies this
      ensures before == old(state) && state == to
    {
      before := state;
      state := to;
    }

    // The four named transitions are compare-and-swaps along valid transitions.
    method TryStartCreating() returns (ok: bool)
      modifies this
      ensures ok == (old(state) == Idle) && state == Cas(old(state), Idle, Creating)
      ensures ok ==> ValidTransition(old(state), state)
    {
      ok := state == Idle;
      if ok { state := Creating; }
    }

    method TryStartDeleting() returns (ok: bool)
      modifies this
      ensures ok == (old(state) == Running) && state == Cas(old(state), Running, Deleting)
      ensures ok ==> ValidTransition(old(state), state)
    {
      ok := state == Running;
      if ok { state := Deleting; }
    }

    method MarkCreated() returns (ok: bool)
      modifies this
      ensures ok == (old(state) == Creating) && state == Cas(old(state), Creating, Running)
      ensures ok ==> ValidTransition(old(state), state)
    {
      ok := state == Creating;
      if ok { state := Running; }
    }

    method MarkCreationFailed() returns (ok: bool)
      modifies this
      ensures ok == (old(state) == Creating) && state == Cas(old(state), Creating, Idle)
      ensures ok ==> ValidTransition(old(state), state)
    {
      ok := state == Creating;
      if ok { state := Idle; }
    }
  }

  // ---------------------------------------------------------------- orchestrator

  // present: a clean-up function is registered for the phase.
  datatype Phase = Phase(present: bool, done: bool)

  predicate IsPending(p: Phase) { p.present && !p.done }

  // The phases that a call from start runs, in order.
  function Pending(phases: seq<Phase>, start: nat): seq<nat>
    requires start <= |phases|
    decreases |phases| - start
  {
    if start == |phases| then []
    else if IsPending(phases[start]) then [start] + Pending(phases, start + 1)
    else Pending(phases, start + 1)
  }

  function MarkDone(phases: seq<Phase>, start: nat): (r: seq<Phase>)
    ensures |r| == |phases|
    ensures forall i :: 0 <= i < |r| ==>
              r[i] == if i >= start && phases[i].present then phases[i].(done := true) else phases[i]
  {
    seq(|phases|, i requires 0 <= i < |phases| =>
      if i >= start && phases[i].present then phases[i].(done := true) else phases[i])
  }

  // The phases before end are as MarkDone has them, the others as they were.
  ghost predicate DoneUpTo(was: seq<Phase>, start: nat, end: nat, phases: seq<Phase>) {
    |phases| == |was| && end <= |was| && phases[..end] == MarkDone(was, start)[..end] && phases[end..] == was[end..]
  }

  lemma DoneOneMore(was: seq<Phase>, start: nat, i: nat, phases: seq<Phase>)
    requires start <= i < |was| && DoneUpTo(was, start, i, phases)
    ensures phases[i] == was[i]
    ensures DoneUpTo(was, start, i + 1, phases[i := if was[i].present then was[i].(done := true) else was[i]])
  {
    assert phases[i] == phases[i..][0] == was[i..][0];
    var marked := MarkDone(was, start);
    var next := phases[i := marked[i]];
    assert next[..i + 1] == phases[..i] + [marked[i]] == marked[..i + 1];
    assert next[i + 1..] == phases[i..][1..] == was[i + 1..];
  }

  // The phases of a list that fail.
  function Failing(ran: seq<nat>, fails: nat -> bool): seq<nat> {
    if ran == [] then []
    else if fails(ran[0]) then [ran[0]] + Failing(ran[1..], fails)
    else Failing(ran[1..], fails)
  }

  // What the turn of the loop at phase i moves from pending to run.
  lemma PendingStep(phases: seq<Phase>, i: nat, run: seq<nat>)
    requires i < |phases|
    ensures !IsPending(phases[i]) ==> Pending(phases, i) == Pending(phases, i + 1)
    ensures IsPending(phases[i]) ==> run + Pending(phases, i) == run + [i] + Pending(phases, i + 1)
  {
  }

  lemma {:induction false} FailingSnoc(run: seq<nat>, i: nat, fails: nat -> bool)
    ensures Failing(run + [i], fails) == if fails(i) then Failing(run, fails) + [i] else Failing(run, fails)
  {
    if run == [] {
      assert [i][1..] == [];
    } else {
      assert (run + [i])[1..] == run[1..] + [i];
      FailingSnoc(run[1..], i, fails);
    }
  }

  class CleanupOrchestrator {
    var phases: seq<Phase>
    var ran: seq<nat>

    constructor (present: seq<bool>)
      ensures |phases| == |present| && ran == []
      ensures forall i :: 0 <= i < |present| ==> phases[i] == Phase(present[i], false)
    {
      phases := seq(|present|, i requires 0 <= i < |present| => Phase(present[i], false));
      ran := [];
    }

    // executeFrom: every phase from start on that is registered and not done, in order; a failing
    // phase is reported, and the next ones run all the same.
    method ExecuteFrom(start: nat, fails: nat -> bool) returns (failed: seq<nat>)
      requires start <= |phases|
      modifies this
      ensures ran == old(ran) + Pending(old(phases), start)
      ensures phases == MarkDone(old(phases), start)
      ensures failed == Failing(Pending(old(phases), start), fails)
    {
      failed := [];
      ghost var was := phases;
      ghost var run: seq<nat> := [];
      var i := start;
      assert ran + [] == ran && [] + Pending(was, start) == Pending(was, start);
      while i < |phases|
        invariant start <= i <= |phases| == |was|
        invariant run + Pending(was, i) == Pending(was, start)
        invariant ran == old(ran) + run && failed == Failing(run, fails)
        invariant DoneUpTo(was, start, i, phases)
      {
        DoneOneMore(was, start, i, phases);
        PendingStep(was, i, run);
        FailingSnoc(run, i, fails);
        if phases[i].present && !phases[i].done {
          phases := phases[i := phases[i].(done := true)];
          assert ran + [i] == old(ran) + (run + [i]);
          ran, run := ran + [i], run + [i];
          if fails(i) { failed := failed + [i]; }
        } else {
          assert phases[i := phases[i]] == phases;
        }
        i := i + 1;
      }
      assert run + [] == run;
    }

    // ExecutePartial, with the index of the phase; an unknown phase runs everything.
    method ExecutePartial(start: Option<nat>, fails: nat -> bool) returns (failed: seq<nat>)
      requires start.Some? ==> start.value <= |phases|
      modifies this
      ensures var i := if start.None? then 0 else start.value;
              && ran == old(ran) + Pending(old(phases), i) && phases == MarkDone(old(phases), i)
              && failed == Failing(Pending(old(phases), i), fails)
    {
      failed := ExecuteFrom(if start.None? then 0 else start.value, fails);
    }
  }

  // A series of calls on one orchestrator: the phases run, in order.
  function Calls(phases: seq<Phase>, starts: seq<nat>): seq<nat>
    requires forall i :: 0 <= i < |starts| ==> starts[i] <= |phases|
    decreases |starts|
  {
    if starts == [] then []
    else Pending(phases, starts[0]) + Calls(MarkDone(phases, starts[0]), starts[1..])
  }

  ghost predicate Ascending(r: seq<nat>) { forall i, j :: 0 <= i < j < |r| ==> r[i] < r[j] }

  ghost predicate NoRepeats(r: seq<nat>) { forall i, j :: 0 <= i < j < |r| ==> r[i] != r[j] }

  lemma {:induction false} PendingMeans(phases: seq<Phase>, start: nat, p: nat)
    requires start <= |phases|
    ensures p in Pending(phases, start) <==> start <= p < |phases| && IsPending(phases[p])
    decreases |phases| - start
  {
    if start < |phases| {
      PendingMeans(phases, start + 1, p);
      var rest := Pending(phases, start + 1);
      assert p in [start] + rest <==> p == start || p in rest;
    }
  }

  lemma ConsAscends(x: nat, r: seq<nat>)
    requires Ascending(r) && forall p :: p in r ==> x < p
    ensures Ascending([x] + r)
  {
    forall i, j | 0 <= i < j < |r| + 1 ensures ([x] + r)[i] < ([x] + r)[j] {
      assert r[j - 1] in r;
    }
  }

  lemma {:induction false} PendingAscends(phases: seq<Phase>, start: nat)
    requires start <= |phases|
    ensures Ascending(Pending(phases, start))
    decreases |phases| - start
  {
    if start < |phases| {
      PendingAscends(phases, start + 1);
      var rest := Pending(phases, start + 1);
      forall p | p in rest ensures start < p { PendingMeans(phases, start + 1, p); }
      ConsAscends(start, rest);
    }
  }

  lemma {:induction false} CallsOnlyPending(phases: seq<Phase>, starts: seq<nat>, p: nat)
    requires forall i :: 0 <= i < |starts| ==> starts[i] <= |phases|
    ensures p in Calls(phases, starts) ==> p < |phases| && IsPending(phases[p])
    decreases |starts|
  {
    if starts != [] {
      PendingMeans(phases, starts[0], p);
      CallsOnlyPending(MarkDone(phases, starts[0]), starts[1..], p);
    }
  }

  lemma AppendNoRepeats(a: seq<nat>, b: seq<nat>)
    requires Ascending(a) && NoRepeats(b) && forall p :: p in a ==> p !in b
    ensures NoRepeats(a + b)
  {
    forall i, j | 0 <= i < j < |a + b| ensures (a + b)[i] != (a + b)[j] {
      if i < |a| <= j { assert a[i] in a && b[j - |a|] in b; }
    }
  }

  // However an orchestrator is called, and called again, no phase runs twice, and each call runs its
  // phases in their canonical order.
  lemma {:induction false} PhasesRunOnce(phases: seq<Phase>, starts: seq<nat>)
    requires forall i :: 0 <= i < |starts| ==> starts[i] <= |phases|
    ensures NoRepeats(Calls(phases, starts))
    ensures starts != [] ==>
              Ascending(Pending(phases, starts[0])) && Pending(phases, starts[0]) <= Calls(phases, starts)
    decreases |starts|
  {
    if starts != [] {
      var first, after := Pending(phases, starts[0]), MarkDone(phases, starts[0]);
      PendingAscends(phases, starts[0]);
      PhasesRunOnce(after, starts[1..]);
      var rest := Calls(after, starts[1..]);
      forall p | p in first ensures p !in rest {
        PendingMeans(phases, starts[0], p);
        CallsOnlyPending(after, starts[1..], p);
      }
      AppendNoRepeats(first, rest);
    }
  }

  // ---------------------------------------------------------------- rollback

  function Reversed(steps: seq<nat>): (r: seq<nat>)
    ensures |r| == |steps|
  {
    if steps == [] then [] else [steps[|steps| - 1]] + Reversed(steps[..|steps| - 1])
  }

  // The last step added is undone first.
  lemma {:induction false} ReversedAt(steps: seq<nat>, k: nat)
    requires k < |steps|
    ensures Reversed(steps)[k] == steps[|steps| - 1 - k]
  {
    if k > 0 { ReversedAt(steps[..|steps| - 1], k - 1); }
  }

  class CreateCleanup {
    var steps: seq<nat>
    var undone: seq<nat>

    constructor ()
      ensures steps == [] && undone == []
    {
      steps, undone := [], [];
    }

    method Add(step: nat)
      modifies this
      ensures steps == old(steps) + [step] && undone == old(undone)
    {
      steps := steps + [step];
    }

    // rollback: last in, first out, and on after a failing step.
    method Rollback()
      modifies this
      ensures steps == old(steps) && undone == old(undone) + Reversed(steps)
    {
      var i := |steps|;
      assert steps[..i] == steps && undone + Reversed(steps) == old(undone) + Reversed(steps);
      while i > 0
        invariant 0 <= i <= |steps| && steps == old(steps)
        invariant undone + Reversed(steps[..i]) == old(undone) + Reversed(steps)
      {
        i := i - 1;
        assert steps[..i + 1][..i] == steps[..i];
        undone := undone + [steps[i]];
      }
      assert undone + [] == undone;
    }
  }
}
