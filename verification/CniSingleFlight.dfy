// The CNI network manager: concurrent setups and teardowns, deduplicated per container.
// One step is one critical section, one channel operation, or one run of the plugins.
module CniSingleFlight {
  import opened Base

  datatype Op = Setup | Teardown

  datatype Key = Key(op: Op, id: nat)

  // A setup gives the network it configured; a teardown gives nothing of note.
  datatype Outcome = Success(value: nat) | Failure(error: nat)

  // closes: how often done was closed; worker: the caller that made the tracker.
  datatype Tracker = Tracker(key: Key, worker: nat, outcome: Option<Outcome>, closes: nat)

  // What the callers share. cache: cniResults; inFlight: both in-flight maps, by key.
  datatype Shared = Shared(cache: map<nat, nat>, inFlight: map<Key, nat>, trackers: map<nat, Tracker>, next: nat)

  // ---------------------------------------------------------------- critical sections

  // Wait for the tracker that is there, or make one.
  function Join(sh: Shared, key: Key, caller: nat): (Shared, nat, bool) {
    if key in sh.inFlight then (sh, sh.inFlight[key], false)
    else
      (sh.(inFlight := sh.inFlight[key := sh.next], next := sh.next + 1,
           trackers := sh.trackers[sh.next := Tracker(key, caller, None, 0)]), sh.next, true)
  }

  // A successful setup stores its result; a teardown clears it, whatever its outcome.
  function Write(sh: Shared, key: Key, o: Outcome): Shared {
    if key.op == Teardown then sh.(cache := sh.cache - {key.id})
    else if o.Success? then sh.(cache := sh.cache[key.id := o.value])
    else sh
  }

  function Settle(sh: Shared, t: nat, o: Outcome): Shared
    requires t in sh.trackers
  {
    sh.(trackers := sh.trackers[t := sh.trackers[t].(outcome := Some(o))])
  }

  function Close(sh: Shared, t: nat): Shared
    requires t in sh.trackers
  {
    sh.(trackers := sh.trackers[t := sh.trackers[t].(closes := sh.trackers[t].closes + 1)])
  }

  function Remove(sh: Shared, key: Key): Shared { sh.(inFlight := sh.inFlight - {key}) }

  // ---------------------------------------------------------------- callers

  datatype Pc =
    | Called                            // a setup, about to look into the cache
    | Joining                           // about to take the in-flight lock
    | Waiting(t: nat)
    | Working(t: nat)                   // running the plugins
    | Worked(t: nat, o: Outcome)
    | Written(t: nat, o: Outcome)
    | Settled(t: nat, o: Outcome)
    | Closed(t: nat, o: Outcome)
    | Returned(t: nat, o: Outcome)
    | Hit(value: nat)
    | Cancelled

  datatype Caller = Caller(key: Key, pc: Pc)

  // writes: the results stored and cleared so far, ghost history of the cache.
  datatype WriteEntry = WriteEntry(id: nat, value: Option<nat>)

  datatype Sys = Sys(shared: Shared, callers: map<nat, Caller>, writes: seq<WriteEntry>)

  function Initial(): Sys { Sys(Shared(map[], map[], map[], 0), map[], []) }

  datatype Step =
    | Call(caller: nat, key: Key)
    | ReadCache(caller: nat)
    | TakeLock(caller: nat)
    | Perform(caller: nat, o: Outcome)
    | WriteCache(caller: nat)
    | SetOutcome(caller: nat)
    | CloseDone(caller: nat)
    | Delete(caller: nat)
    | Wake(caller: nat)
    | Cancel(caller: nat)

  predicate Leads(pc: Pc) { pc.Working? || pc.Worked? || pc.Written? || pc.Settled? || pc.Closed? }

  predicate Enabled(s: Sys, step: Step) {
    if step.Call? then step.caller !in s.callers
    else
      && step.caller in s.callers
      && var pc := s.callers[step.caller].pc;
         (Leads(pc) || pc.Waiting? ==> pc.t in s.shared.trackers) &&
         match step
         case ReadCache(_) => pc.Called?
         case TakeLock(_) => pc.Joining?
         case Perform(_, _) => pc.Working?
         case WriteCache(_) => pc.Worked?
         case SetOutcome(_) => pc.Written?
         case CloseDone(_) => pc.Settled?
         case Delete(_) => pc.Closed?
         case Wake(_) => pc.Waiting? && s.shared.trackers[pc.t].closes > 0 && s.shared.trackers[pc.t].outcome.Some?
         case Cancel(_) => pc.Waiting?
  }

  function At(s: Sys, a: nat, pc: Pc): Sys
    requires a in s.callers
  {
    s.(callers := s.callers[a := s.callers[a].(pc := pc)])
  }

  function Entry(key: Key, o: Outcome): seq<WriteEntry> {
    if key.op == Teardown then [WriteEntry(key.id, None)]
    else if o.Success? then [WriteEntry(key.id, Some(o.value))]
    else []
  }

  function Next(s: Sys, step: Step): Sys
    requires Enabled(s, step)
  {
    var a := step.caller;
    if step.Call? then
      s.(callers := s.callers[a := Caller(step.key, if step.key.op == Setup then Called else Joining)])
    else
      var key, pc, sh := s.callers[a].key, s.callers[a].pc, s.shared;
      match step
      case ReadCache(_) => At(s, a, if key.id in sh.cache then Hit(sh.cache[key.id]) else Joining)
      case TakeLock(_) =>
        var (sh2, t, leader) := Join(sh, key, a);
        At(s, a, if leader then Working(t) else Waiting(t)).(shared := sh2)
      case Perform(_, o) => At(s, a, Worked(pc.t, o))
      case WriteCache(_) =>
        At(s, a, Written(pc.t, pc.o)).(shared := Write(sh, key, pc.o), writes := s.writes + Entry(key, pc.o))
      case SetOutcome(_) => At(s, a, Settled(pc.t, pc.o)).(shared := Settle(sh, pc.t, pc.o))
      case CloseDone(_) => At(s, a, Closed(pc.t, pc.o)).(shared := Close(sh, pc.t))
      case Delete(_) => At(s, a, Returned(pc.t, pc.o)).(shared := Remove(sh, key))
      case Wake(_) => At(s, a, Returned(pc.t, sh.trackers[pc.t].outcome.value))
      case Cancel(_) => At(s, a, Cancelled)
  }

  // ---------------------------------------------------------------- invariant

  // What a tracker looks like while its worker is at pc.
  predicate Matches(tr: Tracker, pc: Pc) {
    && (pc.Working? || pc.Worked? || pc.Written? ==> tr.outcome.None? && tr.closes == 0)
    && (pc.Settled? ==> tr.outcome == Some(pc.o) && tr.closes == 0)
    && (pc.Closed? || pc.Returned? ==> tr.outcome == Some(pc.o) && tr.closes == 1)
  }

  predicate CallerOk(s: Sys, a: nat)
    requires a in s.callers
  {
    var c, sh := s.callers[a], s.shared;
    && (Leads(c.pc) || c.pc.Waiting? || c.pc.Returned? ==>
          c.pc.t in sh.trackers && sh.trackers[c.pc.t].key == c.key)
    && (Leads(c.pc) ==> sh.trackers[c.pc.t].worker == a && c.key in sh.inFlight && sh.inFlight[c.key] == c.pc.t)
    && (Leads(c.pc) || c.pc.Returned? ==> Matches(sh.trackers[c.pc.t], c.pc))
  }

  // Every tracker was made by its worker, who still leads it or has returned with its outcome.
  predicate TrackerOk(s: Sys, t: nat)
    requires t in s.shared.trackers
  {
    var tr := s.shared.trackers[t];
    && t < s.shared.next && tr.worker in s.callers
    && var pc := s.callers[tr.worker].pc;
       (Leads(pc) || pc.Returned?) && pc.t == t && Matches(tr, pc) && s.callers[tr.worker].key == tr.key
  }

  predicate InFlightOk(s: Sys, key: Key)
    requires key in s.shared.inFlight
  {
    var t := s.shared.inFlight[key];
    t in s.shared.trackers && s.shared.trackers[t].key == key && s.shared.trackers[t].worker in s.callers &&
    Leads(s.callers[s.shared.trackers[t].worker].pc)
  }

  function Latest(writes: seq<WriteEntry>, id: nat): Option<nat> {
    if writes == [] then None
    else
      var w := writes[|writes| - 1];
      if w.id == id then w.value else Latest(writes[..|writes| - 1], id)
  }

  function CacheAt(cache: map<nat, nat>, id: nat): Option<nat> { if id in cache then Some(cache[id]) else None }

  ghost predicate CacheOk(s: Sys) { forall id: nat :: CacheAt(s.shared.cache, id) == Latest(s.writes, id) }

  ghost predicate Inv(s: Sys) {
    && (forall a :: a in s.callers ==> CallerOk(s, a))
    && (forall t :: t in s.shared.trackers ==> TrackerOk(s, t))
    && (forall key :: key in s.shared.inFlight ==> InFlightOk(s, key))
    && CacheOk(s)
  }
}
