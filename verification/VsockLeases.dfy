// CID leases in every run of many processes over the same lock files.
module VsockLeases {
  import opened Base
  import opened VsockAllocator

  datatype Pc = Scanning(start: int, cid: nat) | Holding(cid: nat) | Gone

  // clean: the latest clean release of each CID.
  datatype Grant = Grant(cid: nat, start: int, released: Option<int>)

  datatype Sys = Sys(clock: int, files: map<nat, File>, procs: map<nat, Pc>, clean: map<nat, int>, grants: seq<Grant>)

  datatype Config = Config(minCID: nat, maxCID: nat, cooldown: int)

  function Initial(clock: int): Sys { Sys(clock, map[], map[], map[], []) }

  // readable: whether the metadata can be read; crash: the process dies in the middle of the step.
  datatype Step =
    | Tick(elapsed: nat)
    | Begin(p: nat)
    | ProbeNext(p: nat, opens: bool, readable: bool, written: Written, crash: bool)
    | Release(p: nat, readable: bool, written: Written)
    | Crash(p: nat)

  predicate Enabled(cfg: Config, s: Sys, step: Step) {
    match step
    case Tick(_) => true
    case Begin(p) => p !in s.procs
    case ProbeNext(p, _, _, _, _) => p in s.procs && s.procs[p].Scanning?
    case Release(p, _, _) => p in s.procs && s.procs[p].Holding? && s.procs[p].cid in s.files
    case Crash(p) => p in s.procs
  }

  // ---------------------------------------------------------------- files

  function Opened(s: Sys, cid: nat): File { if cid in s.files then s.files[cid] else File(NO_META, s.clock, None) }

  function CleanAt(s: Sys, cid: nat): Option<int> { if cid in s.clean then Some(s.clean[cid]) else None }

  function Unlock(files: map<nat, File>, p: nat): map<nat, File> {
    map c | c in files :: if files[c].holder == Some(p) then files[c].(holder := None) else files[c]
  }

  // ---------------------------------------------------------------- steps

  function Skip(cfg: Config, s: Sys, p: nat, crash: bool): Sys
    requires p in s.procs && s.procs[p].Scanning?
  {
    var cid := (s.procs[p].cid + 1) % TWO32;
    s.(procs := s.procs[p := if crash || cid > cfg.maxCID then Gone else s.procs[p].(cid := cid)])
  }

  // One turn of Allocate's loop.
  function Probed(cfg: Config, s: Sys, p: nat, opens: bool, readable: bool, w: Written, crash: bool): Sys
    requires p in s.procs && s.procs[p].Scanning?
  {
    var start, cid := s.procs[p].start, s.procs[p].cid;
    var f := Opened(s, cid);
    if cid > cfg.maxCID || !opens then Skip(cfg, s, p, crash)
    else
      var t := s.(files := s.files[cid := f]);
      if f.holder.Some? || IsCoolingDown(start, Seen(f, readable), Some(f.mtime), cfg.cooldown)
        then Skip(cfg, t, p, crash)
      else
        var g := After(f, Meta(Some(start), None), w, s.clock);
        if w != Done || crash then Skip(cfg, s.(files := s.files[cid := g]), p, crash)
        else
          s.(files := s.files[cid := g.(holder := Some(p))], procs := s.procs[p := Holding(cid)],
             grants := s.grants + [Grant(cid, start, CleanAt(s, cid))])
  }

  // A release is clean when its metadata is written.
  function Released(s: Sys, p: nat, readable: bool, w: Written): Sys
    requires p in s.procs && s.procs[p].Holding? && s.procs[p].cid in s.files
  {
    var cid := s.procs[p].cid;
    var f := s.files[cid];
    var g := After(f, ReleasedMeta(Seen(f, readable), s.clock), w, s.clock);
    s.(files := s.files[cid := g.(holder := None)], procs := s.procs[p := Gone],
       clean := if w == Done then s.clean[cid := s.clock] else s.clean)
  }

  function Next(cfg: Config, s: Sys, step: Step): Sys
    requires Enabled(cfg, s, step)
  {
    match step
    case Tick(d) => s.(clock := s.clock + d)
    case Begin(p) => s.(procs := s.procs[p := Scanning(s.clock, cfg.minCID)])
    case ProbeNext(p, opens, readable, w, crash) => Probed(cfg, s, p, opens, readable, w, crash)
    case Release(p, readable, w) => Released(s, p, readable, w)
    case Crash(p) => s.(files := Unlock(s.files, p), procs := s.procs[p := Gone])
  }

  // ---------------------------------------------------------------- invariant

  // A clean release is remembered by the file: by its metadata, and by its modification time.
  predicate FileOk(cfg: Config, s: Sys, cid: nat)
    requires cid in s.files
  {
    var f := s.files[cid];
    && f.mtime <= s.clock
    && (f.holder.Some? ==> f.holder.value in s.procs && s.procs[f.holder.value] == Holding(cid))
    && (cfg.cooldown > 0 && cid in s.clean ==>
          s.clean[cid] <= f.mtime && LastUse(f.meta, Some(f.mtime)).value >= s.clean[cid])
  }

  predicate ProcOk(s: Sys, p: nat)
    requires p in s.procs
  {
    var pc := s.procs[p];
    && (pc.Holding? ==> pc.cid in s.files && s.files[pc.cid].holder == Some(p))
    && (pc.Scanning? ==> pc.start <= s.clock)
  }

  predicate GrantOk(cfg: Config, g: Grant) {
    cfg.cooldown > 0 && g.released.Some? ==> g.start >= g.released.value + cfg.cooldown
  }

  predicate Inv(cfg: Config, s: Sys) {
    && (forall c :: c in s.files ==> FileOk(cfg, s, c))
    && (forall p :: p in s.procs ==> ProcOk(s, p))
    && (forall c :: c in s.clean ==> c in s.files && s.clean[c] <= s.clock)
    && (forall g :: g in s.grants ==> GrantOk(cfg, g))
  }

  // ---------------------------------------------------------------- proofs

  lemma TickKeeps(cfg: Config, s: Sys, d: nat)
    requires Inv(cfg, s)
    ensures Inv(cfg, Next(cfg, s, Tick(d)))
  {
    var t := Next(cfg, s, Tick(d));
    forall c | c in t.files ensures FileOk(cfg, t, c) { assert FileOk(cfg, s, c); }
    forall p | p in t.procs ensures ProcOk(t, p) { assert ProcOk(s, p); }
  }

  lemma BeginKeeps(cfg: Config, s: Sys, p: nat)
    requires Inv(cfg, s) && p !in s.procs
    ensures Inv(cfg, Next(cfg, s, Begin(p)))
  {
    var t := Next(cfg, s, Begin(p));
    forall c | c in t.files ensures FileOk(cfg, t, c) { assert FileOk(cfg, s, c); }
    forall q | q in t.procs ensures ProcOk(t, q) { assert q != p ==> ProcOk(s, q); }
  }

  lemma SkipKeeps(cfg: Config, s: Sys, p: nat, crash: bool)
    requires Inv(cfg, s) && p in s.procs && s.procs[p].Scanning?
    ensures Inv(cfg, Skip(cfg, s, p, crash))
  {
    var t := Skip(cfg, s, p, crash);
    forall c | c in t.files ensures FileOk(cfg, t, c) { assert FileOk(cfg, s, c); }
    forall q | q in t.procs ensures ProcOk(t, q) { assert ProcOk(s, q); }
  }

  // A file that no one holds may be replaced by one that still remembers the clean release.
  lemma TouchKeeps(cfg: Config, s: Sys, cid: nat, g: File)
    requires Inv(cfg, s) && Opened(s, cid).holder.None? && g.holder.None? && g.mtime <= s.clock
    requires cfg.cooldown > 0 && cid in s.clean ==>
               s.clean[cid] <= g.mtime && LastUse(g.meta, Some(g.mtime)).value >= s.clean[cid]
    ensures Inv(cfg, s.(files := s.files[cid := g]))
  {
    var t := s.(files := s.files[cid := g]);
    forall c | c in t.files ensures FileOk(cfg, t, c) { assert c != cid ==> FileOk(cfg, s, c); }
    forall q | q in t.procs ensures ProcOk(t, q) { assert ProcOk(s, q); }
  }

  // Creating the file, or opening it, changes nothing that matters.
  lemma OpenKeeps(cfg: Config, s: Sys, cid: nat)
    requires Inv(cfg, s)
    ensures Inv(cfg, s.(files := s.files[cid := Opened(s, cid)]))
  {
    if cid in s.files {
      assert s.files[cid := Opened(s, cid)] == s.files;
    } else {
      TouchKeeps(cfg, s, cid, Opened(s, cid));
    }
  }

  // An allocation that gets past the cooldown started late enough.
  lemma PastCooldown(cfg: Config, s: Sys, cid: nat, start: int, readable: bool)
    requires Inv(cfg, s) && cfg.cooldown > 0 && cid in s.clean
    requires var f := Opened(s, cid);
             !IsCoolingDown(start, Seen(f, readable), Some(f.mtime), cfg.cooldown)
    ensures start >= s.clean[cid] + cfg.cooldown
  {
    assert FileOk(cfg, s, cid);
  }

  lemma WroteKeeps(cfg: Config, s: Sys, cid: nat, start: int, readable: bool, w: Written)
    requires Inv(cfg, s) && start <= s.clock
    requires var f := Opened(s, cid);
             f.holder.None? && !IsCoolingDown(start, Seen(f, readable), Some(f.mtime), cfg.cooldown)
    ensures Inv(cfg, s.(files := s.files[cid := After(Opened(s, cid), Meta(Some(start), None), w, s.clock)]))
  {
    if cfg.cooldown > 0 && cid in s.clean { PastCooldown(cfg, s, cid, start, readable); }
    if cid in s.files { assert FileOk(cfg, s, cid); }
    TouchKeeps(cfg, s, cid, After(Opened(s, cid), Meta(Some(start), None), w, s.clock));
  }

  lemma GrantKeeps(cfg: Config, s: Sys, p: nat, cid: nat, g: Grant)
    requires Inv(cfg, s) && p in s.procs && s.procs[p].Scanning? && cid in s.files && s.files[cid].holder.None?
    requires GrantOk(cfg, g)
    ensures Inv(cfg, s.(files := s.files[cid := s.files[cid].(holder := Some(p))], procs := s.procs[p := Holding(cid)],
                        grants := s.grants + [g]))
  {
    var t := s.(files := s.files[cid := s.files[cid].(holder := Some(p))], procs := s.procs[p := Holding(cid)],
                grants := s.grants + [g]);
    forall c | c in t.files ensures FileOk(cfg, t, c) { assert FileOk(cfg, s, c); }
    forall q | q in t.procs ensures ProcOk(t, q) { assert ProcOk(s, q); }
  }

  lemma ProbeKeeps(cfg: Config, s: Sys, p: nat, opens: bool, readable: bool, w: Written, crash: bool)
    requires Inv(cfg, s) && p in s.procs && s.procs[p].Scanning?
    ensures Inv(cfg, Probed(cfg, s, p, opens, readable, w, crash))
  {
    assert ProcOk(s, p);
    var start, cid := s.procs[p].start, s.procs[p].cid;
    var f := Opened(s, cid);
    if cid > cfg.maxCID || !opens {
      SkipKeeps(cfg, s, p, crash);
    } else if f.holder.Some? || IsCoolingDown(start, Seen(f, readable), Some(f.mtime), cfg.cooldown) {
      OpenKeeps(cfg, s, cid);
      SkipKeeps(cfg, s.(files := s.files[cid := f]), p, crash);
    } else {
      WroteKeeps(cfg, s, cid, start, readable, w);
      var t := s.(files := s.files[cid := After(f, Meta(Some(start), None), w, s.clock)]);
      if w != Done || crash {
        SkipKeeps(cfg, t, p, crash);
      } else {
        if cfg.cooldown > 0 && cid in s.clean { PastCooldown(cfg, s, cid, start, readable); }
        GrantKeeps(cfg, t, p, cid, Grant(cid, start, CleanAt(s, cid)));
        assert t.files[cid := t.files[cid].(holder := Some(p))] == s.files[cid := t.files[cid].(holder := Some(p))];
      }
    }
  }

  lemma ReleaseKeeps(cfg: Config, s: Sys, p: nat, readable: bool, w: Written)
    requires Inv(cfg, s) && p in s.procs && s.procs[p].Holding? && s.procs[p].cid in s.files
    ensures Inv(cfg, Released(s, p, readable, w))
  {
    var t := Released(s, p, readable, w);
    assert ProcOk(s, p) && FileOk(cfg, s, s.procs[p].cid);
    forall c | c in t.files ensures FileOk(cfg, t, c) { assert FileOk(cfg, s, c); }
    forall q | q in t.procs ensures ProcOk(t, q) { assert ProcOk(s, q); }
  }

  lemma CrashKeeps(cfg: Config, s: Sys, p: nat)
    requires Inv(cfg, s) && p in s.procs
    ensures Inv(cfg, Next(cfg, s, Crash(p)))
  {
    var t := Next(cfg, s, Crash(p));
    forall c | c in t.files ensures FileOk(cfg, t, c) { assert FileOk(cfg, s, c); }
    forall q | q in t.procs ensures ProcOk(t, q) { assert ProcOk(s, q); }
  }

  lemma StepKeeps(cfg: Config, s: Sys, step: Step)
    requires Inv(cfg, s) && Enabled(cfg, s, step)
    ensures Inv(cfg, Next(cfg, s, step))
  {
    match step
    case Tick(d) => TickKeeps(cfg, s, d);
    case Begin(p) => BeginKeeps(cfg, s, p);
    case ProbeNext(p, opens, readable, w, crash) => ProbeKeeps(cfg, s, p, opens, readable, w, crash);
    case Release(p, readable, w) => ReleaseKeeps(cfg, s, p, readable, w);
    case Crash(p) => CrashKeeps(cfg, s, p);
  }

  // ---------------------------------------------------------------- runs

  ghost predicate IsRun(cfg: Config, run: seq<Sys>, steps: seq<Step>) {
    && |run| == |steps| + 1 && run[0] == Initial(run[0].clock)
    && forall i :: 0 <= i < |steps| ==> Enabled(cfg, run[i], steps[i]) && run[i + 1] == Next(cfg, run[i], steps[i])
  }

  lemma {:induction false} RunsKeep(cfg: Config, run: seq<Sys>, steps: seq<Step>, k: nat)
    requires IsRun(cfg, run, steps) && k < |run|
    ensures Inv(cfg, run[k])
  {
    if k > 0 {
      RunsKeep(cfg, run, steps, k - 1);
      StepKeeps(cfg, run[k - 1], steps[k - 1]);
    }
  }

  // In every run with crashes and failing writes: no two live leases share a CID, and a CID that was
  // cleanly released was granted again only to an Allocate that started the cooldown later.
  lemma LeasesAreExclusive(cfg: Config, run: seq<Sys>, steps: seq<Step>, k: nat)
    requires IsRun(cfg, run, steps) && k < |run|
    ensures var s := run[k];
            && (forall p, q :: SameLease(s, p, q) ==> p == q)
            && (cfg.cooldown > 0 ==>
                  forall g :: g in s.grants && g.released.Some? ==> g.start >= g.released.value + cfg.cooldown)
  {
    RunsKeep(cfg, run, steps, k);
    var s := run[k];
    forall p, q | SameLease(s, p, q) ensures p == q { assert ProcOk(s, p) && ProcOk(s, q); }
  }

  predicate SameLease(s: Sys, p: nat, q: nat) {
    p in s.procs && q in s.procs && s.procs[p].Holding? && s.procs[p] == s.procs[q]
  }

  lemma Extend(cfg: Config, run: seq<Sys>, steps: seq<Step>, step: Step)
    requires IsRun(cfg, run, steps) && Enabled(cfg, run[|steps|], step)
    ensures IsRun(cfg, run + [Next(cfg, run[|steps|], step)], steps + [step])
  {
  }

  // ---------------------------------------------------------------- when a released CID is granted again

  // No one holds the CID; its metadata says that it was last used at r, and was written at w.
  predicate Rests(s: Sys, cid: nat, r: int, w: int) {
    && cid in s.files && s.files[cid].holder.None? && s.files[cid].mtime == w && r <= w
    && (s.files[cid].meta.releasedAt.Some? || s.files[cid].meta.allocatedAt.Some?)
    && LastUse(s.files[cid].meta, None) == Some(r)
  }

  // The step is no probe of the CID by an Allocate that started the cooldown after r.
  predicate Leaves(cfg: Config, s: Sys, step: Step, cid: nat, r: int) {
    step.ProbeNext? && step.p in s.procs && s.procs[step.p].Scanning? && s.procs[step.p].cid == cid ==>
      s.procs[step.p].start < r + cfg.cooldown
  }

  lemma ReleaseRests(cfg: Config, s: Sys, p: nat, readable: bool)
    requires Enabled(cfg, s, Release(p, readable, Done))
    ensures Rests(Next(cfg, s, Release(p, readable, Done)), s.procs[p].cid, s.clock, s.clock)
  {
  }

  lemma RestStays(cfg: Config, s: Sys, step: Step, cid: nat, r: int, w: int)
    requires cfg.cooldown > 0 && Inv(cfg, s) && Enabled(cfg, s, step)
    requires Rests(s, cid, r, w) && Leaves(cfg, s, step, cid, r)
    ensures Rests(Next(cfg, s, step), cid, r, w)
  {
    if step.Release? { assert ProcOk(s, step.p); }
  }

  lemma {:induction false} RestsSince(cfg: Config, run: seq<Sys>, steps: seq<Step>, i: nat, k: nat, cid: nat,
                                      r: int, w: int)
    requires cfg.cooldown > 0 && IsRun(cfg, run, steps) && i < k < |run| && Rests(run[i + 1], cid, r, w)
    requires forall j :: i < j < k ==> Leaves(cfg, run[j], steps[j], cid, r)
    ensures Rests(run[k], cid, r, w)
    decreases k
  {
    if i + 1 < k {
      RestsSince(cfg, run, steps, i, k - 1, cid, r, w);
      RunsKeep(cfg, run, steps, k - 1);
      RestStays(cfg, run[k - 1], steps[k - 1], cid, r, w);
    }
  }

  // What grants a resting CID, when nothing fails.
  lemma RestIsGranted(cfg: Config, s: Sys, q: nat, readable: bool, cid: nat, r: int, w: int)
    requires cfg.cooldown > 0 && Rests(s, cid, r, w) && cid <= cfg.maxCID
    requires q in s.procs && s.procs[q].Scanning? && s.procs[q].cid == cid
    ensures var t := Next(cfg, s, ProbeNext(q, true, readable, Done, false));
            && q in t.procs
            && (t.procs[q] == Holding(cid) <==> s.procs[q].start >= (if readable then r else w) + cfg.cooldown)
  {
  }

  // The k-th step probes the CID, and nothing fails.
  ghost predicate Probes(cfg: Config, run: seq<Sys>, steps: seq<Step>, k: nat, cid: nat)
    requires IsRun(cfg, run, steps)
  {
    && k < |steps| && steps[k].ProbeNext? && steps[k].opens && steps[k].written == Done && !steps[k].crash
    && run[k].procs[steps[k].p].cid == cid <= cfg.maxCID
  }

  // The cooldown is exact. In every run, the first Allocate that probes a cleanly released CID and started the
  // cooldown after the release, or later, gets it, if nothing fails; every earlier one does not.
  lemma GrantedExactly(cfg: Config, run: seq<Sys>, steps: seq<Step>, i: nat, k: nat, cid: nat)
    requires cfg.cooldown > 0 && IsRun(cfg, run, steps) && i < k && Probes(cfg, run, steps, k, cid)
    requires steps[i].Release? && steps[i].written == Done && run[i].procs[steps[i].p] == Holding(cid)
    requires forall j :: i < j < k ==> Leaves(cfg, run[j], steps[j], cid, run[i].clock)
    ensures var q := steps[k].p;
            q in run[k + 1].procs
            && (run[k + 1].procs[q] == Holding(cid) <==> run[k].procs[q].start >= run[i].clock + cfg.cooldown)
  {
    var r := run[i].clock;
    ReleaseRests(cfg, run[i], steps[i].p, steps[i].readable);
    RestsSince(cfg, run, steps, i, k, cid, r, r);
    RestIsGranted(cfg, run[k], steps[k].p, steps[k].readable, cid, r, r);
  }

  // The process holds the CID, which an Allocate that started at r got at time w.
  predicate Held(s: Sys, cid: nat, p: nat, r: int, w: int) {
    r <= w && cid in s.files && s.files[cid] == File(Meta(Some(r), None), w, Some(p))
  }

  lemma GrantIsHeld(cfg: Config, s: Sys, step: Step, cid: nat)
    requires Inv(cfg, s) && Enabled(cfg, s, step) && step.ProbeNext?
    requires Next(cfg, s, step).procs[step.p] == Holding(cid)
    ensures Held(Next(cfg, s, step), cid, step.p, s.procs[step.p].start, s.clock)
  {
    assert ProcOk(s, step.p);
  }

  lemma HeldStays(cfg: Config, s: Sys, step: Step, cid: nat, p: nat, r: int, w: int)
    requires Inv(cfg, s) && Enabled(cfg, s, step) && Held(s, cid, p, r, w)
    requires step.Tick? || step.p != p
    ensures Held(Next(cfg, s, step), cid, p, r, w)
  {
    if step.Release? { assert ProcOk(s, step.p); }
  }

  lemma {:induction false} HeldSince(cfg: Config, run: seq<Sys>, steps: seq<Step>, i: nat, k: nat, cid: nat, p: nat,
                                     r: int, w: int)
    requires IsRun(cfg, run, steps) && i < k < |run| && Held(run[i + 1], cid, p, r, w)
    requires forall j :: i < j < k ==> steps[j].Tick? || steps[j].p != p
    ensures Held(run[k], cid, p, r, w)
    decreases k
  {
    if i + 1 < k {
      HeldSince(cfg, run, steps, i, k - 1, cid, p, r, w);
      RunsKeep(cfg, run, steps, k - 1);
      HeldStays(cfg, run[k - 1], steps[k - 1], cid, p, r, w);
    }
  }

  lemma CrashRests(cfg: Config, s: Sys, cid: nat, p: nat, r: int, w: int)
    requires Enabled(cfg, s, Crash(p)) && Held(s, cid, p, r, w)
    ensures Rests(Next(cfg, s, Crash(p)), cid, r, w)
  {
  }

  // A CID whose holder crashed cools down from the start of the Allocate that got it, as long as its metadata
  // can be read, and else from the time that was written.
  lemma GrantedAfterCrash(cfg: Config, run: seq<Sys>, steps: seq<Step>, g: nat, i: nat, k: nat, cid: nat)
    requires cfg.cooldown > 0 && IsRun(cfg, run, steps) && g < i < k && Probes(cfg, run, steps, k, cid)
    requires steps[g].ProbeNext? && run[g + 1].procs[steps[g].p] == Holding(cid) && steps[i] == Crash(steps[g].p)
    requires forall j :: g < j < i ==> steps[j].Tick? || steps[j].p != steps[g].p
    requires forall j :: i < j < k ==> Leaves(cfg, run[j], steps[j], cid, run[g].procs[steps[g].p].start)
    ensures var q, since := steps[k].p, if steps[k].readable then run[g].procs[steps[g].p].start else run[g].clock;
            q in run[k + 1].procs
            && (run[k + 1].procs[q] == Holding(cid) <==> run[k].procs[q].start >= since + cfg.cooldown)
  {
    var p, r, w := steps[g].p, run[g].procs[steps[g].p].start, run[g].clock;
    RunsKeep(cfg, run, steps, g);
    GrantIsHeld(cfg, run[g], steps[g], cid);
    HeldSince(cfg, run, steps, g, i, cid, p, r, w);
    CrashRests(cfg, run[i], cid, p, r, w);
    RestsSince(cfg, run, steps, i, k, cid, r, w);
    RestIsGranted(cfg, run[k], steps[k].p, steps[k].readable, cid, r, w);
  }

  // A CID is granted, and released after another Allocate has started.
  lemma GrantedAndReleased(cfg: Config) returns (run: seq<Sys>, steps: seq<Step>)
    requires cfg.minCID <= cfg.maxCID && cfg.cooldown <= 0
    ensures IsRun(cfg, run, steps)
    ensures var s, c := run[|steps|], cfg.minCID;
            && s.clock == 5 && s.clean == map[c := 5] && s.files == map[c := File(Meta(Some(0), Some(5)), 5, None)]
            && 1 in s.procs && s.procs[1] == Scanning(0, c)
  {
    var c := cfg.minCID;
    steps := [Begin(0), ProbeNext(0, true, true, Done, false), Begin(1), Tick(5), Release(0, true, Done)];
    var s0 := Initial(0);
    var s1 := Next(cfg, s0, steps[0]);
    var s2 := Next(cfg, s1, steps[1]);
    assert s2.files == map[c := File(Meta(Some(0), None), 0, Some(0))];
    assert s2.procs == map[0 := Holding(c)] && s2.clock == 0;
    var s3 := Next(cfg, s2, steps[2]);
    var s4 := Next(cfg, s3, steps[3]);
    run := [s0, s1, s2, s3, s4, Next(cfg, s4, steps[4])];
  }

  // Without a positive cooldown, an Allocate that started before a release can be granted the released CID.
  lemma NoCooldownNoGap(cfg: Config) returns (run: seq<Sys>, steps: seq<Step>)
    requires cfg.minCID <= cfg.maxCID && cfg.cooldown <= 0
    ensures IsRun(cfg, run, steps)
    ensures Grant(cfg.minCID, 0, Some(5)) in run[|steps|].grants
  {
    run, steps := GrantedAndReleased(cfg);
    var s, probe := run[|steps|], ProbeNext(1, true, true, Done, false);
    Extend(cfg, run, steps, probe);
    run, steps := run + [Next(cfg, s, probe)], steps + [probe];
  }

  // Every grant of a released CID is to an Allocate that started after the release.
  ghost predicate Later(s: Sys) { forall g :: g in s.grants && g.released.Some? ==> g.start >= g.released.value }

  // That holds in every run if and only if the cooldown is positive.
  lemma GapNeedsCooldown(cfg: Config)
    requires cfg.minCID <= cfg.maxCID
    ensures cfg.cooldown > 0 <==>
            forall run: seq<Sys>, steps: seq<Step> :: IsRun(cfg, run, steps) ==> Later(run[|steps|])
  {
    if cfg.cooldown > 0 {
      forall run: seq<Sys>, steps: seq<Step> | IsRun(cfg, run, steps) ensures Later(run[|steps|]) {
        LeasesAreExclusive(cfg, run, steps, |steps|);
      }
    } else {
      var run, steps := NoCooldownNoGap(cfg);
      assert !Later(run[|steps|]);
    }
  }
}
