// A failed mount leaves nothing mounted; a successful one mounts every component, in order.
module GuestMountLaws {
  import opened Base
  import opened Text
  import opened HostMounts
  import opened GuestMounts

  // ---------------------------------------------------------------- what operations mount

  lemma {:induction false} EarlierOps(ops: seq<Op>, more: seq<Op>, n: nat, works: nat -> bool)
    requires n <= |ops|
    ensures MountedAfter(ops + more, n, works) == MountedAfter(ops, n, works)
  {
    if n > 0 { EarlierOps(ops, more, n - 1, works); }
  }

  function Effect(op: Op, before: set<string>): set<string> {
    if op.DoMount? then before + {op.point} else if op.Unmount? then before - {op.point} else before
  }

  lemma OneMore(ops: seq<Op>, op: Op, works: nat -> bool)
    ensures MountedBy(ops + [op], works) ==
            if works(|ops|) then Effect(op, MountedBy(ops, works)) else MountedBy(ops, works)
  {
    EarlierOps(ops, [op], |ops|, works);
  }

  lemma {:induction false} DirsMountNothing(specs: seq<Mkdir>, ops: seq<Op>, works: nat -> bool)
    ensures var d := MakeDirs(specs, ops, works);
            ops <= d.ops && MountedBy(d.ops, works) == MountedBy(ops, works)
    decreases |specs|
  {
    if specs != [] {
      var s := specs[0];
      var made := ops + [MakeDir(s.path, s.mode)];
      OneMore(ops, MakeDir(s.path, s.mode), works);
      if works(|ops|) {
        if s.uid == -1 && s.gid == -1 {
          DirsMountNothing(specs[1..], made, works);
        } else {
          OneMore(made, Chown(s.path, s.uid, s.gid), works);
          DirsMountNothing(specs[1..], made + [Chown(s.path, s.uid, s.gid)], works);
        }
      }
    }
  }

  // The type that is mounted, without its prefixes.
  function Bare(t: string): string {
    var f := if HasPrefix(t, FORMAT) then t[|FORMAT|..] else t;
    if HasPrefix(f, MAKE) then f[|MAKE|..] else f
  }

  lemma StageMounts(m: Spec, i: nat, n: nat, rootfs: string, mdir: string,
                    active: seq<Active>, ops: seq<Op>, works: nat -> bool)
    ensures var s := MountOne(m, i, n, rootfs, mdir, active, ops, works);
            && ops <= s.ops
            && (s.mounted.None? ==> MountedBy(s.ops, works) == MountedBy(ops, works))
            && (s.mounted.Some? ==> s.mounted.value.fstype == Bare(m.fstype))
            && (s.mounted.Some? ==> MountedBy(s.ops, works) == MountedBy(ops, works) + {PointOf(i, n, rootfs, mdir)})
  {
    OneMore(ops, MakeDir(Target(mdir, i), 0x1E8), works);
    var made := if i + 1 < n then Try(ops, MakeDir(Target(mdir, i), 0x1E8), works) else Done(ops, true);
    var p := Prepare(m, active, mdir);
    if made.ok && p.Some? {
      DirsMountNothing(p.value.mkdirs, made.ops, works);
      var dirs := MakeDirs(p.value.mkdirs, made.ops, works);
      OneMore(dirs.ops, DoMount(p.value.spec, PointOf(i, n, rootfs, mdir)), works);
    }
  }

  // ---------------------------------------------------------------- clean-up

  ghost predicate UnmountsWork(ops: seq<Op>, from: nat, works: nat -> bool) {
    forall n :: from <= n < |ops| && ops[n].Unmount? ==> works(n)
  }

  // The points that clean-up unmounts.
  function Cleaned(active: seq<Active>): (r: set<string>)
    ensures forall a :: a in active && a.spec.fstype != "mkdir" ==> a.mountPoint in r
  {
    if active == [] then {}
    else
      var last := active[|active| - 1];
      assert active == active[..|active| - 1] + [last];
      (if last.spec.fstype == "mkdir" then {} else {last.mountPoint}) + Cleaned(active[..|active| - 1])
  }

  lemma {:induction false} CleanupUnmounts(active: seq<Active>, ops: seq<Op>, works: nat -> bool)
    requires UnmountsWork(ops + Unmounts(active), |ops|, works)
    ensures MountedBy(ops + Unmounts(active), works) == MountedBy(ops, works) - Cleaned(active)
    decreases |active|
  {
    if active == [] {
      assert ops + [] == ops;
    } else {
      var last := active[|active| - 1];
      var before := active[..|active| - 1];
      if last.spec.fstype == "mkdir" {
        assert Unmounts(active) == Unmounts(before);
        CleanupUnmounts(before, ops, works);
      } else {
        var next := ops + [Unmount(last.mountPoint)];
        assert next + Unmounts(before) == ops + Unmounts(active);
        assert (ops + Unmounts(active))[|ops|] == Unmount(last.mountPoint);
        CleanupUnmounts(before, next, works);
        OneMore(ops, Unmount(last.mountPoint), works);
      }
    }
  }

  // ---------------------------------------------------------------- whole runs

  function Points(active: seq<Active>): set<string> { set a | a in active :: a.mountPoint }

  // The first mounts are active at their points, and nothing else is mounted.
  ghost predicate InOrder(mounts: seq<Spec>, rootfs: string, mdir: string, active: seq<Active>) {
    && |active| <= |mounts|
    && (forall j :: 0 <= j < |active| ==> active[j].mountPoint == PointOf(j, |mounts|, rootfs, mdir))
    && (forall j :: 0 <= j < |active| ==> active[j].spec.fstype == Bare(mounts[j].fstype))
  }

  lemma OrderGrows(mounts: seq<Spec>, rootfs: string, mdir: string, active: seq<Active>, a: Active)
    requires InOrder(mounts, rootfs, mdir, active) && |active| < |mounts|
    requires a.mountPoint == PointOf(|active|, |mounts|, rootfs, mdir)
    requires a.spec.fstype == Bare(mounts[|active|].fstype)
    ensures InOrder(mounts, rootfs, mdir, active + [a])
  {
    var next := active + [a];
    forall j | 0 <= j < |next|
      ensures next[j].mountPoint == PointOf(j, |mounts|, rootfs, mdir) && next[j].spec.fstype == Bare(mounts[j].fstype)
    {
      assert next[j] == if j < |active| then active[j] else a;
    }
  }

  // Where a failed run may leave something mounted: the components of type "mkdir", which clean-up skips.
  ghost predicate Skipped(mounts: seq<Spec>, mdir: string, p: string) {
    exists j :: 0 <= j < |mounts| - 1 && Bare(mounts[j].fstype) == "mkdir" && p == Target(mdir, j)
  }

  // Either every component is mounted at its point, or, once every unmount worked, none is but the skipped ones.
  ghost predicate AllOrNone(mounts: seq<Spec>, rootfs: string, mdir: string, o: Outcome, works: nat -> bool) {
    if o.Mounted? then
      && |o.active| == |mounts|
      && InOrder(mounts, rootfs, mdir, o.active)
      && MountedBy(o.ops, works) == Points(o.active)
    else
      UnmountsWork(o.ops, 0, works) ==> forall p :: p in MountedBy(o.ops, works) ==> Skipped(mounts, mdir, p)
  }

  lemma FailedStage(mounts: seq<Spec>, rootfs: string, mdir: string,
                    active: seq<Active>, ops: seq<Op>, works: nat -> bool)
    requires InOrder(mounts, rootfs, mdir, active) && |active| < |mounts| && MountedBy(ops, works) == Points(active)
    requires UnmountsWork(ops + Unmounts(active), |ops|, works)
    ensures forall p :: p in MountedBy(ops + Unmounts(active), works) ==> Skipped(mounts, mdir, p)
  {
    CleanupUnmounts(active, ops, works);
    forall p | p in MountedBy(ops + Unmounts(active), works) ensures Skipped(mounts, mdir, p) {
      var a :| a in active && a.mountPoint == p;
      var j :| 0 <= j < |active| && active[j] == a;
      assert a.spec.fstype == "mkdir" && Bare(mounts[j].fstype) == "mkdir";
    }
  }

  lemma GrowPoints(active: seq<Active>, a: Active)
    ensures Points(active + [a]) == Points(active) + {a.mountPoint}
  {
    assert forall x :: x in active + [a] <==> x in active || x == a;
    assert a in active + [a];
    forall p | p in Points(active) ensures p in Points(active + [a]) {
      var x :| x in active && x.mountPoint == p;
      assert x in active + [a];
    }
  }

  // What one stage, successful or not, makes of an orderly list of active mounts.
  lemma NextStage(mounts: seq<Spec>, i: nat, rootfs: string, mdir: string,
                  active: seq<Active>, s: Stage, works: nat -> bool)
    requires i < |mounts| && |active| == i && InOrder(mounts, rootfs, mdir, active)
    requires s.mounted.None? ==> MountedBy(s.ops, works) == Points(active)
    requires s.mounted.Some? ==> s.mounted.value.fstype == Bare(mounts[i].fstype)
    requires s.mounted.Some? ==> MountedBy(s.ops, works) == Points(active) + {PointOf(i, |mounts|, rootfs, mdir)}
    ensures s.mounted.None? ==> AllOrNone(mounts, rootfs, mdir, Failed(s.ops + Unmounts(active)), works)
    ensures s.mounted.Some? ==>
      var next := active + [Active(s.mounted.value, PointOf(i, |mounts|, rootfs, mdir))];
      InOrder(mounts, rootfs, mdir, next) && MountedBy(s.ops, works) == Points(next)
  {
    if s.mounted.Some? {
      var a := Active(s.mounted.value, PointOf(i, |mounts|, rootfs, mdir));
      GrowPoints(active, a);
      OrderGrows(mounts, rootfs, mdir, active, a);
    } else if UnmountsWork(s.ops + Unmounts(active), 0, works) {
      FailedStage(mounts, rootfs, mdir, active, s.ops, works);
    }
  }

  lemma {:induction false} RunMounts(mounts: seq<Spec>, i: nat, rootfs: string, mdir: string,
                                     active: seq<Active>, ops: seq<Op>, works: nat -> bool)
    requires i <= |mounts| && |active| == i
    requires InOrder(mounts, rootfs, mdir, active) && MountedBy(ops, works) == Points(active)
    ensures AllOrNone(mounts, rootfs, mdir, MountFrom(mounts, i, rootfs, mdir, active, ops, works), works)
    decreases |mounts| - i
  {
    if i < |mounts| {
      StageMounts(mounts[i], i, |mounts|, rootfs, mdir, active, ops, works);
      var s := MountOne(mounts[i], i, |mounts|, rootfs, mdir, active, ops, works);
      NextStage(mounts, i, rootfs, mdir, active, s, works);
      if s.mounted.Some? {
        RunMounts(mounts, i + 1, rootfs, mdir,
                  active + [Active(s.mounted.value, PointOf(i, |mounts|, rootfs, mdir))], s.ops, works);
      }
    }
  }

  // Mounting is all or nothing, whatever operation fails and wherever.
  lemma AllOrNothing(mounts: seq<Spec>, rootfs: string, mdir: string, works: nat -> bool)
    ensures AllOrNone(mounts, rootfs, mdir, MountAll(mounts, rootfs, mdir, works), works)
  {
    RunMounts(mounts, 0, rootfs, mdir, [], [], works);
  }

  lemma {:induction false} NewestFirst(active: seq<Active>, k: nat)
    requires k < |active| && forall a :: a in active ==> a.spec.fstype != "mkdir"
    ensures |Unmounts(active)| == |active| && Unmounts(active)[k] == Unmount(active[|active| - 1 - k].mountPoint)
  {
    var front := active[..|active| - 1];
    assert Unmounts(active) == [Unmount(active[|active| - 1].mountPoint)] + Unmounts(front);
    if |active| > 1 { NewestFirst(front, if k > 0 then k - 1 else 0); }
  }

  // The clean-up function of a successful run unmounts every component.
  lemma CleanupUndoesAll(mounts: seq<Spec>, rootfs: string, mdir: string, works: nat -> bool)
    requires forall i :: 0 <= i < |mounts| ==> Bare(mounts[i].fstype) != "mkdir"
    ensures var o := MountAll(mounts, rootfs, mdir, works);
            o.Mounted? && UnmountsWork(o.ops + Unmounts(o.active), |o.ops|, works) ==>
              MountedBy(o.ops + Unmounts(o.active), works) == {}
  {
    AllOrNothing(mounts, rootfs, mdir, works);
    var o := MountAll(mounts, rootfs, mdir, works);
    if o.Mounted? && UnmountsWork(o.ops + Unmounts(o.active), |o.ops|, works) {
      CleanupUnmounts(o.active, o.ops, works);
      forall a | a in o.active ensures a.spec.fstype != "mkdir" {
        var j :| 0 <= j < |o.active| && o.active[j] == a;
        assert o.active[j].spec.fstype == Bare(mounts[j].fstype);
      }
    }
  }

  // ---------------------------------------------------------------- runs whose preparation cannot fail

  function DirOps(specs: seq<Mkdir>): seq<Op> {
    if specs == [] then []
    else
      var s := specs[0];
      [MakeDir(s.path, s.mode)] + (if s.uid == -1 && s.gid == -1 then [] else [Chown(s.path, s.uid, s.gid)]) +
      DirOps(specs[1..])
  }

  lemma {:induction false} DirsDone(specs: seq<Mkdir>, ops: seq<Op>, works: nat -> bool)
    ensures var d := MakeDirs(specs, ops, works);
            && (d.ok ==> d.ops == ops + DirOps(specs))
            && (!d.ok ==> |d.ops| > |ops| && !works(|d.ops| - 1))
    decreases |specs|
  {
    if specs != [] {
      var s := specs[0];
      var made := ops + [MakeDir(s.path, s.mode)];
      if works(|ops|) {
        if s.uid == -1 && s.gid == -1 {
          DirsDone(specs[1..], made, works);
        } else {
          DirsDone(specs[1..], made + [Chown(s.path, s.uid, s.gid)], works);
        }
      }
    }
  }

  // The operations of one component that is mounted.
  function StageOps(a: Active, dirs: seq<Mkdir>, i: nat, n: nat, mdir: string): seq<Op> {
    (if i + 1 < n then [MakeDir(Target(mdir, i), 0x1E8)] else []) + DirOps(dirs) + [DoMount(a.spec, a.mountPoint)]
  }

  lemma StageDone(m: Spec, i: nat, n: nat, rootfs: string, mdir: string, active: seq<Active>,
                  ops: seq<Op>, works: nat -> bool, p: Prepared)
    requires Prepare(m, active, mdir) == Some(p)
    ensures var s := MountOne(m, i, n, rootfs, mdir, active, ops, works);
            var a := Active(p.spec, PointOf(i, n, rootfs, mdir));
            && (s.mounted.Some? ==> s.mounted.value == p.spec && s.ops == ops + StageOps(a, p.mkdirs, i, n, mdir))
            && (s.mounted.None? ==> |s.ops| > |ops| && !works(|s.ops| - 1))
  {
    var made := if i + 1 < n then Try(ops, MakeDir(Target(mdir, i), 0x1E8), works) else Done(ops, true);
    DirsDone(p.mkdirs, made.ops, works);
    var head := if i + 1 < n then [MakeDir(Target(mdir, i), 0x1E8)] else [];
    assert made.ops == ops + head;
    assert ops + head + DirOps(p.mkdirs) + [DoMount(p.spec, PointOf(i, n, rootfs, mdir))] ==
           ops + (head + DirOps(p.mkdirs) + [DoMount(p.spec, PointOf(i, n, rootfs, mdir))]);
  }

  function OpsFrom(all: seq<Active>, dirs: seq<seq<Mkdir>>, i: nat, mdir: string): seq<Op>
    requires |all| == |dirs| && i <= |all|
    decreases |all| - i
  {
    if i == |all| then [] else StageOps(all[i], dirs[i], i, |all|, mdir) + OpsFrom(all, dirs, i + 1, mdir)
  }

  lemma OpsSplit(all: seq<Active>, dirs: seq<seq<Mkdir>>, i: nat, mdir: string, ops: seq<Op>)
    requires |all| == |dirs| && i < |all|
    ensures ops + StageOps(all[i], dirs[i], i, |all|, mdir) + OpsFrom(all, dirs, i + 1, mdir) ==
            ops + OpsFrom(all, dirs, i, mdir)
  {
  }

  // Every component is prepared as the given active mount, once those before it are active.
  ghost predicate PreparedAs(mounts: seq<Spec>, all: seq<Active>, dirs: seq<seq<Mkdir>>, rootfs: string, mdir: string) {
    && |mounts| == |all| == |dirs|
    && (forall j :: 0 <= j < |all| ==> all[j].mountPoint == PointOf(j, |all|, rootfs, mdir))
    && (forall j :: 0 <= j < |all| ==> Prepare(mounts[j], all[..j], mdir) == Some(Prepared(all[j].spec, dirs[j])))
  }

  lemma PreparedStage(mounts: seq<Spec>, i: nat, all: seq<Active>, dirs: seq<seq<Mkdir>>,
                      rootfs: string, mdir: string, ops: seq<Op>, works: nat -> bool)
    requires PreparedAs(mounts, all, dirs, rootfs, mdir) && i < |mounts|
    ensures var s := MountOne(mounts[i], i, |mounts|, rootfs, mdir, all[..i], ops, works);
            && (s.mounted.Some? ==> s.ops == ops + StageOps(all[i], dirs[i], i, |all|, mdir))
            && (s.mounted.Some? ==>
                  all[..i] + [Active(s.mounted.value, PointOf(i, |mounts|, rootfs, mdir))] == all[..i + 1])
            && (s.mounted.None? ==> |s.ops| > |ops| && !works(|s.ops| - 1))
  {
    StageDone(mounts[i], i, |mounts|, rootfs, mdir, all[..i], ops, works, Prepared(all[i].spec, dirs[i]));
  }

  // Then the run either mounts exactly those, or it fails because an operation failed.
  lemma {:induction false} PreparedRun(mounts: seq<Spec>, i: nat, all: seq<Active>, dirs: seq<seq<Mkdir>>,
                                       rootfs: string, mdir: string, ops: seq<Op>, works: nat -> bool)
    requires PreparedAs(mounts, all, dirs, rootfs, mdir) && i <= |mounts|
    ensures var o := MountFrom(mounts, i, rootfs, mdir, all[..i], ops, works);
            && (o.Mounted? ==> o.active == all && o.ops == ops + OpsFrom(all, dirs, i, mdir))
            && (o.Failed? ==> exists n :: 0 <= n < |o.ops| && !works(n))
    decreases |mounts| - i
  {
    if i == |mounts| {
      assert all[..i] == all && ops + [] == ops;
    } else {
      PreparedStage(mounts, i, all, dirs, rootfs, mdir, ops, works);
      var s := MountOne(mounts[i], i, |mounts|, rootfs, mdir, all[..i], ops, works);
      if s.mounted.Some? {
        PreparedRun(mounts, i + 1, all, dirs, rootfs, mdir, s.ops, works);
        OpsSplit(all, dirs, i, mdir, ops);
      }
    }
  }

  // ---------------------------------------------------------------- mkdir options

  lemma SplitNFirst(p: string, c: char, rest: string, n: nat)
    requires c !in p && n > 1
    ensures SplitN(p + [c] + rest, c, n) == [p] + SplitN(rest, c, n - 1)
  {
    var whole := p + [c] + rest;
    IndexAt(p, c, rest);
    assert whole[..|p|] == p && whole[|p| + 1..] == rest;
  }

  lemma {:induction false} SplitNOfJoin(parts: seq<string>, c: char)
    requires parts != [] && forall i :: 0 <= i < |parts| - 1 ==> c !in parts[i]
    ensures SplitN(Join(parts, [c]), c, |parts|) == parts
  {
    if |parts| > 1 {
      SplitNFirst(parts[0], c, Join(parts[1..], [c]), |parts|);
      SplitNOfJoin(parts[1..], c);
      assert parts == [parts[0]] + parts[1..];
    }
  }

  lemma NoColons(n: nat)
    ensures ':' !in Itoa(n)
  {
    assert forall c :: c in Itoa(n) ==> IsDigit(c);
  }

  // %o
  function PrintOctal(n: nat): (s: string)
    ensures s != "" && forall i :: 0 <= i < |s| ==> '0' <= s[i] <= '7'
  {
    if n < 8 then [Digit(n)] else PrintOctal(n / 8) + [Digit(n % 8)]
  }

  lemma {:induction false} OctalOfPrint(n: nat)
    ensures Octal(PrintOctal(n)) == n
  {
    if n < 8 {
      assert [Digit(n)][..0] == "" && DigitValue(Digit(n)) == n;
    } else {
      OctalOfPrint(n / 8);
      var s := PrintOctal(n);
      assert s[..|s| - 1] == PrintOctal(n / 8) && DigitValue(Digit(n % 8)) == n % 8;
    }
  }

  // A printed mode is read back exactly when it has 32 bits at most.
  lemma ModeRoundTrip(n: nat)
    ensures ParseMode(PrintOctal(n)) == if n < 0x1_0000_0000 then Some(n) else None
  {
    OctalOfPrint(n);
  }

  // The full form of a mkdir option, path:mode:uid:gid, is read back as it was written, if the text of the
  // base directory is a prefix of the path, and refused if it is not.
  lemma MkdirRoundTrip(path: string, mode: string, uid: nat, gid: nat, base: string)
    requires ':' !in path && ':' !in mode && ParseMode(mode).Some? && uid <= MAX_INT && gid <= MAX_INT
    ensures ParseMkdir(MKDIR_PATH + Join([path, mode, Itoa(uid), Itoa(gid)], ":"), base) ==
            if HasPrefix(path, base) then Some(Mkdir(path, ParseMode(mode).value, uid, gid)) else None
  {
    var parts := [path, mode, Itoa(uid), Itoa(gid)];
    NoColons(uid);
    SplitNOfJoin(parts, ':');
    AtoiOfItoa(uid);
    AtoiOfItoa(gid);
    ParseParts(Join(parts, ":"), parts, base);
  }

  // The short forms: without an owner the directory keeps the one it gets, and without a mode it gets 0755.
  lemma MkdirPathOnly(path: string, base: string)
    requires ':' !in path && HasPrefix(path, base)
    ensures ParseMode("755").Some?
    ensures ParseMkdir(MKDIR_PATH + path, base) == Some(Mkdir(path, ParseMode("755").value, -1, -1))
  {
    ModeIs755();
    SplitNOne(path, ':', 4);
    ShortParts(path, [path], base);
  }

  lemma MkdirWithMode(path: string, mode: string, base: string)
    requires ':' !in path && ':' !in mode && ParseMode(mode).Some? && HasPrefix(path, base)
    ensures ParseMkdir(MKDIR_PATH + (path + [':'] + mode), base) == Some(Mkdir(path, ParseMode(mode).value, -1, -1))
  {
    SplitTwo(path, mode, ':', 4);
    ShortParts(path + [':'] + mode, [path, mode], base);
  }

  lemma MkdirWithUser(path: string, mode: string, user: string, uid: int, base: string)
    requires ':' !in path && ':' !in mode && ':' !in user && HasPrefix(path, base)
    requires ParseMode(mode).Some? && Atoi(user) == Some(uid)
    ensures ParseMkdir(MKDIR_PATH + (path + [':'] + (mode + [':'] + user)), base) ==
            Some(Mkdir(path, ParseMode(mode).value, uid, -1))
  {
    SplitThree(path, mode, user, ':', 4);
    ThreeParts(path + [':'] + (mode + [':'] + user), path, mode, user, base);
  }

  lemma ModeIs755()
    ensures ParseMode("755") == Some(0x1ED)
  {
    assert "755"[..2] == "75" && "75"[..1] == "7" && "7"[..0] == "";
    assert Octal("7") == 7 && Octal("75") == 61 && Octal("755") == 493;
  }

  lemma SplitNOne(s: string, c: char, n: nat)
    requires c !in s && n > 0
    ensures SplitN(s, c, n) == [s]
  {
    assert Index(s, c) == |s|;
  }

  lemma SplitTwo(a: string, b: string, c: char, n: nat)
    requires c !in a && c !in b && n > 1
    ensures SplitN(a + [c] + b, c, n) == [a, b]
  {
    SplitNFirst(a, c, b, n);
    SplitNOne(b, c, n - 1);
  }

  lemma SplitThree(a: string, b: string, d: string, c: char, n: nat)
    requires c !in a && c !in b && c !in d && n > 2
    ensures SplitN(a + [c] + (b + [c] + d), c, n) == [a, b, d]
  {
    var rest := b + [c] + d;
    SplitTwo(b, d, c, n - 1);
    SplitNFirst(a, c, rest, n);
  }

  lemma ThreeParts(text: string, path: string, mode: string, user: string, base: string)
    requires SplitN(text, ':', 4) == [path, mode, user] && HasPrefix(path, base)
    requires ParseMode(mode).Some? && Atoi(user).Some?
    ensures ParseMkdir(MKDIR_PATH + text, base) == Some(Mkdir(path, ParseMode(mode).value, Atoi(user).value, -1))
  {
    ShortParts(text, [path, mode, user], base);
  }

  lemma ShortParts(text: string, parts: seq<string>, base: string)
    requires SplitN(text, ':', 4) == parts && 0 < |parts| < 4 && HasPrefix(parts[0], base)
    requires |parts| >= 2 ==> ParseMode(parts[1]).Some?
    requires |parts| == 3 ==> Atoi(parts[2]).Some?
    ensures ParseMkdir(MKDIR_PATH + text, base) ==
            Some(Mkdir(parts[0], if |parts| >= 2 then ParseMode(parts[1]).value else 0x1ED,
                       if |parts| == 3 then Atoi(parts[2]).value else -1, -1))
  {
    assert (MKDIR_PATH + text)[|MKDIR_PATH|..] == text;
  }

  lemma ParseParts(text: string, parts: seq<string>, base: string)
    requires SplitN(text, ':', 4) == parts && |parts| == 4
    requires Atoi(parts[3]).Some? && Atoi(parts[2]).Some? && ParseMode(parts[1]).Some?
    ensures ParseMkdir(MKDIR_PATH + text, base) ==
            if HasPrefix(parts[0], base) then
              Some(Mkdir(parts[0], ParseMode(parts[1]).value, Atoi(parts[2]).value, Atoi(parts[3]).value))
            else None
  {
    assert (MKDIR_PATH + text)[|MKDIR_PATH|..] == text;
  }
}
