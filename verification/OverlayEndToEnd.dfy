// EROFS layers and an ext4 disk, from the host's request to the guest's overlay.
module OverlayEndToEnd {
  import opened Base
  import opened Text
  import opened HostMounts
  import opened HostMountLaws
  import opened GuestMounts
  import opened GuestMountLaws
  import opened OverlayTemplates
  import T = Templates
  import L = TemplateLemmas

  // ---------------------------------------------------------------- the host's side

  ghost predicate Layers(ms: seq<Spec>) { forall i :: 0 <= i < |ms| ==> IsErofs(ms[i].fstype) }

  lemma {:induction false} AllDevices(ms: seq<Spec>)
    requires forall i :: 0 <= i < |ms| ==> UsesDisk(ms[i].fstype)
    ensures Devices(ms) == ms
  {
    if ms != [] { AllDevices(ms[1..]); }
  }

  lemma {:induction false} AllGuestDevices(id: string, letter: nat, ms: seq<Spec>, files: set<string>)
    requires letter < 256 && forall i :: 0 <= i < |ms| ==> UsesDisk(ms[i].fstype)
    ensures TransformAll(id, letter, ms, files).Some?
    ensures var p := TransformAll(id, letter, ms, files).value;
            |p.mounts| == |ms| && forall i :: 0 <= i < |ms| ==> p.mounts[i].fstype == GuestType(ms[i].fstype)
    decreases |ms|
  {
    if ms != [] {
      OneLettered(id, letter, ms[0], files);
      AllGuestDevices(id, LetterAfter(letter, ms[0]), ms[1..], files);
    }
  }

  lemma {:induction false} CountAll(ms: seq<Spec>, t: string)
    requires forall i :: 0 <= i < |ms| ==> ms[i].fstype == t
    ensures Count(ms, t) == |ms|
  {
    if ms != [] { CountAll(ms[1..], t); }
  }

  lemma {:induction false} CountAppend(a: seq<Spec>, b: seq<Spec>, t: string)
    ensures Count(a + b, t) == Count(a, t) + Count(b, t)
  {
    if a == [] {
      assert a + b == b;
    } else {
      assert (a + b)[1..] == a[1..] + b;
      CountAppend(a[1..], b, t);
    }
  }

  lemma ShortTypes(t: string)
    requires |t| < 7
    ensures !Contains(t, "overlay")
  {
  }

  // The overlay is generated behind n EROFS mounts and one ext4 mount.
  lemma Generated(ms: seq<Spec>, n: nat)
    requires n > 0 && |ms| == n + 1 && ms[n].fstype == "ext4" && forall i :: 0 <= i < n ==> ms[i].fstype == "erofs"
    ensures GenerateOverlay(ms) == ms + [Spec("format/mkdir/overlay", "overlay", "", OverlayOptions(n, n))]
  {
    CountAll(ms[..n], "erofs");
    assert ms == ms[..n] + [ms[n]];
    CountAppend(ms[..n], [ms[n]], "erofs");
    assert Count([ms[n]], "erofs") == 0;
    forall i | 0 <= i < |ms| ensures !Contains(ms[i].fstype, "overlay") {
      ShortTypes(ms[i].fstype);
    }
  }

  // ---------------------------------------------------------------- the guest's side

  function Upper(mdir: string, n: nat): string { Target(mdir, n) + "/upper" }

  function Work(mdir: string, n: nat): string { Target(mdir, n) + "/work" }

  function Lower(mdir: string, n: nat): (r: seq<string>)
    ensures |r| == n && forall i :: 0 <= i < n ==> r[i] == Target(mdir, i)
  {
    seq(n, i requires 0 <= i < n => Target(mdir, i))
  }

  // An option of an overlay over n layers. UpperDir, WorkDir: with the directories of the host.
  datatype Opt = LowerDirs | UpperDir(path: string) | WorkDir(path: string) | Other(text: string)

  // An option as sent to the guest, and as mounted there.
  function SentText(o: Opt, n: nat): string
    requires n > 0
  {
    match o
    case LowerDirs => "lowerdir=" + PrintOverlay(0, n - 1)
    case UpperDir(_) => "upperdir=" + (PrintMount(n) + "/upper")
    case WorkDir(_) => "workdir=" + (PrintMount(n) + "/work")
    case Other(text) => text
  }

  function MountedText(o: Opt, mdir: string, n: nat): string {
    match o
    case LowerDirs => "lowerdir=" + Join(Lower(mdir, n), ":")
    case UpperDir(_) => "upperdir=" + Upper(mdir, n)
    case WorkDir(_) => "workdir=" + Work(mdir, n)
    case Other(text) => text
  }

  function SentOptions(opts: seq<Opt>, n: nat): (r: seq<string>)
    requires n > 0
    ensures |r| == |opts| && forall i :: 0 <= i < |opts| ==> r[i] == SentText(opts[i], n)
  {
    seq(|opts|, i requires 0 <= i < |opts| => SentText(opts[i], n))
  }

  function MountedOptions(opts: seq<Opt>, mdir: string, n: nat): (r: seq<string>)
    ensures |r| == |opts| && forall i :: 0 <= i < |opts| ==> r[i] == MountedText(opts[i], mdir, n)
  {
    seq(|opts|, i requires 0 <= i < |opts| => MountedText(opts[i], mdir, n))
  }

  // The options of the generated overlay, and those that have its directories made.
  const GENERATED: seq<Opt> := [LowerDirs, UpperDir(""), WorkDir("")]

  function MkdirOptions(n: nat): seq<string> {
    [MKDIR_PATH + (PrintMount(n) + "/upper"), MKDIR_PATH + (PrintMount(n) + "/work")]
  }

  // Further options that the host and the guest pass on as they are.
  ghost predicate PassedOn(o: Opt) {
    o.Other? ==>
      && !T.HasBraces(o.text) && !HasPrefix(o.text, MKDIR)
      && !HasPrefix(o.text, "upperdir=") && !HasPrefix(o.text, "workdir=")
  }

  ghost predicate GoodDir(mdir: string) { L.Safe(mdir) && ':' !in mdir }

  // The first mounts are active at mdir/0, mdir/1, and so on.
  ghost predicate AtTargets(active: seq<Active>, mdir: string) {
    forall i :: 0 <= i < |active| ==> active[i].mountPoint == Target(mdir, i)
  }

  lemma TargetIsSafe(mdir: string, i: nat)
    requires GoodDir(mdir)
    ensures L.Safe(Target(mdir, i)) && ':' !in Target(mdir, i)
  {
    var d := Itoa(i);
    assert forall c :: c in d ==> IsDigit(c);
    assert '/' in mdir;
  }

  lemma FormatOne(pre: string, n: nat, post: string, active: seq<Active>, mdir: string)
    requires GoodDir(mdir) && AtTargets(active, mdir) && n < |active| && '{' !in pre && '{' !in post
    ensures T.Format(pre + (PrintMount(n) + post), View(active)) == Some(pre + (Target(mdir, n) + post))
  {
    TargetIsSafe(mdir, n);
    ExpandMount(pre, n, post, View(active));
  }

  lemma FormatLower(n: nat, active: seq<Active>, mdir: string)
    requires GoodDir(mdir) && AtTargets(active, mdir) && 0 < n <= |active|
    ensures T.Format("lowerdir=" + PrintOverlay(0, n - 1), View(active)) ==
            Some("lowerdir=" + Join(Lower(mdir, n), ":"))
  {
    forall k | 0 <= k <= n - 1 ensures L.Safe(View(active)[k].mountPoint) {
      TargetIsSafe(mdir, k);
    }
    ExpandOverlay("lowerdir=", 0, n - 1, View(active));
    assert T.MountPoints(0, n - 1, View(active)) == Lower(mdir, n);
  }

  lemma PrintedOptions(n: nat)
    requires n > 0
    ensures OverlayOptions(n, n) == SentOptions(GENERATED, n) + MkdirOptions(n)
  {
    assert Itoa(0) == "0";
    assert "lowerdir={{ overlay 0 " + Itoa(n - 1) + " }}" == "lowerdir=" + PrintOverlay(0, n - 1);
  }

  ghost predicate AllPassedOn(opts: seq<Opt>) { forall i :: 0 <= i < |opts| ==> PassedOn(opts[i]) }

  lemma {:induction false} FormatEach(options: seq<string>, view: seq<T.ActiveMount>, results: seq<string>)
    requires |options| == |results| && forall i :: 0 <= i < |options| ==> T.Format(options[i], view) == Some(results[i])
    ensures FormatAll(options, view) == Some(results)
  {
    if options != [] {
      FormatEach(options[1..], view, results[1..]);
      assert results == [results[0]] + results[1..];
    }
  }

  lemma FormatUpper(pre: string, n: nat, active: seq<Active>, mdir: string)
    requires GoodDir(mdir) && AtTargets(active, mdir) && n < |active| && '{' !in pre
    ensures T.Format(pre + (PrintMount(n) + "/upper"), View(active)) == Some(pre + Upper(mdir, n))
  {
    FormatOne(pre, n, "/upper", active, mdir);
  }

  lemma FormatWork(pre: string, n: nat, active: seq<Active>, mdir: string)
    requires GoodDir(mdir) && AtTargets(active, mdir) && n < |active| && '{' !in pre
    ensures T.Format(pre + (PrintMount(n) + "/work"), View(active)) == Some(pre + Work(mdir, n))
  {
    FormatOne(pre, n, "/work", active, mdir);
  }

  lemma NamesHaveNoBraces()
    ensures '{' !in "upperdir=" && '{' !in "workdir=" && '{' !in MKDIR_PATH
  {
  }

  lemma DirsExpand(n: nat, active: seq<Active>, mdir: string)
    requires GoodDir(mdir) && AtTargets(active, mdir) && n < |active|
    ensures T.Format("upperdir=" + (PrintMount(n) + "/upper"), View(active)) == Some("upperdir=" + Upper(mdir, n))
    ensures T.Format("workdir=" + (PrintMount(n) + "/work"), View(active)) == Some("workdir=" + Work(mdir, n))
    ensures T.Format(MKDIR_PATH + (PrintMount(n) + "/upper"), View(active)) == Some(MKDIR_PATH + Upper(mdir, n))
    ensures T.Format(MKDIR_PATH + (PrintMount(n) + "/work"), View(active)) == Some(MKDIR_PATH + Work(mdir, n))
  {
    NamesHaveNoBraces();
    FormatUpper("upperdir=", n, active, mdir);
    FormatWork("workdir=", n, active, mdir);
    FormatUpper(MKDIR_PATH, n, active, mdir);
    FormatWork(MKDIR_PATH, n, active, mdir);
  }

  lemma OptionExpands(o: Opt, n: nat, active: seq<Active>, mdir: string)
    requires GoodDir(mdir) && AtTargets(active, mdir) && 0 < n < |active| && PassedOn(o)
    ensures T.Format(SentText(o, n), View(active)) == Some(MountedText(o, mdir, n))
  {
    match o
    case LowerDirs => FormatLower(n, active, mdir);
    case UpperDir(_) => DirsExpand(n, active, mdir);
    case WorkDir(_) => DirsExpand(n, active, mdir);
    case Other(_) =>
  }

  // All options, expanded.
  function Expanded(opts: seq<Opt>, mdir: string, n: nat): seq<string> {
    MountedOptions(opts, mdir, n) + [MKDIR_PATH + Upper(mdir, n), MKDIR_PATH + Work(mdir, n)]
  }

  lemma OptionsExpand(opts: seq<Opt>, n: nat, active: seq<Active>, mdir: string)
    requires GoodDir(mdir) && AtTargets(active, mdir) && |active| == n + 1 && n > 0
    requires AllPassedOn(opts)
    ensures FormatAll(SentOptions(opts, n) + MkdirOptions(n), View(active)) == Some(Expanded(opts, mdir, n))
  {
    var sent, results := SentOptions(opts, n) + MkdirOptions(n), Expanded(opts, mdir, n);
    DirsExpand(n, active, mdir);
    forall i | 0 <= i < |sent| ensures T.Format(sent[i], View(active)) == Some(results[i]) {
      if i < |opts| {
        OptionExpands(opts[i], n, active, mdir);
      } else {
        assert i == |opts| || i == |opts| + 1;
      }
    }
    FormatEach(sent, View(active), results);
  }

  // ---------------------------------------------------------------- mkdir options

  lemma ParsePath(path: string, base: string)
    requires ':' !in path && HasPrefix(path, base)
    ensures ParseMkdir(MKDIR_PATH + path, base) == Some(Mkdir(path, 0x1ED, -1, -1))
  {
    assert (MKDIR_PATH + path)[|MKDIR_PATH|..] == path;
    assert Index(path, ':') == |path|;
    assert SplitN(path, ':', 4) == [path];
  }

  lemma ParsedDir(mdir: string, n: nat, dir: string)
    requires GoodDir(mdir) && ':' !in dir
    ensures ParseMkdir(MKDIR_PATH + (Target(mdir, n) + dir), mdir) == Some(Mkdir(Target(mdir, n) + dir, 0x1ED, -1, -1))
  {
    TargetIsSafe(mdir, n);
    assert Target(mdir, n) + dir == mdir + ("/" + Itoa(n) + dir);
    ParsePath(Target(mdir, n) + dir, mdir);
  }

  lemma NotMkdir(opt: string)
    requires opt != "" && opt[0] != 'X'
    ensures !HasPrefix(opt, MKDIR)
  {
  }

  lemma MkdirPrefix(path: string)
    ensures HasPrefix(MKDIR_PATH + path, MKDIR)
  {
    assert MKDIR_PATH == MKDIR + "path=";
    assert MKDIR_PATH + path == MKDIR + ("path=" + path);
  }

  lemma TwoMkdirs(a: string, b: string, base: string, da: Mkdir, db: Mkdir)
    requires HasPrefix(a, MKDIR) && HasPrefix(b, MKDIR)
    requires ParseMkdir(a, base) == Some(da) && ParseMkdir(b, base) == Some(db)
    ensures ProcessMkdirs([a, b], base) == Some(Mkdirs([], [da, db]))
  {
    assert [a, b][1..] == [b] && [b][1..] == [];
    assert ProcessMkdirs([], base) == Some(Mkdirs([], []));
    assert [db] + [] == [db] && [da] + [db] == [da, db];
    assert ProcessMkdirs([b], base) == AddOption(b, base, ProcessMkdirs([], base)) == Some(Mkdirs([], [db]));
  }

  lemma {:induction false} PlainOptionsStay(options: seq<string>, more: seq<string>, base: string, k: Mkdirs)
    requires ProcessMkdirs(more, base) == Some(k) && forall i :: 0 <= i < |options| ==> !HasPrefix(options[i], MKDIR)
    ensures ProcessMkdirs(options + more, base) == Some(Mkdirs(options + k.remaining, k.specs))
  {
    if options == [] {
      assert options + more == more && options + k.remaining == k.remaining;
    } else {
      assert (options + more)[1..] == options[1..] + more;
      PlainOptionsStay(options[1..], more, base, k);
      assert [options[0]] + (options[1..] + k.remaining) == options + k.remaining;
    }
  }

  function Dirs(mdir: string, n: nat): seq<Mkdir> {
    [Mkdir(Upper(mdir, n), 0x1ED, -1, -1), Mkdir(Work(mdir, n), 0x1ED, -1, -1)]
  }

  lemma MountedIsNotMkdir(o: Opt, mdir: string, n: nat)
    requires PassedOn(o)
    ensures !HasPrefix(MountedText(o, mdir, n), MKDIR)
  {
    if !o.Other? { NotMkdir(MountedText(o, mdir, n)); }
  }

  // Both directories are accepted, and only the overlay's own options remain.
  lemma DirectoriesAccepted(opts: seq<Opt>, mdir: string, n: nat)
    requires GoodDir(mdir) && AllPassedOn(opts)
    ensures ProcessMkdirs(Expanded(opts, mdir, n), mdir) ==
            Some(Mkdirs(MountedOptions(opts, mdir, n), Dirs(mdir, n)))
  {
    ParsedDir(mdir, n, "/upper");
    ParsedDir(mdir, n, "/work");
    MkdirPrefix(Upper(mdir, n));
    MkdirPrefix(Work(mdir, n));
    var more := [MKDIR_PATH + Upper(mdir, n), MKDIR_PATH + Work(mdir, n)];
    TwoMkdirs(more[0], more[1], mdir, Dirs(mdir, n)[0], Dirs(mdir, n)[1]);
    var options := MountedOptions(opts, mdir, n);
    forall i | 0 <= i < |opts| ensures !HasPrefix(options[i], MKDIR) { MountedIsNotMkdir(opts[i], mdir, n); }
    PlainOptionsStay(options, more, mdir, Mkdirs([], Dirs(mdir, n)));
    assert options + [] == options;
  }

  // ---------------------------------------------------------------- host and guest together

  predicate PlainType(t: string) { t == "erofs" || t == "ext4" || t == "tmpfs" }

  lemma DevicePrepared(m: Spec, active: seq<Active>, mdir: string)
    requires PlainType(m.fstype)
    ensures Prepare(m, active, mdir) == Some(Prepared(m, []))
  {
  }

  // The overlay as sent to the guest, and as mounted there.
  function OverlaySpec(opts: seq<Opt>, n: nat, source: string, target: string): Spec
    requires n > 0
  {
    Spec("format/mkdir/overlay", source, target, SentOptions(opts, n) + MkdirOptions(n))
  }

  function MountedOverlay(opts: seq<Opt>, n: nat, source: string, target: string, mdir: string): Spec {
    Spec("overlay", source, target, MountedOptions(opts, mdir, n))
  }

  lemma PrefixesFall(m: Spec, active: seq<Active>, mdir: string, options: seq<string>, k: Mkdirs)
    requires m.fstype == "format/mkdir/overlay" && !T.HasBraces(m.source) && !T.HasBraces(m.target)
    requires FormatAll(m.options, View(active)) == Some(options) && ProcessMkdirs(options, mdir) == Some(k)
    ensures Prepare(m, active, mdir) == Some(Prepared(Spec("overlay", m.source, m.target, k.remaining), k.specs))
  {
    assert m.fstype[|FORMAT|..] == "mkdir/overlay" && "mkdir/overlay"[|MAKE|..] == "overlay";
    assert HasPrefix(m.fstype, FORMAT) && HasPrefix("mkdir/overlay", MAKE);
    assert Formatted(m, active) == Some(Spec("mkdir/overlay", m.source, m.target, options));
  }

  lemma OverlayPrepared(opts: seq<Opt>, n: nat, source: string, target: string, active: seq<Active>, mdir: string)
    requires GoodDir(mdir) && AtTargets(active, mdir) && |active| == n + 1 && n > 0
    requires !T.HasBraces(source) && !T.HasBraces(target) && AllPassedOn(opts)
    ensures Prepare(OverlaySpec(opts, n, source, target), active, mdir) ==
            Some(Prepared(MountedOverlay(opts, n, source, target, mdir), Dirs(mdir, n)))
  {
    OptionsExpand(opts, n, active, mdir);
    DirectoriesAccepted(opts, mdir, n);
    PrefixesFall(OverlaySpec(opts, n, source, target), active, mdir, Expanded(opts, mdir, n),
                 Mkdirs(MountedOptions(opts, mdir, n), Dirs(mdir, n)));
  }

  // The guest's active mounts: the devices in order, and the overlay on top at rootfs.
  function Final(devices: seq<Spec>, top: Spec, rootfs: string, mdir: string): (r: seq<Active>)
    ensures |r| == |devices| + 1
    ensures forall i :: 0 <= i < |devices| ==> r[i] == Active(devices[i], Target(mdir, i))
    ensures r[|devices|] == Active(top, rootfs)
  {
    seq(|devices|, i requires 0 <= i < |devices| => Active(devices[i], Target(mdir, i))) + [Active(top, rootfs)]
  }

  function FinalDirs(n: nat, mdir: string): (r: seq<seq<Mkdir>>)
    ensures |r| == n + 2 && r[n + 1] == Dirs(mdir, n) && forall i :: 0 <= i <= n ==> r[i] == []
  {
    seq(n + 1, i requires 0 <= i <= n => []) + [Dirs(mdir, n)]
  }

  lemma GuestPrepared(devices: seq<Spec>, opts: seq<Opt>, source: string, target: string, rootfs: string, mdir: string)
    requires GoodDir(mdir) && |devices| > 1 && !T.HasBraces(source) && !T.HasBraces(target)
    requires forall i :: 0 <= i < |devices| ==> PlainType(devices[i].fstype)
    requires AllPassedOn(opts)
    ensures var n := |devices| - 1;
            PreparedAs(devices + [OverlaySpec(opts, n, source, target)],
                       Final(devices, MountedOverlay(opts, n, source, target, mdir), rootfs, mdir), FinalDirs(n, mdir),
                       rootfs, mdir)
  {
    var n := |devices| - 1;
    var mounts, dirs := devices + [OverlaySpec(opts, n, source, target)], FinalDirs(n, mdir);
    var all := Final(devices, MountedOverlay(opts, n, source, target, mdir), rootfs, mdir);
    forall j | 0 <= j < |all| ensures Prepare(mounts[j], all[..j], mdir) == Some(Prepared(all[j].spec, dirs[j])) {
      if j <= n {
        DevicePrepared(devices[j], all[..j], mdir);
      } else {
        OverlayPrepared(opts, n, source, target, all[..j], mdir);
      }
    }
  }

  // What the guest does for the overlay, last of all.
  function LastOps(n: nat, top: Spec, rootfs: string, mdir: string): seq<Op> {
    [MakeDir(Upper(mdir, n), 0x1ED), MakeDir(Work(mdir, n), 0x1ED), DoMount(top, rootfs)]
  }

  lemma {:induction false} EndOfOps(all: seq<Active>, dirs: seq<seq<Mkdir>>, i: nat, mdir: string)
    requires |all| == |dirs| && i < |all|
    ensures var last := StageOps(all[|all| - 1], dirs[|all| - 1], |all| - 1, |all|, mdir);
            var ops := OpsFrom(all, dirs, i, mdir);
            |last| <= |ops| && ops[|ops| - |last|..] == last
    decreases |all| - i
  {
    if i + 1 < |all| { EndOfOps(all, dirs, i + 1, mdir); } else { assert OpsFrom(all, dirs, i + 1, mdir) == []; }
  }

  lemma LastStage(n: nat, top: Spec, rootfs: string, mdir: string)
    ensures StageOps(Active(top, rootfs), Dirs(mdir, n), n + 1, n + 2, mdir) == LastOps(n, top, rootfs, mdir)
  {
    var dirs := Dirs(mdir, n);
    assert dirs[1..][1..] == [];
    assert DirOps(dirs[1..]) == [MakeDir(Work(mdir, n), 0x1ED)];
    assert DirOps(dirs) == [MakeDir(Upper(mdir, n), 0x1ED), MakeDir(Work(mdir, n), 0x1ED)];
  }

  ghost predicate EndsIn(ops: seq<Op>, last: seq<Op>) { |last| <= |ops| && ops[|ops| - |last|..] == last }

  // What comes of mounting the devices and the overlay: all of it is mounted where the templates say,
  // after the two directories were made, or some operation of the guest failed.
  ghost predicate Assembled(o: Outcome, devices: seq<Spec>, top: Spec, rootfs: string, mdir: string, works: nat -> bool)
    requires devices != []
  {
    if o.Mounted? then
      o.active == Final(devices, top, rootfs, mdir) && EndsIn(o.ops, LastOps(|devices| - 1, top, rootfs, mdir))
    else
      exists n :: 0 <= n < |o.ops| && !works(n)
  }

  lemma GuestOverlay(devices: seq<Spec>, opts: seq<Opt>, source: string, target: string,
                     rootfs: string, mdir: string, works: nat -> bool)
    requires GoodDir(mdir) && |devices| > 1 && !T.HasBraces(source) && !T.HasBraces(target)
    requires forall i :: 0 <= i < |devices| ==> PlainType(devices[i].fstype)
    requires AllPassedOn(opts)
    ensures var n := |devices| - 1;
            Assembled(MountAll(devices + [OverlaySpec(opts, n, source, target)], rootfs, mdir, works),
                      devices, MountedOverlay(opts, n, source, target, mdir), rootfs, mdir, works)
  {
    var n := |devices| - 1;
    var top := MountedOverlay(opts, n, source, target, mdir);
    var all, dirs := Final(devices, top, rootfs, mdir), FinalDirs(n, mdir);
    GuestPrepared(devices, opts, source, target, rootfs, mdir);
    assert all[..0] == [];
    PreparedRun(devices + [OverlaySpec(opts, n, source, target)], 0, all, dirs, rootfs, mdir, [], works);
    assert [] + OpsFrom(all, dirs, 0, mdir) == OpsFrom(all, dirs, 0, mdir);
    EndOfOps(all, dirs, 0, mdir);
    LastStage(n, top, rootfs, mdir);
  }

  lemma HostDevices(id: string, layers: seq<Spec>, upper: Spec, files: set<string>) returns (all: Plan)
    requires 1 <= |layers| <= 9 && Layers(layers) && upper.fstype == "ext4"
    ensures var n, ms := |layers|, layers + [upper];
            && TransformAll(id, FIRST_LETTER, ms, files) == Some(all) && |all.mounts| == n + 1 == |all.disks|
            && all.mounts[n].fstype == "ext4" && (forall i :: 0 <= i < n ==> all.mounts[i].fstype == "erofs")
            && AllLettered(ms, all.mounts, all.disks, id, files)
  {
    var ms := layers + [upper];
    AllDevices(ms);
    AllGuestDevices(id, FIRST_LETTER, ms, files);
    all := TransformAll(id, FIRST_LETTER, ms, files).value;
    DisksInStep(id, FIRST_LETTER, ms, files);
    GuestTypes(layers, upper, all.mounts);
    LetteredInStep(id, ms, all, files);
  }

  lemma PlanWith(id: string, ms: seq<Spec>, files: set<string>, all: Plan, top: Spec)
    requires TransformAll(id, FIRST_LETTER, ms, files) == Some(all) && |all.disks| <= MAX_DISKS
    requires GenerateOverlay(all.mounts) == all.mounts + [top]
    ensures TransformMounts(id, ms, files) == Some(Plan(all.mounts + [top], all.disks))
  {
  }

  lemma HostPlan(id: string, layers: seq<Spec>, upper: Spec, files: set<string>)
    requires 1 <= |layers| <= 9 && Layers(layers) && upper.fstype == "ext4"
    ensures var n, ms := |layers|, layers + [upper];
            var p := TransformMounts(id, ms, files);
            && p.Some? && |p.value.mounts| == n + 2
            && p.value.mounts == p.value.mounts[..n + 1] + [OverlaySpec(GENERATED, n, "overlay", "")]
            && AllLettered(ms, p.value.mounts[..n + 1], p.value.disks, id, files)
  {
    var n := |layers|;
    var all := HostDevices(id, layers, upper, files);
    var top := OverlaySpec(GENERATED, n, "overlay", "");
    OverlayBehind(all.mounts, n);
    PlanWith(id, layers + [upper], files, all, top);
    assert (all.mounts + [top])[..n + 1] == all.mounts;
  }

  lemma LetteredInStep(id: string, ms: seq<Spec>, all: Plan, files: set<string>)
    requires |all.mounts| == |ms| && InStep(ms, FIRST_LETTER, Devices(all.mounts), all.disks, id, files) && |ms| <= 10
    requires forall i :: 0 <= i < |ms| ==> UsesDisk(all.mounts[i].fstype)
    ensures AllLettered(ms, all.mounts, all.disks, id, files)
  {
    AllDevices(all.mounts);
    InStepIsLettered(ms, all.mounts, all.disks, id, files);
  }

  lemma OverlayBehind(ms: seq<Spec>, n: nat)
    requires n > 0 && |ms| == n + 1 && ms[n].fstype == "ext4" && forall i :: 0 <= i < n ==> ms[i].fstype == "erofs"
    ensures GenerateOverlay(ms) == ms + [OverlaySpec(GENERATED, n, "overlay", "")]
    ensures |GenerateOverlay(ms)| == n + 2 && GenerateOverlay(ms)[..n + 1] == ms
  {
    Generated(ms, n);
    PrintedOptions(n);
  }

  lemma GuestTypes(layers: seq<Spec>, upper: Spec, guests: seq<Spec>)
    requires Layers(layers) && upper.fstype == "ext4" && |guests| == |layers| + 1
    requires forall i :: 0 <= i < |guests| ==> guests[i].fstype == GuestType((layers + [upper])[i].fstype)
    ensures guests[|layers|].fstype == "ext4" && forall i :: 0 <= i < |layers| ==> guests[i].fstype == "erofs"
  {
    assert (layers + [upper])[|layers|] == upper;
    assert forall i :: 0 <= i < |layers| ==> (layers + [upper])[i] == layers[i];
  }

  lemma DeviceTypes(ms: seq<Spec>, guests: seq<Spec>, disks: seq<Disk>, id: string, files: set<string>)
    requires AllLettered(ms, guests, disks, id, files)
    requires forall k :: 0 <= k < |ms| ==> IsErofs(ms[k].fstype) || ms[k].fstype == "ext4"
    ensures forall k :: 0 <= k < |ms| ==> PlainType(guests[k].fstype)
  {
  }

  lemma GeneratedIsPassedOn()
    ensures AllPassedOn(GENERATED) && !T.HasBraces("overlay")
  {
  }

  lemma DiskTypes(layers: seq<Spec>, upper: Spec)
    requires Layers(layers) && upper.fstype == "ext4"
    ensures var ms := layers + [upper];
            forall k :: 0 <= k < |ms| ==> IsErofs(ms[k].fstype) || ms[k].fstype == "ext4"
  {
  }

  lemma PlanIsAssembled(id: string, ms: seq<Spec>, p: Plan, opts: seq<Opt>, source: string, files: set<string>,
                        rootfs: string, mdir: string, works: nat -> bool)
    requires |ms| > 1 && |p.mounts| == |ms| + 1 && AllLettered(ms, p.mounts[..|ms|], p.disks, id, files)
    requires forall k :: 0 <= k < |ms| ==> IsErofs(ms[k].fstype) || ms[k].fstype == "ext4"
    requires p.mounts == p.mounts[..|ms|] + [OverlaySpec(opts, |ms| - 1, source, "")]
    requires GoodDir(mdir) && AllPassedOn(opts) && !T.HasBraces(source)
    ensures Assembled(MountAll(p.mounts, rootfs, mdir, works), p.mounts[..|ms|],
                      MountedOverlay(opts, |ms| - 1, source, "", mdir), rootfs, mdir, works)
  {
    var devices := p.mounts[..|ms|];
    DeviceTypes(ms, devices, p.disks, id, files);
    GuestOverlay(devices, opts, source, "", rootfs, mdir, works);
  }

  // End to end: for 1 to 9 EROFS layers and an ext4 disk, whatever happens in the guest. The disk under
  // the upper and work directories is writable unless the request asks otherwise.
  lemma OverlayIsMounted(id: string, layers: seq<Spec>, upper: Spec, files: set<string>,
                         rootfs: string, mdir: string, works: nat -> bool)
    requires 1 <= |layers| <= 9 && Layers(layers) && upper.fstype == "ext4" && GoodDir(mdir)
    ensures TransformMounts(id, layers + [upper], files).Some?
    ensures var n, ms := |layers|, layers + [upper];
            var p := TransformMounts(id, ms, files).value;
            && |p.mounts| == n + 2 && AllLettered(ms, p.mounts[..n + 1], p.disks, id, files)
            && (forall i :: 0 <= i < n ==> p.disks[i].readOnly)
            && (p.disks[n].readOnly <==> AsksReadOnly(upper))
            && Assembled(MountAll(p.mounts, rootfs, mdir, works), p.mounts[..n + 1],
                         MountedOverlay(GENERATED, n, "overlay", "", mdir), rootfs, mdir, works)
  {
    var n, ms := |layers|, layers + [upper];
    HostPlan(id, layers, upper, files);
    DiskTypes(layers, upper);
    GeneratedIsPassedOn();
    PlanIsAssembled(id, ms, TransformMounts(id, ms, files).value, GENERATED, "overlay", files, rootfs, mdir, works);
    OnlyUpperIsWritable(id, layers, upper, TransformMounts(id, ms, files).value, files);
  }

  lemma OnlyUpperIsWritable(id: string, layers: seq<Spec>, upper: Spec, p: Plan, files: set<string>)
    requires Layers(layers) && upper.fstype == "ext4" && |p.mounts| > |layers|
    requires AllLettered(layers + [upper], p.mounts[..|layers| + 1], p.disks, id, files)
    ensures forall i :: 0 <= i < |layers| ==> p.disks[i].readOnly
    ensures p.disks[|layers|].readOnly <==> AsksReadOnly(upper)
  {
    var ms, devices := layers + [upper], p.mounts[..|layers| + 1];
    forall i | 0 <= i < |layers| ensures p.disks[i].readOnly {
      assert Lettered(ms[i], FIRST_LETTER + i, devices[i], p.disks[i], id, files);
    }
    assert Lettered(upper, FIRST_LETTER + |layers|, devices[|layers|], p.disks[|layers|], id, files);
  }

  // Ten layers and an ext4 disk are one disk too many.
  lemma TooManyLayers(id: string, layers: seq<Spec>, upper: Spec, files: set<string>)
    requires |layers| >= 10 && Layers(layers) && upper.fstype == "ext4"
    ensures TransformMounts(id, layers + [upper], files).None?
  {
    AllDevices(layers + [upper]);
    AcceptedExactly(id, layers + [upper], files);
  }

  // ---------------------------------------------------------------- overlays of the request

  // An option as the host gets it.
  function GivenText(o: Opt, n: nat): string
    requires n > 0
  {
    match o
    case LowerDirs => "lowerdir=" + PrintOverlay(0, n - 1)
    case UpperDir(path) => "upperdir=" + path
    case WorkDir(path) => "workdir=" + path
    case Other(text) => text
  }

  // An overlay over all the n layers before it, whose upper and work directories are on the host: the
  // options are opts, in this order, with the three of an overlay at l, u and w.
  ghost predicate HostOverlay(m: Spec, n: nat, opts: seq<Opt>, l: nat, u: nat, w: nat) {
    && n > 0 && IsOverlay(m.fstype) && |m.options| == |opts| && l < |opts| && u < |opts| && w < |opts|
    && opts[l].LowerDirs? && opts[u].UpperDir? && opts[w].WorkDir?
    && AllPassedOn(opts)
    && forall i :: 0 <= i < |opts| ==>
         && m.options[i] == GivenText(opts[i], n)
         && (i != l && i != u && i != w ==> opts[i].Other?)
         && (i == u || i == w ==> !T.HasBraces(m.options[i]))
  }

  lemma {:induction false} FindAfter(pre: string, t: string)
    requires '{' !in pre
    ensures FindOverlay(pre + t) == FindOverlay(t)
  {
    if pre == "" {
      assert pre + t == t;
    } else {
      var s := pre + t;
      assert s[0] == pre[0] && s[1..] == pre[1..] + t;
      assert !T.Opens(s);
      FindAfter(pre[1..], t);
    }
  }

  lemma FindsPrinted(c: string, d: string)
    requires AllDigits(c) && AllDigits(d)
    ensures var t := OverlayText(c, d);
            && |t| > 1 && t[0] == '{' && t[1] == '{'
            && FindOverlay(t) == Some(T.Match(|t|, Decimal(c), Decimal(d)))
  {
    OverlayTextAt(c, d);
    OverlayAt(OverlayText(c, d), c, 11 + |c|, d);
  }

  lemma BracesAfter(pre: string, t: string)
    requires |t| > 1 && t[0] == '{' && t[1] == '{'
    ensures T.HasBraces(pre + t)
  {
    var s := pre + t;
    assert s[|pre|] == t[0] && s[|pre| + 1] == t[1];
  }

  lemma FoundInLower(n: nat)
    requires n > 0
    ensures T.HasBraces("lowerdir=" + PrintOverlay(0, n - 1))
    ensures FindOverlay("lowerdir=" + PrintOverlay(0, n - 1)) == Some(T.Match(|PrintOverlay(0, n - 1)|, 0, n - 1))
  {
    var t := PrintOverlay(0, n - 1);
    FindsPrinted(Itoa(0), Itoa(n - 1));
    FindAfter("lowerdir=", t);
    BracesAfter("lowerdir=", t);
    DecimalOfItoa(0);
    DecimalOfItoa(n - 1);
  }

  lemma LowerIsAnalyzed(a: Analysis, i: nat, opt: string, m: T.Match)
    requires HasPrefix(opt, "lowerdir=") && T.HasBraces(opt) && FindOverlay(opt) == Some(m)
    ensures Analyze(a, i, opt) == a.(lowerTemplate := true, overlayEnd := Max(Saturated(m.i), Saturated(m.j)))
  {
    assert opt[..9] == "lowerdir=" && opt[0] == 'l';
  }

  lemma UpperIsAnalyzed(a: Analysis, i: nat, opt: string)
    requires HasPrefix(opt, "upperdir=") && !T.HasBraces(opt)
    ensures Analyze(a, i, opt) == a.(upper := i, transform := true)
  {
  }

  lemma WorkIsAnalyzed(a: Analysis, i: nat, opt: string)
    requires HasPrefix(opt, "workdir=") && !T.HasBraces(opt)
    ensures Analyze(a, i, opt) == a.(work := i, transform := true)
  {
    assert opt[0] == "workdir="[0] == 'w';
  }

  function WithOption(a: Analysis, i: nat, o: Opt, n: nat): Analysis {
    match o
    case LowerDirs => a.(lowerTemplate := true, overlayEnd := n - 1)
    case UpperDir(_) => a.(upper := i, transform := true)
    case WorkDir(_) => a.(work := i, transform := true)
    case Other(_) => a
  }

  lemma OptionIsAnalyzed(a: Analysis, i: nat, o: Opt, n: nat)
    requires 0 < n <= MAX_INT && PassedOn(o) && (o.UpperDir? || o.WorkDir? ==> !T.HasBraces(GivenText(o, n)))
    ensures Analyze(a, i, GivenText(o, n)) == WithOption(a, i, o, n)
  {
    match o
    case LowerDirs =>
      FoundInLower(n);
      LowerIsAnalyzed(a, i, GivenText(o, n), T.Match(|PrintOverlay(0, n - 1)|, 0, n - 1));
    case UpperDir(path) => UpperIsAnalyzed(a, i, "upperdir=" + path);
    case WorkDir(path) => WorkIsAnalyzed(a, i, "workdir=" + path);
    case Other(_) =>
  }

  // What is known after k options.
  function Found(n: nat, l: nat, u: nat, w: nat, k: nat): Analysis {
    Analysis(if w < k then w else -1, if u < k then u else -1, l < k, u < k || w < k, if l < k then n - 1 else -1)
  }

  // The three options of the overlay are where they are, and no others are of their kind.
  lemma FoundGrows(n: nat, o: Opt, l: nat, u: nat, w: nat, k: nat)
    requires (o.LowerDirs? <==> k == l) && (o.UpperDir? <==> k == u) && (o.WorkDir? <==> k == w)
    ensures WithOption(Found(n, l, u, w, k), k, o, n) == Found(n, l, u, w, k + 1)
  {
  }

  lemma {:induction false} HostOverlayAnalyzed(m: Spec, n: nat, opts: seq<Opt>, l: nat, u: nat, w: nat, k: nat)
    requires HostOverlay(m, n, opts, l, u, w) && n <= MAX_INT && k <= |opts|
    ensures AnalyzeOptions(m.options, k) == Found(n, l, u, w, k)
    decreases k
  {
    if k > 0 {
      HostOverlayAnalyzed(m, n, opts, l, u, w, k - 1);
      var o := opts[k - 1];
      assert m.options[k - 1] == GivenText(o, n);
      OptionIsAnalyzed(Found(n, l, u, w, k - 1), k - 1, o, n);
      FoundGrows(n, o, l, u, w, k - 1);
    }
  }

  lemma MovedOption(o: Opt, n: nat)
    requires n > 0
    ensures o.UpperDir? ==> SentText(o, n) == "upperdir=" + MountTemplate(n, "/upper")
    ensures o.WorkDir? ==> SentText(o, n) == "workdir=" + MountTemplate(n, "/work")
    ensures o.LowerDirs? || o.Other? ==> SentText(o, n) == GivenText(o, n)
  {
  }

  lemma {:induction false} MovedFrom(options: seq<string>, i: nat, a: Analysis, index: int, sent: seq<string>)
    requires i <= |options| == |sent|
    requires forall k :: 0 <= k < |options| ==>
               sent[k] == if k == a.upper then "upperdir=" + MountTemplate(index, "/upper")
                          else if k == a.work then "workdir=" + MountTemplate(index, "/work") else options[k]
    ensures MoveDirs(options, i, a, index) == sent[i..]
    decreases |options| - i
  {
    if i < |options| {
      MovedFrom(options, i + 1, a, index, sent);
      assert sent[i..] == [sent[i]] + sent[i + 1..];
    }
  }

  lemma OptionsAreMoved(m: Spec, n: nat, opts: seq<Opt>, l: nat, u: nat, w: nat)
    requires HostOverlay(m, n, opts, l, u, w)
    ensures MoveDirs(m.options, 0, Found(n, l, u, w, |opts|), n) == SentOptions(opts, n)
  {
    var a, sent := Found(n, l, u, w, |opts|), SentOptions(opts, n);
    forall k | 0 <= k < |opts|
      ensures sent[k] == if k == a.upper then "upperdir=" + MountTemplate(n, "/upper")
                         else if k == a.work then "workdir=" + MountTemplate(n, "/work") else m.options[k]
    {
      MovedOption(opts[k], n);
    }
    MovedFrom(m.options, 0, a, n, sent);
    assert sent[0..] == sent;
  }

  // The directories are moved to the mount behind the layers, as in a generated overlay, and every other
  // option stays where it is.
  lemma DirsAreMoved(m: Spec, n: nat, opts: seq<Opt>, l: nat, u: nat, w: nat)
    requires HostOverlay(m, n, opts, l, u, w) && n < MAX_INT
    ensures Overlay(m) == [Spec("tmpfs", "tmpfs", "", ["mode=0755"]), OverlaySpec(opts, n, m.source, m.target)]
  {
    HostOverlayAnalyzed(m, n, opts, l, u, w, |opts|);
    OptionsAreMoved(m, n, opts, l, u, w);
    assert [MkdirOption(n, "/upper"), MkdirOption(n, "/work")] == MkdirOptions(n);
  }

  lemma {:induction false} TransformSnoc(id: string, letter: nat, ms: seq<Spec>, m: Spec, files: set<string>)
    requires letter < 256 && IsOverlay(m.fstype) && TransformAll(id, letter, ms, files).Some?
    ensures TransformAll(id, letter, ms + [m], files) ==
            Some(Append(TransformAll(id, letter, ms, files).value, Plan(Overlay(m), [])))
    decreases |ms|
  {
    var all := ms + [m];
    if ms == [] {
      assert all[1..] == [] && all[0] == m;
      assert Overlay(m) + [] == Overlay(m) == [] + Overlay(m);
    } else {
      assert all[0] == ms[0] && all[1..] == ms[1..] + [m];
      var letter2 := LetterAfter(letter, ms[0]);
      TransformSnoc(id, letter2, ms[1..], m, files);
      AppendAssociates(TransformMount(id, letter, ms[0], files).value, TransformAll(id, letter2, ms[1..], files).value,
                       Plan(Overlay(m), []));
    }
  }

  lemma OverlayIsThere(ms: seq<Spec>)
    requires ms != [] && ms[|ms| - 1].fstype == "format/mkdir/overlay"
    ensures GenerateOverlay(ms) == ms
  {
    assert T.StartsAt("format/mkdir/overlay", 13, "overlay");
    assert Contains(ms[|ms| - 1].fstype, "overlay");
  }

  // The mounts that an overlay gives come behind those of the layers, which take the disks.
  lemma BehindLayers(id: string, layers: seq<Spec>, m: Spec, files: set<string>, two: seq<Spec>)
    requires 1 <= |layers| <= 10 && Layers(layers) && IsOverlay(m.fstype)
    requires Overlay(m) == two && |two| == 2 && two[1].fstype == "format/mkdir/overlay"
    ensures var p := TransformMounts(id, layers + [m], files);
            && p.Some? && |p.value.mounts| == |layers| + 2
            && p.value.mounts == p.value.mounts[..|layers|] + two
            && AllLettered(layers, p.value.mounts[..|layers|], p.value.disks, id, files)
  {
    AllDevices(layers);
    AllGuestDevices(id, FIRST_LETTER, layers, files);
    DisksInStep(id, FIRST_LETTER, layers, files);
    var first := TransformAll(id, FIRST_LETTER, layers, files).value;
    TransformSnoc(id, FIRST_LETTER, layers, m, files);
    var mounts := first.mounts + two;
    OverlayIsThere(mounts);
    AllGuests(layers, first.mounts);
    AllDevices(first.mounts);
    InStepIsLettered(layers, first.mounts, first.disks, id, files);
    assert first.disks + [] == first.disks && mounts[..|layers|] == first.mounts;
  }

  lemma HostOverlayPlan(id: string, layers: seq<Spec>, m: Spec, files: set<string>,
                        opts: seq<Opt>, l: nat, u: nat, w: nat)
    requires 1 <= |layers| <= 10 && Layers(layers) && HostOverlay(m, |layers|, opts, l, u, w)
    ensures var n := |layers|;
            var p := TransformMounts(id, layers + [m], files);
            && p.Some? && |p.value.mounts| == n + 2
            && AllLettered(layers, p.value.mounts[..n], p.value.disks, id, files)
            && p.value.mounts[n] == Spec("tmpfs", "tmpfs", "", ["mode=0755"])
            && p.value.mounts == p.value.mounts[..n + 1] + [OverlaySpec(opts, n, m.source, m.target)]
  {
    var n := |layers|;
    var two := [Spec("tmpfs", "tmpfs", "", ["mode=0755"]), OverlaySpec(opts, n, m.source, m.target)];
    DirsAreMoved(m, n, opts, l, u, w);
    BehindLayers(id, layers, m, files, two);
    var mounts := TransformMounts(id, layers + [m], files).value.mounts;
    assert mounts[n] == two[0] && mounts[n + 1] == two[1];
  }

  lemma AllGuests(layers: seq<Spec>, guests: seq<Spec>)
    requires Layers(layers) && |guests| == |layers|
    requires forall i :: 0 <= i < |guests| ==> guests[i].fstype == GuestType(layers[i].fstype)
    ensures forall i :: 0 <= i < |guests| ==> UsesDisk(guests[i].fstype)
  {
  }

  lemma PlainSnoc(devices: seq<Spec>, m: Spec)
    requires PlainType(m.fstype) && forall i :: 0 <= i < |devices| ==> PlainType(devices[i].fstype)
    ensures forall i :: 0 <= i < |devices + [m]| ==> PlainType((devices + [m])[i].fstype)
  {
  }

  lemma TmpfsPlanIsAssembled(id: string, layers: seq<Spec>, p: Plan, opts: seq<Opt>, source: string, target: string,
                             files: set<string>, rootfs: string, mdir: string, works: nat -> bool)
    requires |layers| > 0 && Layers(layers) && |p.mounts| == |layers| + 2 && GoodDir(mdir) && AllPassedOn(opts)
    requires AllLettered(layers, p.mounts[..|layers|], p.disks, id, files)
    requires p.mounts[|layers|].fstype == "tmpfs" && !T.HasBraces(source) && !T.HasBraces(target)
    requires p.mounts == p.mounts[..|layers| + 1] + [OverlaySpec(opts, |layers|, source, target)]
    ensures Assembled(MountAll(p.mounts, rootfs, mdir, works), p.mounts[..|layers| + 1],
                      MountedOverlay(opts, |layers|, source, target, mdir), rootfs, mdir, works)
  {
    var n := |layers|;
    DeviceTypes(layers, p.mounts[..n], p.disks, id, files);
    PlainSnoc(p.mounts[..n], p.mounts[n]);
    assert p.mounts[..n] + [p.mounts[n]] == p.mounts[..n + 1];
    GuestOverlay(p.mounts[..n + 1], opts, source, target, rootfs, mdir, works);
  }

  // End to end for an overlay of the request, with its options in any order and further ones among them:
  // the host's upper and work directories give way to a tmpfs that the guest mounts behind the layers.
  lemma TmpfsOverlayIsMounted(id: string, layers: seq<Spec>, m: Spec, files: set<string>,
                              opts: seq<Opt>, l: nat, u: nat, w: nat,
                              rootfs: string, mdir: string, works: nat -> bool)
    requires 1 <= |layers| <= 10 && Layers(layers) && HostOverlay(m, |layers|, opts, l, u, w) && GoodDir(mdir)
    requires !T.HasBraces(m.source) && !T.HasBraces(m.target)
    ensures TransformMounts(id, layers + [m], files).Some?
    ensures var n := |layers|;
            var p := TransformMounts(id, layers + [m], files).value;
            && |p.mounts| == n + 2 && AllLettered(layers, p.mounts[..n], p.disks, id, files)
            && p.mounts[n] == Spec("tmpfs", "tmpfs", "", ["mode=0755"])
            && Assembled(MountAll(p.mounts, rootfs, mdir, works), p.mounts[..n + 1],
                         MountedOverlay(opts, n, m.source, m.target, mdir), rootfs, mdir, works)
  {
    HostOverlayPlan(id, layers, m, files, opts, l, u, w);
    TmpfsPlanIsAssembled(id, layers, TransformMounts(id, layers + [m], files).value, opts, m.source, m.target, files,
                         rootfs, mdir, works);
  }
}
