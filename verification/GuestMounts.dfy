// The guest's mounting of rootfs components: targets, template expansion, directories to create,
// the mounts themselves, and the clean-up of what was mounted when a later step fails.
module GuestMounts {
  import opened Base
  import opened Text
  import opened HostMounts
  import T = Templates

  // ---------------------------------------------------------------- mkdir options

  datatype Mkdir = Mkdir(path: string, mode: nat, uid: int, gid: int)

  // strings.SplitN
  function SplitN(s: string, c: char, n: nat): (r: seq<string>)
    ensures n > 0 ==> 0 < |r| <= n
  {
    var i := Index(s, c);
    if n == 0 then []
    else if n == 1 || i == |s| then [s]
    else [s[..i]] + SplitN(s[i + 1..], c, n - 1)
  }

  function Octal(s: string): nat {
    if s == "" then 0 else Octal(s[..|s| - 1]) * 8 + DigitValue(s[|s| - 1])
  }

  // strconv.ParseUint(s, 8, 32)
  function ParseMode(s: string): Option<nat> {
    if s != "" && (forall i :: 0 <= i < |s| ==> '0' <= s[i] <= '7') && Octal(s) < 0x1_0000_0000 then Some(Octal(s))
    else None
  }

  const MKDIR_PATH := "X-containerd.mkdir.path="
  const MKDIR := "X-containerd.mkdir."

  // parseMkdirOption: path[:mode[:uid[:gid]]]
  function ParseMkdir(opt: string, base: string): Option<Mkdir> {
    if !HasPrefix(opt, MKDIR_PATH) then None
    else
      var parts := SplitN(opt[|MKDIR_PATH|..], ':', 4);
      var gid := if |parts| == 4 then Atoi(parts[3]) else Some(-1);
      var uid := if |parts| >= 3 then Atoi(parts[2]) else Some(-1);
      var mode := if |parts| >= 2 then ParseMode(parts[1]) else Some(0x1ED);
      if gid.None? || uid.None? || mode.None? || !HasPrefix(parts[0], base) then None
      else Some(Mkdir(parts[0], mode.value, uid.value, gid.value))
  }

  datatype Mkdirs = Mkdirs(remaining: seq<string>, specs: seq<Mkdir>)

  // One option before the others.
  function AddOption(opt: string, base: string, rest: Option<Mkdirs>): Option<Mkdirs> {
    if rest.None? then None
    else if !HasPrefix(opt, MKDIR) then Some(rest.value.(remaining := [opt] + rest.value.remaining))
    else
      var spec := ParseMkdir(opt, base);
      if spec.None? then None else Some(rest.value.(specs := [spec.value] + rest.value.specs))
  }

  // processMkdirOptions
  function ProcessMkdirs(options: seq<string>, base: string): Option<Mkdirs> {
    if options == [] then Some(Mkdirs([], []))
    else AddOption(options[0], base, ProcessMkdirs(options[1..], base))
  }

  // ---------------------------------------------------------------- preparing one mount

  datatype Active = Active(spec: Spec, mountPoint: string)

  function View(active: seq<Active>): (r: seq<T.ActiveMount>)
    ensures |r| == |active|
    ensures forall i :: 0 <= i < |r| ==>
      r[i] == T.ActiveMount(active[i].spec.source, active[i].spec.target, active[i].mountPoint)
  {
    seq(|active|, i requires 0 <= i < |active| =>
      T.ActiveMount(active[i].spec.source, active[i].spec.target, active[i].mountPoint))
  }

  function FormatAll(options: seq<string>, view: seq<T.ActiveMount>): Option<seq<string>> {
    if options == [] then Some([])
    else
      var first := T.Format(options[0], view);
      var rest := FormatAll(options[1..], view);
      if first.None? || rest.None? then None else Some([first.value] + rest.value)
  }

  // applyFormatSubstitution
  function FormatSpec(m: Spec, view: seq<T.ActiveMount>): Option<Spec> {
    var options := FormatAll(m.options, view);
    var source := T.Format(m.source, view);
    var target := T.Format(m.target, view);
    if options.None? || source.None? || target.None? then None
    else Some(Spec(m.fstype, source.value, target.value, options.value))
  }

  datatype Prepared = Prepared(spec: Spec, mkdirs: seq<Mkdir>)

  const FORMAT := "format/"
  const MAKE := "mkdir/"

  // The format/ prefix, and then the mkdir/ prefix.
  function Formatted(m: Spec, active: seq<Active>): Option<Spec> {
    if HasPrefix(m.fstype, FORMAT) then FormatSpec(m.(fstype := m.fstype[|FORMAT|..]), View(active)) else Some(m)
  }

  function Prepare(m: Spec, active: seq<Active>, mdir: string): Option<Prepared> {
    var f := Formatted(m, active);
    if f.None? then None
    else if !HasPrefix(f.value.fstype, MAKE) then Some(Prepared(f.value, []))
    else
      var k := ProcessMkdirs(f.value.options, mdir);
      if k.None? then None
      else Some(Prepared(f.value.(fstype := f.value.fstype[|MAKE|..], options := k.value.remaining), k.value.specs))
  }

  // ---------------------------------------------------------------- operations on the guest

  datatype Op =
    | MakeDir(path: string, mode: nat)
    | Chown(path: string, uid: int, gid: int)
    | DoMount(spec: Spec, point: string)
    | Unmount(point: string)

  // What was done, in order, and whether the step succeeded; works(n): the outcome of the n-th operation.
  datatype Done = Done(ops: seq<Op>, ok: bool)

  function Try(ops: seq<Op>, op: Op, works: nat -> bool): Done { Done(ops + [op], works(|ops|)) }

  // applyMkdirSpecs
  function MakeDirs(specs: seq<Mkdir>, ops: seq<Op>, works: nat -> bool): Done {
    if specs == [] then Done(ops, true)
    else
      var s := specs[0];
      var made := Try(ops, MakeDir(s.path, s.mode), works);
      if !made.ok then made
      else if s.uid == -1 && s.gid == -1 then MakeDirs(specs[1..], made.ops, works)
      else
        var owned := Try(made.ops, Chown(s.path, s.uid, s.gid), works);
        if !owned.ok then owned else MakeDirs(specs[1..], owned.ops, works)
  }

  // cleanupMounts: newest first.
  function Unmounts(active: seq<Active>): seq<Op> {
    if active == [] then []
    else
      var last := active[|active| - 1];
      (if last.spec.fstype == "mkdir" then [] else [Unmount(last.mountPoint)]) + Unmounts(active[..|active| - 1])
  }

  function Target(mdir: string, i: nat): string { mdir + "/" + Itoa(i) }

  function PointOf(i: nat, n: nat, rootfs: string, mdir: string): string {
    if i + 1 < n then Target(mdir, i) else rootfs
  }

  // Everything the i-th of n mounts does: its directory, its preparation, and the mount.
  datatype Stage = Stage(ops: seq<Op>, mounted: Option<Spec>)

  function MountOne(m: Spec, i: nat, n: nat, rootfs: string, mdir: string,
                    active: seq<Active>, ops: seq<Op>, works: nat -> bool): Stage
  {
    var made := if i + 1 < n then Try(ops, MakeDir(Target(mdir, i), 0x1E8), works) else Done(ops, true);
    var p := Prepare(m, active, mdir);
    if !made.ok || p.None? then Stage(made.ops, None)
    else
      var dirs := MakeDirs(p.value.mkdirs, made.ops, works);
      if !dirs.ok then Stage(dirs.ops, None)
      else
        var d := Try(dirs.ops, DoMount(p.value.spec, PointOf(i, n, rootfs, mdir)), works);
        Stage(d.ops, if d.ok then Some(p.value.spec) else None)
  }

  datatype Outcome = Failed(ops: seq<Op>) | Mounted(ops: seq<Op>, active: seq<Active>)

  // All, from the i-th mount on.
  function MountFrom(mounts: seq<Spec>, i: nat, rootfs: string, mdir: string,
                     active: seq<Active>, ops: seq<Op>, works: nat -> bool): Outcome
    requires i <= |mounts|
    decreases |mounts| - i
  {
    if i == |mounts| then Mounted(ops, active)
    else
      var s := MountOne(mounts[i], i, |mounts|, rootfs, mdir, active, ops, works);
      if s.mounted.None? then Failed(s.ops + Unmounts(active))
      else MountFrom(mounts, i + 1, rootfs, mdir,
                     active + [Active(s.mounted.value, PointOf(i, |mounts|, rootfs, mdir))], s.ops, works)
  }

  function MountAll(mounts: seq<Spec>, rootfs: string, mdir: string, works: nat -> bool): Outcome {
    MountFrom(mounts, 0, rootfs, mdir, [], [], works)
  }

  // ---------------------------------------------------------------- what is mounted

  // Points mounted after the first n operations.
  function MountedAfter(ops: seq<Op>, n: nat, works: nat -> bool): set<string>
    requires n <= |ops|
  {
    if n == 0 then {}
    else
      var before := MountedAfter(ops, n - 1, works);
      if !works(n - 1) then before
      else if ops[n - 1].DoMount? then before + {ops[n - 1].point}
      else if ops[n - 1].Unmount? then before - {ops[n - 1].point}
      else before
  }

  function MountedBy(ops: seq<Op>, works: nat -> bool): set<string> { MountedAfter(ops, |ops|, works) }
}
