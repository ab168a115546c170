// The host's rewriting of rootfs mounts into virtio disks and guest mounts.
module HostMounts {
  import opened Base
  import opened Text
  import T = Templates

  datatype Spec = Spec(fstype: string, source: string, target: string, options: seq<string>)

  datatype Disk = Disk(name: string, source: string, readOnly: bool, vmdk: bool)

  // Guest mounts and the disks that back them, in order.
  datatype Plan = Plan(mounts: seq<Spec>, disks: seq<Disk>)

  function Append(a: Plan, b: Plan): Plan { Plan(a.mounts + b.mounts, a.disks + b.disks) }

  lemma AppendAssociates(a: Plan, b: Plan, c: Plan)
    ensures Append(Append(a, b), c) == Append(a, Append(b, c))
  {
    assert a.mounts + b.mounts + c.mounts == a.mounts + (b.mounts + c.mounts);
    assert a.disks + b.disks + c.disks == a.disks + (b.disks + c.disks);
  }

  const FIRST_LETTER: nat := 97
  const MAX_DISKS := 10

  // The disk letter is one byte.
  function NextLetter(letter: nat): (r: nat)
    ensures r < 256
  {
    (letter + 1) % 256
  }

  function Device(letter: nat): string
    requires letter < 256
  {
    "/dev/vd" + [letter as char]
  }

  function TruncateID(prefix: string, id: string): (r: string)
    ensures |r| <= 36
  {
    var tag := prefix + "-" + id;
    if |tag| > 36 then tag[..36] else tag
  }

  function DiskName(letter: nat, id: string): string { TruncateID("disk-" + Itoa(letter), id) }

  // ---------------------------------------------------------------- options

  function Without(options: seq<string>, w: string): seq<string> {
    if options == [] then []
    else (if options[0] == w then [] else [options[0]]) + Without(options[1..], w)
  }

  function WithoutPrefix(options: seq<string>, w: string): seq<string> {
    if options == [] then []
    else (if HasPrefix(options[0], w) then [] else [options[0]]) + WithoutPrefix(options[1..], w)
  }

  // filterOptions
  function FilterOptions(options: seq<string>): seq<string> { Without(options, "loop") }

  // ---------------------------------------------------------------- EROFS and ext4

  // files: the host files that exist and are not empty.
  function ErofsBacking(source: string, files: set<string>): (string, bool) {
    if HasSuffix(source, "fsmeta.erofs") then
      var merged := source[..|source| - 12] + "merged.vmdk";
      if merged in files then (merged, true) else (source, false)
    else (source, HasSuffix(source, ".vmdk"))
  }

  function Erofs(id: string, letter: nat, m: Spec, files: set<string>): Plan
    requires letter < 256
  {
    var b := ErofsBacking(m.source, files);
    Plan([Spec("erofs", Device(letter), m.target, FilterOptions(WithoutPrefix(m.options, "device=")))],
         [Disk(DiskName(letter, id), b.0, true, b.1)])
  }

  function Ext4(id: string, letter: nat, m: Spec): Plan
    requires letter < 256
  {
    var readOnly := "ro" in m.options || "readonly" in m.options;
    Plan([Spec("ext4", Device(letter), m.target, FilterOptions(m.options))],
         [Disk(DiskName(letter, id), m.source, readOnly, false)])
  }

  // ---------------------------------------------------------------- overlay mounts of the request

  // -1: no such option.
  datatype Analysis = Analysis(work: int, upper: int, lowerTemplate: bool, transform: bool, overlayEnd: int)

  // The overlay pattern found leftmost in s.
  function FindOverlay(s: string): Option<T.Match> {
    if s == "" then None
    else
      var m := T.MatchAt(s, T.Overlay);
      if m.Some? then m else FindOverlay(s[1..])
  }

  // strconv.Atoi of digits, with the error ignored.
  function Saturated(n: nat): int { Min(n, MAX_INT) }

  function Analyze(a: Analysis, i: nat, opt: string): Analysis {
    if HasPrefix(opt, "upperdir=") then a.(upper := i, transform := a.transform || !T.HasBraces(opt))
    else if HasPrefix(opt, "workdir=") then a.(work := i, transform := a.transform || !T.HasBraces(opt))
    else if HasPrefix(opt, "lowerdir=") && T.HasBraces(opt) then
      var m := FindOverlay(opt);
      if m.None? then a.(lowerTemplate := true)
      else a.(lowerTemplate := true, overlayEnd := Max(Saturated(m.value.i), Saturated(m.value.j)))
    else a
  }

  // The analysis of the first n options.
  function AnalyzeOptions(options: seq<string>, n: nat): Analysis
    requires n <= |options|
  {
    if n == 0 then Analysis(-1, -1, false, false, -1)
    else Analyze(AnalyzeOptions(options, n - 1), n - 1, options[n - 1])
  }

  // %d
  function PrintInt(n: int): string { if n < 0 then "-" + Itoa(-n) else Itoa(n) }

  function MountTemplate(index: int, dir: string): string { "{{ mount " + PrintInt(index) + " }}" + dir }

  function MkdirOption(index: int, dir: string): string {
    "X-containerd.mkdir.path=" + MountTemplate(index, dir)
  }

  // The options with the host's upper and work directories moved to the mount at index.
  function MoveDirs(options: seq<string>, i: nat, a: Analysis, index: int): seq<string>
    requires i <= |options|
    decreases |options| - i
  {
    if i == |options| then []
    else [if i == a.upper then "upperdir=" + MountTemplate(index, "/upper")
          else if i == a.work then "workdir=" + MountTemplate(index, "/work")
          else options[i]] + MoveDirs(options, i + 1, a, index)
  }

  function Overlay(m: Spec): seq<Spec> {
    var a := AnalyzeOptions(m.options, |m.options|);
    if a.lowerTemplate && a.transform && a.upper >= 0 && a.work >= 0 && a.overlayEnd >= 0 then
      var index := if a.overlayEnd == MAX_INT then -MAX_INT - 1 else a.overlayEnd + 1;
      [Spec("tmpfs", "tmpfs", "", ["mode=0755"]),
       Spec("format/mkdir/overlay", m.source, m.target,
            MoveDirs(m.options, 0, a, index) + [MkdirOption(index, "/upper"), MkdirOption(index, "/work")])]
    else [m]
  }

  // ---------------------------------------------------------------- all mounts

  predicate IsErofs(t: string) { t == "erofs" || t == "format/erofs" }

  predicate IsOverlay(t: string) { t == "overlay" || t == "format/overlay" || t == "format/mkdir/overlay" }

  // Mounts that get a disk.
  predicate UsesDisk(t: string) { IsErofs(t) || t == "ext4" }

  // transformMount; None: needs the mount manager.
  function TransformMount(id: string, letter: nat, m: Spec, files: set<string>): Option<Plan>
    requires letter < 256
  {
    if IsErofs(m.fstype) then Some(Erofs(id, letter, m, files))
    else if m.fstype == "ext4" then Some(Ext4(id, letter, m))
    else if IsOverlay(m.fstype) then Some(Plan(Overlay(m), []))
    else if HasPrefix(m.fstype, "mkfs/") || HasPrefix(m.fstype, "format/") then None
    else Some(Plan([m], []))
  }

  function LetterAfter(letter: nat, m: Spec): (r: nat)
    requires letter < 256
    ensures r < 256
  {
    if UsesDisk(m.fstype) then NextLetter(letter) else letter
  }

  function TransformAll(id: string, letter: nat, ms: seq<Spec>, files: set<string>): Option<Plan>
    requires letter < 256
    decreases |ms|
  {
    if ms == [] then Some(Plan([], []))
    else
      var first := TransformMount(id, letter, ms[0], files);
      var rest := TransformAll(id, LetterAfter(letter, ms[0]), ms[1..], files);
      if first.None? || rest.None? then None else Some(Append(first.value, rest.value))
  }

  // ---------------------------------------------------------------- the generated overlay

  function Count(ms: seq<Spec>, t: string): (n: nat)
    ensures n <= |ms|
  {
    if ms == [] then 0 else (if ms[0].fstype == t then 1 else 0) + Count(ms[1..], t)
  }

  predicate Contains(s: string, w: string) { exists i: nat :: T.StartsAt(s, i, w) && i <= |s| }

  function OverlayOptions(erofs: nat, ext4: nat): seq<string>
    requires erofs > 0
  {
    ["lowerdir={{ overlay 0 " + Itoa(erofs - 1) + " }}",
     "upperdir=" + MountTemplate(ext4, "/upper"),
     "workdir=" + MountTemplate(ext4, "/work"),
     MkdirOption(ext4, "/upper"),
     MkdirOption(ext4, "/work")]
  }

  // generateOverlayIfNeeded
  function GenerateOverlay(ms: seq<Spec>): seq<Spec> {
    if |ms| < 2 || (exists i :: 0 <= i < |ms| && Contains(ms[i].fstype, "overlay")) then ms
    else if Count(ms, "erofs") == 0 || ms[|ms| - 1].fstype != "ext4" then ms
    else ms + [Spec("format/mkdir/overlay", "overlay", "", OverlayOptions(Count(ms, "erofs"), |ms| - 1))]
  }

  // transformMounts, when every AddDisk succeeds.
  function TransformMounts(id: string, ms: seq<Spec>, files: set<string>): Option<Plan> {
    var all := TransformAll(id, FIRST_LETTER, ms, files);
    if all.None? || |all.value.disks| > MAX_DISKS then None
    else Some(Plan(GenerateOverlay(all.value.mounts), all.value.disks))
  }
}
