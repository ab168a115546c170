// Device letters follow the order in which disks are added.
module HostMountLaws {
  import opened Base
  import opened Text
  import opened HostMounts
  import T = Templates

  // ---------------------------------------------------------------- one mount

  function Devices(ms: seq<Spec>): seq<Spec> {
    if ms == [] then []
    else (if UsesDisk(ms[0].fstype) then [ms[0]] else []) + Devices(ms[1..])
  }

  lemma {:induction false} DevicesAppend(a: seq<Spec>, b: seq<Spec>)
    ensures Devices(a + b) == Devices(a) + Devices(b)
  {
    if a == [] {
      assert a + b == b;
    } else {
      var all := a + b;
      assert all[0] == a[0] && all[1..] == a[1..] + b;
      DevicesAppend(a[1..], b);
      var first := if UsesDisk(a[0].fstype) then [a[0]] else [];
      assert first + (Devices(a[1..]) + Devices(b)) == first + Devices(a[1..]) + Devices(b);
    }
  }

  function Backing(m: Spec, files: set<string>): string {
    if IsErofs(m.fstype) then ErofsBacking(m.source, files).0 else m.source
  }

  function GuestType(t: string): string { if IsErofs(t) then "erofs" else t }

  predicate AsksReadOnly(m: Spec) { "ro" in m.options || "readonly" in m.options }

  // What one mount that uses a disk becomes. Only a layer, or a disk asked for read-only, is attached read-only.
  ghost predicate Lettered(m: Spec, letter: nat, guest: Spec, d: Disk, id: string, files: set<string>) {
    && letter < 256
    && guest.source == Device(letter) && guest.fstype == GuestType(m.fstype) && guest.target == m.target
    && d.source == Backing(m, files) && d.name == DiskName(letter, id)
    && (d.readOnly <==> IsErofs(m.fstype) || AsksReadOnly(m))
    && (d.vmdk <==> IsErofs(m.fstype) && HasSuffix(d.source, ".vmdk"))
  }

  lemma OneLettered(id: string, letter: nat, m: Spec, files: set<string>)
    requires letter < 256 && UsesDisk(m.fstype)
    ensures var p := TransformMount(id, letter, m, files);
            && p.Some? && |p.value.mounts| == 1 == |p.value.disks|
            && Lettered(m, letter, p.value.mounts[0], p.value.disks[0], id, files)
  {
    if IsErofs(m.fstype) { ErofsDisk(m.source, files); }
  }

  lemma OneUnlettered(id: string, letter: nat, m: Spec, files: set<string>)
    requires letter < 256 && !UsesDisk(m.fstype)
    ensures var p := TransformMount(id, letter, m, files);
            p.Some? ==> p.value.disks == [] && Devices(p.value.mounts) == []
  {
    var p := TransformMount(id, letter, m, files);
    if p.Some? {
      assert p.value.disks == [];
      assert forall i :: 0 <= i < |p.value.mounts| ==> !UsesDisk(p.value.mounts[i].fstype);
      NoDevices(p.value.mounts);
    }
  }

  lemma {:induction false} NoDevices(ms: seq<Spec>)
    requires forall i :: 0 <= i < |ms| ==> !UsesDisk(ms[i].fstype)
    ensures Devices(ms) == []
  {
    if ms != [] { NoDevices(ms[1..]); }
  }

  // ---------------------------------------------------------------- all mounts

  // The mounts of the request, the devices of the guest and the disks of the VM go in step,
  // one letter after the other.
  ghost predicate InStep(ms: seq<Spec>, letter: nat, guests: seq<Spec>, disks: seq<Disk>,
                         id: string, files: set<string>) {
    && |ms| == |guests| == |disks|
    && (ms != [] ==>
          && Lettered(ms[0], letter, guests[0], disks[0], id, files)
          && InStep(ms[1..], NextLetter(letter), guests[1..], disks[1..], id, files))
  }

  lemma {:induction false} DisksInStep(id: string, letter: nat, ms: seq<Spec>, files: set<string>)
    requires letter < 256 && TransformAll(id, letter, ms, files).Some?
    ensures var p := TransformAll(id, letter, ms, files).value;
            InStep(Devices(ms), letter, Devices(p.mounts), p.disks, id, files)
    decreases |ms|
  {
    if ms != [] {
      var m := ms[0];
      var first := TransformMount(id, letter, m, files).value;
      var rest := TransformAll(id, LetterAfter(letter, m), ms[1..], files).value;
      DisksInStep(id, LetterAfter(letter, m), ms[1..], files);
      DevicesAppend(first.mounts, rest.mounts);
      if UsesDisk(m.fstype) {
        OneLettered(id, letter, m, files);
        OneDevice(first.mounts);
        ConsInStep(m, Devices(ms[1..]), letter, first, rest, id, files);
      } else {
        OneUnlettered(id, letter, m, files);
        assert [] + rest.disks == rest.disks && [] + Devices(rest.mounts) == Devices(rest.mounts);
        assert Devices(ms) == Devices(ms[1..]);
      }
    }
  }

  lemma OneDevice(ms: seq<Spec>)
    requires |ms| == 1 && UsesDisk(ms[0].fstype)
    ensures Devices(ms) == ms
  {
    assert Devices(ms[1..]) == [];
  }

  lemma ConsInStep(m: Spec, ms: seq<Spec>, letter: nat, first: Plan, rest: Plan, id: string, files: set<string>)
    requires |first.mounts| == 1 == |first.disks| && Lettered(m, letter, first.mounts[0], first.disks[0], id, files)
    requires InStep(ms, NextLetter(letter), Devices(rest.mounts), rest.disks, id, files)
    ensures InStep([m] + ms, letter, first.mounts + Devices(rest.mounts), first.disks + rest.disks, id, files)
  {
    assert ([m] + ms)[1..] == ms;
    assert (first.mounts + Devices(rest.mounts))[1..] == Devices(rest.mounts);
    assert (first.disks + rest.disks)[1..] == rest.disks;
  }

  lemma {:induction false} InStepAt(ms: seq<Spec>, letter: nat, guests: seq<Spec>, disks: seq<Disk>, id: string,
                                    files: set<string>, j: nat)
    requires InStep(ms, letter, guests, disks, id, files) && j < |ms| && letter + |ms| <= 256
    ensures Lettered(ms[j], letter + j, guests[j], disks[j], id, files)
    decreases j
  {
    if j > 0 {
      assert NextLetter(letter) == letter + 1;
      InStepAt(ms[1..], letter + 1, guests[1..], disks[1..], id, files, j - 1);
      assert ms[1..][j - 1] == ms[j] && guests[1..][j - 1] == guests[j] && disks[1..][j - 1] == disks[j];
    }
  }

  lemma GeneratedIsNoDevice(ms: seq<Spec>)
    ensures Devices(GenerateOverlay(ms)) == Devices(ms)
  {
    var g := GenerateOverlay(ms);
    if g != ms {
      DevicesAppend(ms, g[|ms|..]);
      assert g == ms + g[|ms|..];
      assert Devices(g[|ms|..]) == [];
    }
  }

  // The j-th mount, the j-th device, which is /dev/vd('a' + j), and the j-th disk belong together.
  ghost predicate AllLettered(ms: seq<Spec>, guests: seq<Spec>, disks: seq<Disk>, id: string, files: set<string>) {
    && |ms| == |guests| == |disks|
    && forall j :: 0 <= j < |ms| ==> Lettered(ms[j], FIRST_LETTER + j, guests[j], disks[j], id, files)
  }

  lemma InStepIsLettered(ms: seq<Spec>, guests: seq<Spec>, disks: seq<Disk>, id: string, files: set<string>)
    requires InStep(ms, FIRST_LETTER, guests, disks, id, files) && |ms| <= MAX_DISKS
    ensures AllLettered(ms, guests, disks, id, files)
  {
    forall j | 0 <= j < |ms| ensures Lettered(ms[j], FIRST_LETTER + j, guests[j], disks[j], id, files) {
      InStepAt(ms, FIRST_LETTER, guests, disks, id, files, j);
    }
  }

  // For every request that is accepted, the j-th device of the guest is /dev/vd('a' + j), it is
  // backed by the j-th disk added to the VM, and both belong to the j-th disk-backed mount. No two
  // disks have one name.
  lemma LettersNameDisks(id: string, ms: seq<Spec>, files: set<string>)
    requires TransformMounts(id, ms, files).Some?
    ensures var p := TransformMounts(id, ms, files).value;
            && |p.disks| <= MAX_DISKS && AllLettered(Devices(ms), Devices(p.mounts), p.disks, id, files)
            && forall j, k :: 0 <= j < k < |p.disks| ==> p.disks[j].name != p.disks[k].name
  {
    var all := TransformAll(id, FIRST_LETTER, ms, files).value;
    DisksInStep(id, FIRST_LETTER, ms, files);
    GeneratedIsNoDevice(all.mounts);
    InStepIsLettered(Devices(ms), Devices(all.mounts), all.disks, id, files);
    NamesDiffer(Devices(ms), Devices(all.mounts), all.disks, id, files);
  }

  lemma NameDigits(letter: nat, id: string)
    requires FIRST_LETTER <= letter < FIRST_LETTER + MAX_DISKS
    ensures var name := DiskName(letter, id);
            && |name| > 7
            && (letter < 100 ==> name[5] == '9' && name[6] == Digit(letter - 90))
            && (letter >= 100 ==> name[5] == '1' && name[7] == Digit(letter - 100))
  {
    var number := Itoa(letter);
    if letter < 100 {
      assert letter / 10 == 9 && letter % 10 == letter - 90;
      assert number == Itoa(9) + [Digit(letter - 90)];
    } else {
      assert letter / 10 == 10 && letter % 10 == letter - 100;
      assert Itoa(10) == Itoa(1) + [Digit(0)];
      assert number == Itoa(10) + [Digit(letter - 100)];
    }
    var tag := "disk-" + number + "-" + id;
    assert forall i :: 0 <= i < |number| ==> tag[5 + i] == number[i];
  }

  lemma NamesDiffer(ms: seq<Spec>, guests: seq<Spec>, disks: seq<Disk>, id: string, files: set<string>)
    requires AllLettered(ms, guests, disks, id, files) && |disks| <= MAX_DISKS
    ensures forall j, k :: 0 <= j < k < |disks| ==> disks[j].name != disks[k].name
  {
    forall j, k | 0 <= j < k < |disks| ensures disks[j].name != disks[k].name {
      LetteredName(ms[j], FIRST_LETTER + j, guests[j], disks[j], id, files);
      LetteredName(ms[k], FIRST_LETTER + k, guests[k], disks[k], id, files);
      LettersDiffer(FIRST_LETTER + j, FIRST_LETTER + k, id);
    }
  }

  lemma LetteredName(m: Spec, letter: nat, guest: Spec, d: Disk, id: string, files: set<string>)
    requires Lettered(m, letter, guest, d, id, files)
    ensures d.name == DiskName(letter, id)
  {
  }

  lemma LettersDiffer(j: nat, k: nat, id: string)
    requires FIRST_LETTER <= j < k < FIRST_LETTER + MAX_DISKS
    ensures DiskName(j, id) != DiskName(k, id)
  {
    NameDigits(j, id);
    NameDigits(k, id);
  }

  // ---------------------------------------------------------------- which requests are accepted

  predicate Supported(t: string) { UsesDisk(t) || IsOverlay(t) || !(HasPrefix(t, "mkfs/") || HasPrefix(t, "format/")) }

  lemma {:induction false} AllSupported(id: string, letter: nat, ms: seq<Spec>, files: set<string>)
    requires letter < 256
    ensures TransformAll(id, letter, ms, files).Some? <==> forall i :: 0 <= i < |ms| ==> Supported(ms[i].fstype)
    decreases |ms|
  {
    if ms != [] {
      AllSupported(id, LetterAfter(letter, ms[0]), ms[1..], files);
      assert TransformMount(id, letter, ms[0], files).Some? <==> Supported(ms[0].fstype);
      assert forall i :: 1 <= i < |ms| ==> ms[i] == ms[1..][i - 1];
    }
  }

  // A request is accepted exactly when every type is supported and it needs at most ten disks.
  lemma AcceptedExactly(id: string, ms: seq<Spec>, files: set<string>)
    ensures TransformMounts(id, ms, files).Some? <==>
            (forall i :: 0 <= i < |ms| ==> Supported(ms[i].fstype)) && |Devices(ms)| <= MAX_DISKS
  {
    AllSupported(id, FIRST_LETTER, ms, files);
    if TransformAll(id, FIRST_LETTER, ms, files).Some? { DisksInStep(id, FIRST_LETTER, ms, files); }
  }

  // ---------------------------------------------------------------- what the guest and the VM are told

  lemma {:induction false} WithoutMeans(options: seq<string>, w: string, o: string)
    ensures o in Without(options, w) <==> o in options && o != w
  {
    if options != [] { WithoutMeans(options[1..], w, o); }
  }

  lemma {:induction false} WithoutPrefixMeans(options: seq<string>, w: string, o: string)
    ensures o in WithoutPrefix(options, w) <==> o in options && !HasPrefix(o, w)
  {
    if options != [] { WithoutPrefixMeans(options[1..], w, o); }
  }

  // The guest sees every option but "loop" and, for EROFS, the host's device paths.
  lemma GuestOptions(id: string, letter: nat, m: Spec, files: set<string>, o: string)
    requires letter < 256 && UsesDisk(m.fstype)
    ensures var guest := TransformMount(id, letter, m, files).value.mounts[0];
            o in guest.options <==> o in m.options && o != "loop" && !(IsErofs(m.fstype) && HasPrefix(o, "device="))
  {
    WithoutPrefixMeans(m.options, "device=", o);
    WithoutMeans(WithoutPrefix(m.options, "device="), "loop", o);
    WithoutMeans(m.options, "loop", o);
  }

  lemma {:induction false} OtherMountsPassAll(id: string, letter: nat, ms: seq<Spec>, files: set<string>, m: Spec)
    requires letter < 256 && TransformAll(id, letter, ms, files).Some?
    requires m in ms && !UsesDisk(m.fstype) && !IsOverlay(m.fstype)
    ensures m in TransformAll(id, letter, ms, files).value.mounts
    decreases |ms|
  {
    var first := TransformMount(id, letter, ms[0], files).value;
    if m == ms[0] {
      assert m in first.mounts;
    } else {
      OtherMountsPassAll(id, LetterAfter(letter, ms[0]), ms[1..], files, m);
    }
  }

  // A mount that is neither disk-backed nor an overlay reaches the guest as it is.
  lemma OtherMountsPass(id: string, ms: seq<Spec>, files: set<string>, m: Spec)
    requires TransformMounts(id, ms, files).Some? && m in ms && !UsesDisk(m.fstype) && !IsOverlay(m.fstype)
    ensures m in TransformMounts(id, ms, files).value.mounts
  {
    OtherMountsPassAll(id, FIRST_LETTER, ms, files, m);
  }

  predicate IsUpper(opt: string) { HasPrefix(opt, "upperdir=") }

  predicate IsWork(opt: string) { HasPrefix(opt, "workdir=") }

  // A directory of the host, not a template.
  predicate IsHostDir(opt: string) { !T.HasBraces(opt) && (IsUpper(opt) || IsWork(opt)) }

  // The lower directories are a range of mounts.
  predicate IsRange(opt: string) { HasPrefix(opt, "lowerdir=") && T.HasBraces(opt) && FindOverlay(opt).Some? }

  // Some of the first n options starts like this.
  predicate Names(options: seq<string>, n: nat, prefix: string)
    requires n <= |options|
  {
    exists i :: 0 <= i < n && HasPrefix(options[i], prefix)
  }

  predicate NamesHostDir(options: seq<string>, n: nat)
    requires n <= |options|
  {
    exists i :: 0 <= i < n && IsHostDir(options[i])
  }

  predicate NamesRange(options: seq<string>, n: nat)
    requires n <= |options|
  {
    exists i :: 0 <= i < n && IsRange(options[i])
  }

  lemma PrefixesDiffer(opt: string)
    ensures !(HasPrefix(opt, "upperdir=") && HasPrefix(opt, "workdir="))
    ensures !(HasPrefix(opt, "upperdir=") && HasPrefix(opt, "lowerdir="))
    ensures !(HasPrefix(opt, "workdir=") && HasPrefix(opt, "lowerdir="))
  {
    if opt != "" { assert "upperdir="[0] == 'u' && "workdir="[0] == 'w' && "lowerdir="[0] == 'l'; }
  }

  lemma OneMoreOption(options: seq<string>, n: nat)
    requires n < |options|
    ensures Names(options, n + 1, "upperdir=") <==> Names(options, n, "upperdir=") || IsUpper(options[n])
    ensures Names(options, n + 1, "workdir=") <==> Names(options, n, "workdir=") || IsWork(options[n])
    ensures NamesHostDir(options, n + 1) <==> NamesHostDir(options, n) || IsHostDir(options[n])
    ensures NamesRange(options, n + 1) <==> NamesRange(options, n) || IsRange(options[n])
  {
  }

  lemma OptionIsSeen(a: Analysis, i: nat, opt: string)
    ensures var b := Analyze(a, i, opt);
            && (b.upper >= 0 <==> a.upper >= 0 || IsUpper(opt)) && (b.work >= 0 <==> a.work >= 0 || IsWork(opt))
            && (b.transform <==> a.transform || IsHostDir(opt))
            && (b.overlayEnd >= 0 <==> a.overlayEnd >= 0 || IsRange(opt))
            && (b.lowerTemplate || b.overlayEnd < 0 || (a.overlayEnd >= 0 && !a.lowerTemplate))
  {
    PrefixesDiffer(opt);
  }

  lemma {:induction false} AnalysisMeans(options: seq<string>, n: nat)
    requires n <= |options|
    ensures var a := AnalyzeOptions(options, n);
            && (a.upper >= 0 <==> Names(options, n, "upperdir=")) && (a.work >= 0 <==> Names(options, n, "workdir="))
            && (a.transform <==> NamesHostDir(options, n))
            && (a.overlayEnd >= 0 <==> NamesRange(options, n)) && (a.overlayEnd >= 0 ==> a.lowerTemplate)
  {
    if n > 0 {
      AnalysisMeans(options, n - 1);
      OneMoreOption(options, n - 1);
      OptionIsSeen(AnalyzeOptions(options, n - 1), n - 1, options[n - 1]);
    }
  }

  // An overlay of the request gets a tmpfs for its upper and work directories if and only if it names both, one
  // of them is a directory of the host, and its lower directories are a range of mounts; otherwise it reaches
  // the guest as it is.
  lemma OverlayMovesExactly(m: Spec)
    ensures var n := |m.options|;
            if && Names(m.options, n, "upperdir=") && Names(m.options, n, "workdir=")
               && NamesHostDir(m.options, n) && NamesRange(m.options, n)
            then |Overlay(m)| == 2 && Overlay(m)[0] == Spec("tmpfs", "tmpfs", "", ["mode=0755"])
            else Overlay(m) == [m]
  {
    AnalysisMeans(m.options, |m.options|);
  }

  // A disk is given to QEMU as VMDK exactly when its file is one, and a VMDK merged from the layers is
  // used if and only if it is there.
  lemma ErofsDisk(source: string, files: set<string>)
    ensures var b := ErofsBacking(source, files);
            && (b.1 <==> HasSuffix(b.0, ".vmdk"))
            && (b.0 != source <==>
                  HasSuffix(source, "fsmeta.erofs") && source[..|source| - 12] + "merged.vmdk" in files)
            && (b.0 != source ==> b.0 == source[..|source| - 12] + "merged.vmdk")
  {
    if HasSuffix(source, "fsmeta.erofs") {
      var stem := source[..|source| - 12];
      var merged := stem + "merged.vmdk";
      assert merged[|merged| - 5..] == "merged.vmdk"[6..] == ".vmdk";
      assert source == stem + "fsmeta.erofs";
      assert source[|source| - 1] == "fsmeta.erofs"[11] == 's';
      assert source[|source| - 5..][4] == source[|source| - 1];
      assert |merged| != |source|;
    }
  }
}
