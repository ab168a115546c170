// The host's mount manager with its shared disk letter, and the VM it adds disks to.
module HostManager {
  import opened Base
  import opened Text
  import opened HostMounts

  // The disk letter that the handlers share and advance.
  class Letter {
    var next: nat

    constructor ()
      ensures next == FIRST_LETTER
    {
      next := FIRST_LETTER;
    }
  }

  // The VM under construction; works(n): whether the n-th AddDisk succeeds.
  class Vm {
    var disks: seq<Disk>
    const works: nat -> bool

    constructor (works: nat -> bool)
      ensures disks == [] && this.works == works
    {
      disks := [];
      this.works := works;
    }

    // Of the next n calls of AddDisk, after the given number of them: how many succeed before one fails.
    ghost function Accepted(after: nat, n: nat): (r: nat)
      ensures r <= n && (forall k :: after <= k < after + r ==> works(k)) && (r < n ==> !works(after + r))
      decreases n
    {
      if n == 0 || !works(after) then 0 else 1 + Accepted(after + 1, n - 1)
    }

    method AddDisk(d: Disk) returns (ok: bool)
      modifies this
      ensures ok == works(old(|disks|))
      ensures disks == if ok then old(disks) + [d] else old(disks)
    {
      ok := works(|disks|);
      if ok { disks := disks + [d]; }
    }
  }

  method FilterOut(options: seq<string>) returns (filtered: seq<string>)
    ensures filtered == FilterOptions(options)
  {
    filtered := [];
    for i := 0 to |options|
      invariant Without(options, "loop") == filtered + Without(options[i..], "loop")
    {
      if options[i] != "loop" { filtered := filtered + [options[i]]; }
    }
    assert filtered + [] == filtered;
  }

  method WithoutDevices(options: seq<string>) returns (filtered: seq<string>)
    ensures filtered == WithoutPrefix(options, "device=")
  {
    filtered := [];
    for i := 0 to |options|
      invariant WithoutPrefix(options, "device=") == filtered + WithoutPrefix(options[i..], "device=")
    {
      if !HasPrefix(options[i], "device=") { filtered := filtered + [options[i]]; }
    }
    assert filtered + [] == filtered;
  }

  method HandleEROFS(id: string, disks: Letter, m: Spec, files: set<string>) returns (p: Plan)
    requires disks.next < 256
    modifies disks
    ensures p == Erofs(id, old(disks.next), m, files)
    ensures disks.next == NextLetter(old(disks.next))
  {
    var backing := ErofsBacking(m.source, files);
    var name := DiskName(disks.next, id);
    var guestOptions := WithoutDevices(m.options);
    var options := FilterOut(guestOptions);
    p := Plan([Spec("erofs", Device(disks.next), m.target, options)], [Disk(name, backing.0, true, backing.1)]);
    disks.next := (disks.next + 1) % 256;
  }

  // A mount of the request.
  class Mount {
    const fstype: string
    const source: string
    const target: string
    var options: seq<string>

    ghost function Value(): Spec
      reads this
    {
      Spec(fstype, source, target, options)
    }
  }

  ghost function Values(ms: seq<Mount>): (r: seq<Spec>)
    reads ms
    ensures |r| == |ms| && forall i :: 0 <= i < |ms| ==> r[i] == ms[i].Value()
  {
    if ms == [] then [] else Values(ms[..|ms| - 1]) + [ms[|ms| - 1].Value()]
  }

  // What is left of a mount of the request: the options of an ext4 mount are filtered in place.
  function Left(m: Spec): Spec { if m.fstype == "ext4" then m.(options := FilterOptions(m.options)) else m }

  lemma {:induction false} FilteredOnce(options: seq<string>)
    ensures FilterOptions(FilterOptions(options)) == FilterOptions(options)
  {
    if options != [] {
      FilteredOnce(options[1..]);
      var rest := FilterOptions(options[1..]);
      assert ([options[0]] + rest)[1..] == rest && [] + rest == rest;
    }
  }

  lemma {:induction false} StaysIn(options: seq<string>, o: string)
    requires o != "loop"
    ensures o in FilterOptions(options) <==> o in options
  {
    if options != [] {
      StaysIn(options[1..], o);
      assert options == [options[0]] + options[1..];
    }
  }

  // A mount that appears twice in the request is transformed as if its options had not changed.
  lemma LeftIsTransformed(id: string, letter: nat, m: Spec, files: set<string>)
    requires letter < 256
    ensures TransformMount(id, letter, Left(m), files) == TransformMount(id, letter, m, files)
    ensures Left(Left(m)) == Left(m)
  {
    FilteredOnce(m.options);
    StaysIn(m.options, "ro");
    StaysIn(m.options, "readonly");
  }

  method HandleExt4(id: string, disks: Letter, m: Mount) returns (p: Plan)
    requires disks.next < 256 && m.fstype == "ext4"
    modifies disks, m
    ensures p == Ext4(id, old(disks.next), old(m.Value()))
    ensures |p.disks| == 1 && (p.disks[0].readOnly <==> "ro" in old(m.options) || "readonly" in old(m.options))
    ensures disks.next == NextLetter(old(disks.next)) && m.Value() == Left(old(m.Value()))
  {
    var name := DiskName(disks.next, id);
    var readOnly := false;
    var i := 0;
    while i < |m.options| && !readOnly
      invariant 0 <= i <= |m.options| && disks.next == old(disks.next) && m.options == old(m.options)
      invariant readOnly == ("ro" in m.options[..i] || "readonly" in m.options[..i])
    {
      if m.options[i] == "ro" || m.options[i] == "readonly" { readOnly := true; }
      i := i + 1;
    }
    assert !readOnly ==> m.options[..i] == m.options;
    m.options := FilterOut(m.options);
    p := Plan([Spec("ext4", Device(disks.next), m.target, m.options)], [Disk(name, m.source, readOnly, false)]);
    disks.next := (disks.next + 1) % 256;
  }

  method TransformOne(id: string, disks: Letter, m: Mount, files: set<string>) returns (p: Option<Plan>)
    requires disks.next < 256
    modifies disks, m
    ensures p == TransformMount(id, old(disks.next), old(m.Value()), files)
    ensures disks.next == LetterAfter(old(disks.next), old(m.Value())) && m.Value() == Left(old(m.Value()))
  {
    var spec := Spec(m.fstype, m.source, m.target, m.options);
    if IsErofs(m.fstype) {
      var q := HandleEROFS(id, disks, spec, files);
      p := Some(q);
    } else if m.fstype == "ext4" {
      var q := HandleExt4(id, disks, m);
      p := Some(q);
    } else if IsOverlay(m.fstype) {
      p := Some(Plan(Overlay(spec), []));
    } else if HasPrefix(m.fstype, "mkfs/") || HasPrefix(m.fstype, "format/") {
      p := None;
    } else {
      p := Some(Plan([spec], []));
    }
  }

  // One turn of the loop over the mounts; specs: the mounts as they were before it.
  method TransformNext(id: string, disks: Letter, m: Mount, files: set<string>, acc: Plan,
                       ghost specs: seq<Spec>, ghost i: nat) returns (ok: bool, more: Plan)
    requires disks.next < 256 && i < |specs| && (m.Value() == specs[i] || m.Value() == Left(specs[i]))
    modifies disks, m
    ensures disks.next < 256 && m.Value() == Left(specs[i])
    ensures AppendTo(acc, TransformAll(id, old(disks.next), specs[i..], files)) ==
            if ok then AppendTo(more, TransformAll(id, disks.next, specs[i + 1..], files)) else None
  {
    LeftIsTransformed(id, disks.next, specs[i], files);
    OneMore(id, disks.next, specs, i, acc, files);
    var q := TransformOne(id, disks, m, files);
    ok, more := q.Some?, acc;
    if ok { more := Append(acc, q.value); }
  }

  method TransformEach(id: string, ms: seq<Mount>, files: set<string>) returns (p: Option<Plan>)
    modifies ms
    ensures p == TransformAll(id, FIRST_LETTER, old(Values(ms)), files)
    ensures forall m :: m in ms ==> m.Value() == old(m.Value()) || m.Value() == Left(old(m.Value()))
    ensures p.Some? ==> forall m :: m in ms ==> m.Value() == Left(old(m.Value()))
  {
    var disks := new Letter();
    var acc := Plan([], []);
    var i := 0;
    ghost var specs := old(Values(ms));
    ghost var done: set<Mount> := {};
    ghost var whole := TransformAll(id, FIRST_LETTER, specs, files);
    AppendNothing(whole);
    assert specs[0..] == specs;
    while i < |ms|
      invariant 0 <= i <= |ms| && disks.next < 256
      invariant forall m :: m in ms ==> m.Value() == if m in done then Left(old(m.Value())) else old(m.Value())
      invariant forall k :: 0 <= k < i ==> ms[k] in done
      invariant whole == AppendTo(acc, TransformAll(id, disks.next, specs[i..], files))
    {
      var ok, more := TransformNext(id, disks, ms[i], files, acc, specs, i);
      if !ok { return None; }
      acc, done, i := more, done + {ms[i]}, i + 1;
      assert ms[i - 1] in done;
    }
    NoneLeft(id, disks.next, specs[i..], acc, files);
    p := Some(acc);
  }

  lemma NoneLeft(id: string, letter: nat, rest: seq<Spec>, acc: Plan, files: set<string>)
    requires letter < 256 && |rest| == 0
    ensures AppendTo(acc, TransformAll(id, letter, rest, files)) == Some(acc)
  {
    assert acc.mounts + [] == acc.mounts && acc.disks + [] == acc.disks;
  }

  ghost function AppendTo(acc: Plan, rest: Option<Plan>): Option<Plan> {
    if rest.None? then None else Some(Append(acc, rest.value))
  }

  // The mount at i comes first of those that are left.
  lemma OneMore(id: string, letter: nat, ms: seq<Spec>, i: nat, acc: Plan, files: set<string>)
    requires letter < 256 && i < |ms|
    ensures var q := TransformMount(id, letter, ms[i], files);
            AppendTo(acc, TransformAll(id, letter, ms[i..], files)) ==
            if q.None? then None
            else AppendTo(Append(acc, q.value), TransformAll(id, LetterAfter(letter, ms[i]), ms[i + 1..], files))
  {
    assert ms[i..][0] == ms[i] && ms[i..][1..] == ms[i + 1..];
    var q := TransformMount(id, letter, ms[i], files);
    if q.Some? { AppendIsAssociative(acc, q.value, TransformAll(id, LetterAfter(letter, ms[i]), ms[i + 1..], files)); }
  }

  lemma AppendNothing(r: Option<Plan>)
    ensures AppendTo(Plan([], []), r) == r
  {
    if r.Some? { assert [] + r.value.mounts == r.value.mounts && [] + r.value.disks == r.value.disks; }
  }

  lemma AppendIsAssociative(a: Plan, b: Plan, c: Option<Plan>)
    ensures AppendTo(a, AppendTo(b, c)) == AppendTo(Append(a, b), c)
  {
    if c.Some? { AppendAssociates(a, b, c.value); }
  }

  // Adds the disks in order and stops at the first that fails.
  method AddDisksToVM(vm: Vm, disks: seq<Disk>) returns (ok: bool)
    modifies vm
    ensures var k := vm.Accepted(old(|vm.disks|), |disks|);
            vm.disks == old(vm.disks) + disks[..k] && ok == (k == |disks|)
  {
    var i := 0;
    assert vm.disks == vm.disks + disks[..0];
    while i < |disks|
      invariant 0 <= i <= |disks|
      invariant vm.disks == old(vm.disks) + disks[..i]
      invariant forall k :: old(|vm.disks|) <= k < old(|vm.disks|) + i ==> vm.works(k)
    {
      var added := vm.AddDisk(disks[i]);
      if !added { return false; }
      assert disks[..i] + [disks[i]] == disks[..i + 1];
      i := i + 1;
    }
    ok := true;
  }

  // transformMounts: no disk is added when the request is refused, and those before the first that fails
  // when AddDisk fails.
  method Transform(vm: Vm, id: string, ms: seq<Mount>, files: set<string>) returns (r: Option<seq<Spec>>)
    modifies vm, ms
    ensures var plan := TransformMounts(id, old(Values(ms)), files);
            if plan.None? then r.None? && vm.disks == old(vm.disks)
            else
              var k := vm.Accepted(old(|vm.disks|), |plan.value.disks|);
              && vm.disks == old(vm.disks) + plan.value.disks[..k]
              && r == if k == |plan.value.disks| then Some(plan.value.mounts) else None
    ensures forall m :: m in ms ==> m.Value() == old(m.Value()) || m.Value() == Left(old(m.Value()))
  {
    var all := TransformEach(id, ms, files);
    if all.None? { return None; }
    var disks := all.value.disks;
    if |disks| > MAX_DISKS { return None; }
    var ok := AddDisksToVM(vm, disks);
    if !ok { return None; }
    r := Some(GenerateOverlay(all.value.mounts));
  }
}
