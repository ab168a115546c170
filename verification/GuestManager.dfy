// The guest's mounting code as methods over the guest they change.
module GuestManager {
  import opened Base
  import opened Text
  import opened HostMounts
  import opened GuestMounts
  import T = Templates

  // The guest's file system as the log of operations on it; works(n): the outcome of the n-th one.
  class Guest {
    var ops: seq<Op>
    const works: nat -> bool

    constructor (works: nat -> bool)
      ensures ops == [] && this.works == works
    {
      ops := [];
      this.works := works;
    }

    method Do(op: Op) returns (ok: bool)
      modifies this
      ensures Done(ops, ok) == Try(old(ops), op, works)
    {
      ok := works(|ops|);
      ops := ops + [op];
    }

    // applyMkdirSpecs
    method ApplyMkdirSpecs(specs: seq<Mkdir>) returns (ok: bool)
      modifies this
      ensures Done(ops, ok) == MakeDirs(specs, old(ops), works)
    {
      var i := 0;
      assert specs[0..] == specs;
      while i < |specs|
        invariant 0 <= i <= |specs|
        invariant MakeDirs(specs, old(ops), works) == MakeDirs(specs[i..], ops, works)
      {
        var s := specs[i];
        assert specs[i..][0] == s && specs[i..][1..] == specs[i + 1..];
        ok := Do(MakeDir(s.path, s.mode));
        if !ok { return; }
        if s.uid != -1 || s.gid != -1 {
          ok := Do(Chown(s.path, s.uid, s.gid));
          if !ok { return; }
        }
        i := i + 1;
      }
      ok := true;
    }

    // cleanupMounts: goes on after a failed unmount, and reports that there was one.
    method CleanupMounts(active: seq<Active>) returns (ok: bool)
      modifies this
      ensures ops == old(ops) + Unmounts(active)
      ensures ok == forall n :: old(|ops|) <= n < |ops| ==> works(n)
    {
      ok := true;
      var i := |active|;
      assert active[..i] == active && ops + Unmounts(active) == old(ops) + Unmounts(active);
      while i > 0
        invariant 0 <= i <= |active| && old(|ops|) <= |ops|
        invariant ops + Unmounts(active[..i]) == old(ops) + Unmounts(active)
        invariant ok == forall n :: old(|ops|) <= n < |ops| ==> works(n)
      {
        i := i - 1;
        assert active[..i + 1][..i] == active[..i];
        if active[i].spec.fstype != "mkdir" {
          var unmounted := Do(Unmount(active[i].mountPoint));
          assert ops + Unmounts(active[..i]) ==
                 ops[..|ops| - 1] + ([Unmount(active[i].mountPoint)] + Unmounts(active[..i]));
          if !unmounted { ok := false; }
        }
      }
      assert ops + [] == ops;
    }

    // One component: its directory, its templates, the directories it asks for, and the mount.
    method MountComponent(m: Spec, i: nat, n: nat, rootfs: string, mdir: string, active: seq<Active>)
      returns (mounted: Option<Spec>)
      modifies this
      ensures Stage(ops, mounted) == MountOne(m, i, n, rootfs, mdir, active, old(ops), works)
    {
      if i + 1 < n {
        var made := Do(MakeDir(Target(mdir, i), 0x1E8));
        if !made { return None; }
      }
      var p := Prepare(m, active, mdir);
      if p.None? { return None; }
      var dirs := ApplyMkdirSpecs(p.value.mkdirs);
      if !dirs { return None; }
      var ok := Do(DoMount(p.value.spec, PointOf(i, n, rootfs, mdir)));
      mounted := if ok then Some(p.value.spec) else None;
    }

    // All
    method All(rootfs: string, mdir: string, mounts: seq<Spec>) returns (r: Option<seq<Active>>)
      modifies this
      ensures var o := MountFrom(mounts, 0, rootfs, mdir, [], old(ops), works);
              ops == o.ops && r == if o.Mounted? then Some(o.active) else None
    {
      var active: seq<Active> := [];
      var i := 0;
      while i < |mounts|
        invariant 0 <= i <= |mounts|
        invariant MountFrom(mounts, 0, rootfs, mdir, [], old(ops), works) ==
                  MountFrom(mounts, i, rootfs, mdir, active, ops, works)
      {
        var mounted := MountComponent(mounts[i], i, |mounts|, rootfs, mdir, active);
        if mounted.None? {
          var cleaned := CleanupMounts(active);
          return None;
        }
        active := active + [Active(mounted.value, PointOf(i, |mounts|, rootfs, mdir))];
        i := i + 1;
      }
      r := Some(active);
    }
  }

  // applyFormatSubstitution on the options of a mount
  method FormatOptions(options: seq<string>, active: seq<T.ActiveMount>) returns (r: Option<seq<string>>)
    ensures r == FormatAll(options, active)
  {
    var done: seq<string> := [];
    var i := 0;
    ghost var whole := FormatAll(options, active);
    assert options[0..] == options;
    assert whole.Some? ==> [] + whole.value == whole.value;
    while i < |options|
      invariant 0 <= i <= |options|
      invariant whole.None? == FormatAll(options[i..], active).None?
      invariant whole.Some? ==> whole.value == done + FormatAll(options[i..], active).value
    {
      var s := T.Format(options[i], active);
      assert options[i..][0] == options[i] && options[i..][1..] == options[i + 1..];
      if s.None? { return None; }
      done := done + [s.value];
      i := i + 1;
    }
    assert done + [] == done;
    r := Some(done);
  }

  ghost function After(acc: Mkdirs, rest: Option<Mkdirs>): Option<Mkdirs> {
    if rest.None? then None
    else Some(Mkdirs(acc.remaining + rest.value.remaining, acc.specs + rest.value.specs))
  }

  lemma AfterNothing(r: Option<Mkdirs>)
    ensures After(Mkdirs([], []), r) == r
  {
    if r.Some? { assert [] + r.value.remaining == r.value.remaining && [] + r.value.specs == r.value.specs; }
  }

  lemma AfterOption(acc: Mkdirs, opt: string, base: string, rest: Option<Mkdirs>)
    ensures After(acc, AddOption(opt, base, rest)) ==
            if !HasPrefix(opt, MKDIR) then After(acc.(remaining := acc.remaining + [opt]), rest)
            else if ParseMkdir(opt, base).None? then None
            else After(acc.(specs := acc.specs + [ParseMkdir(opt, base).value]), rest)
  {
    if rest.Some? {
      assert acc.remaining + ([opt] + rest.value.remaining) == acc.remaining + [opt] + rest.value.remaining;
      assert ParseMkdir(opt, base).Some? ==>
        acc.specs + ([ParseMkdir(opt, base).value] + rest.value.specs) ==
        acc.specs + [ParseMkdir(opt, base).value] + rest.value.specs;
    }
  }

  // processMkdirOptions
  method ProcessMkdirOptions(options: seq<string>, base: string) returns (r: Option<Mkdirs>)
    ensures r == ProcessMkdirs(options, base)
  {
    var acc := Mkdirs([], []);
    var i := 0;
    assert options[0..] == options;
    AfterNothing(ProcessMkdirs(options, base));
    while i < |options|
      invariant 0 <= i <= |options|
      invariant ProcessMkdirs(options, base) == After(acc, ProcessMkdirs(options[i..], base))
    {
      assert options[i..][0] == options[i] && options[i..][1..] == options[i + 1..];
      AfterOption(acc, options[i], base, ProcessMkdirs(options[i + 1..], base));
      if HasPrefix(options[i], MKDIR) {
        var spec := ParseMkdir(options[i], base);
        if spec.None? { return None; }
        acc := acc.(specs := acc.specs + [spec.value]);
      } else {
        acc := acc.(remaining := acc.remaining + [options[i]]);
      }
      i := i + 1;
    }
    assert acc.remaining + [] == acc.remaining && acc.specs + [] == acc.specs;
    r := Some(acc);
  }
}
