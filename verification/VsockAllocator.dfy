// The vsock CID allocator: lock files with metadata, a reuse cooldown, and any number of processes
// that allocate, release and crash.
module VsockAllocator {
  import opened Base

  const TWO32: nat := 0x1_0000_0000

  // Times are integers; a zero time of the source is None.
  datatype Meta = Meta(allocatedAt: Option<int>, releasedAt: Option<int>)

  const NO_META := Meta(None, None)

  // ---------------------------------------------------------------- cooling down

  // The time that the cooldown counts from.
  function LastUse(meta: Meta, mtime: Option<int>): Option<int> {
    if meta.releasedAt.Some? then meta.releasedAt
    else if meta.allocatedAt.Some? then meta.allocatedAt
    else mtime
  }

  predicate IsCoolingDown(now: int, meta: Meta, mtime: Option<int>, cooldown: int) {
    cooldown > 0 && LastUse(meta, mtime).Some? && now - LastUse(meta, mtime).value < cooldown
  }

  // ---------------------------------------------------------------- one scan

  // What writing metadata comes to: it fails before or after the file is emptied.
  datatype Written = Done | Untouched | Emptied

  // A lock file; holder: who holds the lock on it.
  datatype File = File(meta: Meta, mtime: int, holder: Option<nat>)

  // A write at the given time.
  function After(f: File, meta: Meta, w: Written, clock: int): File {
    match w
    case Done => f.(meta := meta, mtime := clock)
    case Untouched => f
    case Emptied => f.(meta := NO_META, mtime := clock)
  }

  function Seen(f: File, readable: bool): Meta { if readable then f.meta else NO_META }

  function ReleasedMeta(seen: Meta, now: int): Meta {
    Meta(Some(if seen.allocatedAt.Some? then seen.allocatedAt.value else now), Some(now))
  }

  class LockFile {
    var meta: Meta
    var mtime: int
    var holder: Option<nat>

    ghost function Value(): File
      reads this
    {
      File(meta, mtime, holder)
    }

    // writeMetadata: truncates, then encodes.
    method WriteMetadata(m: Meta, w: Written, clock: int) returns (ok: bool)
      modifies this
      ensures Value() == After(old(Value()), m, w, clock) && ok == (w == Done)
    {
      if w == Untouched { return false; }
      meta, mtime := NO_META, clock;
      if w == Emptied { return false; }
      meta := m;
      ok := true;
    }
  }

  class Lease {
    const cid: nat
    var file: LockFile?

    constructor (cid: nat, file: LockFile)
      ensures this.cid == cid && this.file == file
    {
      this.cid, this.file := cid, file;
    }

    // Release: the first call writes the release time and unlocks, whatever the write comes to; a
    // second call does nothing.
    method Release(readable: bool, w: Written, clock: int)
      modifies this, file
      ensures file == null
      ensures old(file) != null ==> var f := old(file);
              var was := old(file.Value());
              f.Value() == After(was, ReleasedMeta(Seen(was, readable), clock), w, clock).(holder := None)
    {
      if file == null { return; }
      var seen := if readable then file.meta else NO_META;
      var allocatedAt := if seen.allocatedAt.Some? then seen.allocatedAt.value else clock;
      var written := file.WriteMetadata(Meta(Some(allocatedAt), Some(clock)), w, clock);
      file.holder := None;
      file := null;
    }
  }

  // What a scan meets at one CID.
  datatype Probe = Probe(opens: bool, locks: bool, meta: Meta, mtime: Option<int>, written: Written)

  predicate Eligible(p: Probe, now: int, cooldown: int) {
    p.opens && p.locks && !IsCoolingDown(now, p.meta, p.mtime, cooldown) && p.written == Done
  }

  // The CID after k fruitless probes; CIDs are 32 bits wide.
  function Scan(min: nat, max: nat, k: nat): nat {
    if k == 0 then min
    else
      var c := Scan(min, max, k - 1);
      if c <= max then (c + 1) % TWO32 else c
  }

  ghost predicate Ends(min: nat, max: nat) { exists k: nat :: Scan(min, max, k) > max }

  class Allocator {
    const minCID: nat
    const maxCID: nat
    const cooldown: int

    constructor (minCID: nat, maxCID: nat, cooldown: int)
      ensures this.minCID == minCID && this.maxCID == maxCID && this.cooldown == cooldown
    {
      this.minCID, this.maxCID, this.cooldown := minCID, maxCID, cooldown;
    }

    // The first k probes were made, and found nothing.
    ghost predicate Fruitless(now: int, probe: nat -> Probe, k: nat) {
      forall j :: 0 <= j < k ==> Scan(minCID, maxCID, j) <= maxCID && !Eligible(probe(j), now, cooldown)
    }

    // The scan does not go on for ever: the range is left, or an eligible CID is probed.
    ghost predicate Returns(now: int, probe: nat -> Probe) {
      exists k: nat :: Scan(minCID, maxCID, k) > maxCID || Eligible(probe(k), now, cooldown)
    }

    // Allocate, with what the k-th probe meets: the CID of the first probe that finds one eligible, and an
    // error only if the range was left without.
    method Allocate(now: int, probe: nat -> Probe) returns (cid: Option<nat>)
      requires Returns(now, probe)
      ensures cid.Some? ==> exists k: nat ::
                && Fruitless(now, probe, k) && Eligible(probe(k), now, cooldown)
                && cid.value == Scan(minCID, maxCID, k) <= maxCID
      ensures cid.None? ==> exists k: nat :: Fruitless(now, probe, k) && Scan(minCID, maxCID, k) > maxCID
    {
      var c := minCID;
      ghost var last: nat :| Scan(minCID, maxCID, last) > maxCID || Eligible(probe(last), now, cooldown);
      var turn := 0;
      while c <= maxCID
        invariant c == Scan(minCID, maxCID, turn) && Fruitless(now, probe, turn)
        invariant turn <= last || Scan(minCID, maxCID, turn) > maxCID
        decreases last - turn
      {
        var p := probe(turn);
        if p.opens && p.locks && !IsCoolingDown(now, p.meta, p.mtime, cooldown) && p.written == Done {
          assert Eligible(probe(turn), now, cooldown);
          return Some(c);
        }
        assert turn != last;
        c, turn := (c + 1) % TWO32, turn + 1;
      }
      cid := None;
    }
  }

  lemma {:induction false} ScanCounts(min: nat, max: nat, k: nat)
    requires min <= max < TWO32 - 1 && min + k <= max + 1
    ensures Scan(min, max, k) == min + k
  {
    if k > 0 { ScanCounts(min, max, k - 1); }
  }

  lemma {:induction false} ScanWraps(min: nat, max: nat, k: nat)
    requires min < TWO32 && max == TWO32 - 1
    ensures Scan(min, max, k) <= max
  {
    if k > 0 { ScanWraps(min, max, k - 1); }
  }

  // A scan that finds nothing comes to an end exactly when the range stops short of the last 32-bit number.
  lemma ScanEnds(min: nat, max: nat)
    requires min < TWO32 && max < TWO32
    ensures Ends(min, max) <==> max < TWO32 - 1
  {
    if max < TWO32 - 1 {
      if min <= max {
        ScanCounts(min, max, max + 1 - min);
        assert Scan(min, max, max + 1 - min) > max;
      } else {
        assert Scan(min, max, 0) > max;
      }
    } else {
      forall k: nat ensures Scan(min, max, k) <= max { ScanWraps(min, max, k); }
    }
  }

  // So an allocation returns exactly when the range stops short of the last number, or some probe succeeds.
  lemma ReturnsExactly(a: Allocator, now: int, probe: nat -> Probe)
    requires a.minCID < TWO32 && a.maxCID < TWO32
    ensures a.Returns(now, probe) <==>
            a.maxCID < TWO32 - 1 || exists k: nat :: Eligible(probe(k), now, a.cooldown)
  {
    ScanEnds(a.minCID, a.maxCID);
    if a.maxCID < TWO32 - 1 {
      var k: nat :| Scan(a.minCID, a.maxCID, k) > a.maxCID;
    }
  }

  // In such a range the CIDs are probed in order, each once: the one returned is the lowest that was eligible
  // when probed, and there is an error only after all of them.
  lemma LowestIsTaken(a: Allocator, now: int, probe: nat -> Probe, k: nat)
    requires a.minCID <= a.maxCID < TWO32 - 1 && a.Fruitless(now, probe, k)
    ensures forall j: nat :: j <= k ==> Scan(a.minCID, a.maxCID, j) == a.minCID + j
    ensures Scan(a.minCID, a.maxCID, k) > a.maxCID ==> k == a.maxCID + 1 - a.minCID
  {
    var n := a.maxCID + 1 - a.minCID;
    ScanCounts(a.minCID, a.maxCID, n);
    assert k <= n;
    forall j: nat | j <= k ensures Scan(a.minCID, a.maxCID, j) == a.minCID + j {
      ScanCounts(a.minCID, a.maxCID, j);
    }
  }

  // In a range up to the last number the scan wraps around to CIDs below the range.
  lemma {:induction false} ScanLeavesRange(min: nat, k: nat)
    requires min < TWO32
    ensures Scan(min, TWO32 - 1, k) == (min + k) % TWO32
  {
    if k > 0 {
      ScanWraps(min, TWO32 - 1, k - 1);
      ScanLeavesRange(min, k - 1);
      NextModulo(min + k - 1);
    }
  }

  lemma NextModulo(n: nat)
    ensures (n % TWO32 + 1) % TWO32 == (n + 1) % TWO32
  {
    var q, r := n / TWO32, n % TWO32;
    assert n + 1 == q * TWO32 + (r + 1);
    if r + 1 == TWO32 { assert n + 1 == (q + 1) * TWO32; }
  }
}
