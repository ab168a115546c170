// The {{source N}}, {{target N}}, {{mount N}} and {{overlay N M}} templates of guest mounts:
// the four-pass expansion of the code, and expansion of all templates at once.
module Templates {
  import opened Base
  import opened Text

  datatype ActiveMount = ActiveMount(source: string, target: string, mountPoint: string)

  datatype Kind = Source | Target | Mount | Overlay

  const ALL: set<Kind> := {Source, Target, Mount, Overlay}

  function Name(k: Kind): (r: string)
    ensures |r| >= 5
  {
    match k
    case Source => "source"
    case Target => "target"
    case Mount => "mount"
    case Overlay => "overlay"
  }

  // ---------------------------------------------------------------- matching one pattern

  // \s of the regular expressions
  predicate Blank(c: char) { c == ' ' || c == '\t' || c == '\n' || c == '\r' || c as int == 12 }

  // The first position from i on that is not white space / not a digit.
  function BlankEnd(s: string, i: nat): (j: nat)
    requires i <= |s|
    ensures i <= j <= |s|
    decreases |s| - i
  {
    if i == |s| || !Blank(s[i]) then i else BlankEnd(s, i + 1)
  }

  function DigitEnd(s: string, i: nat): (j: nat)
    requires i <= |s|
    ensures i <= j <= |s|
    decreases |s| - i
  {
    if i == |s| || !IsDigit(s[i]) then i else DigitEnd(s, i + 1)
  }

  // len: characters matched; i, j: the captured indices (j only of an overlay).
  datatype Match = Match(len: nat, i: nat, j: nat)

  predicate StartsAt(s: string, i: nat, w: string) { i + |w| <= |s| && s[i..i + |w|] == w }

  // White space and then digits, from position i: where the digits start and end.
  function Number(s: string, i: nat): (r: Option<(nat, nat)>)
    requires i <= |s|
    ensures r.Some? ==> i < r.value.0 < r.value.1 <= |s|
  {
    var a := BlankEnd(s, i);
    var b := DigitEnd(s, a);
    if a > i && b > a then Some((a, b)) else None
  }

  predicate Opens(s: string) { |s| >= 2 && s[0] == '{' && s[1] == '{' }

  predicate ClosesAt(s: string, i: nat) { i + 2 <= |s| && s[i] == '}' && s[i + 1] == '}' }

  // One captured number, or two, from position i.
  function Numbers(s: string, i: nat, two: bool): (r: Option<Match>)
    requires i <= |s|
    ensures r.Some? ==> i < r.value.len <= |s|
  {
    var n := Number(s, i);
    if n.None? then None
    else if !two then Some(Match(n.value.1, Decimal(s[n.value.0..n.value.1]), 0))
    else
      var m := Number(s, n.value.1);
      if m.None? then None
      else Some(Match(m.value.1, Decimal(s[n.value.0..n.value.1]), Decimal(s[m.value.0..m.value.1])))
  }

  // Optional white space and the closing braces, after the numbers.
  function Closed(s: string, n: Option<Match>): (r: Option<Match>)
    requires n.Some? ==> n.value.len <= |s|
    ensures r.Some? ==> n.Some? && n.value.len + 2 <= r.value.len <= |s|
  {
    if n.None? then None
    else
      var c := BlankEnd(s, n.value.len);
      if ClosesAt(s, c) then Some(Match(c + 2, n.value.i, n.value.j)) else None
  }

  function Rest(s: string, i: nat, two: bool): (r: Option<Match>)
    requires i <= |s|
    ensures r.Some? ==> i + 2 < r.value.len <= |s|
  {
    Closed(s, Numbers(s, i, two))
  }

  // The match, at the start of s, of the pattern for a name and one or two numbers.
  function MatchNamed(s: string, name: string, two: bool): (r: Option<Match>)
    ensures r.Some? ==> 2 < r.value.len <= |s|
  {
    if !Opens(s) then None
    else
      var a := BlankEnd(s, 2);
      if StartsAt(s, a, name) then Rest(s, a + |name|, two) else None
  }

  function MatchAt(s: string, k: Kind): (r: Option<Match>)
    ensures r.Some? ==> 2 < r.value.len <= |s|
  {
    MatchNamed(s, Name(k), k == Overlay)
  }

  // ---------------------------------------------------------------- values

  // Mount points from start to end, upwards or downwards.
  function MountPoints(start: nat, end: nat, mounts: seq<ActiveMount>): (r: seq<string>)
    requires start < |mounts| && end < |mounts|
    ensures start <= end ==> |r| == end - start + 1 && forall k :: 0 <= k < |r| ==> r[k] == mounts[start + k].mountPoint
    ensures start > end ==> |r| == start - end + 1 && forall k :: 0 <= k < |r| ==> r[k] == mounts[start - k].mountPoint
  {
    if start <= end then seq(end - start + 1, k requires 0 <= k <= end - start => mounts[start + k].mountPoint)
    else seq(start - end + 1, k requires 0 <= k <= start - end => mounts[start - k].mountPoint)
  }

  function OverlayDirs(start: nat, end: nat, mounts: seq<ActiveMount>): Option<string> {
    if start >= |mounts| || end >= |mounts| then None else Some(Join(MountPoints(start, end, mounts), ":"))
  }

  // buildOverlayDirs
  method BuildOverlayDirs(start: nat, end: nat, mounts: seq<ActiveMount>) returns (r: Option<string>)
    ensures r == OverlayDirs(start, end, mounts)
  {
    var dirs: seq<string> := [];
    if start > end {
      if start >= |mounts| { return None; }
      var i: int := start;
      while i >= end
        invariant end - 1 <= i <= start
        invariant |dirs| == start - i && forall k :: 0 <= k < |dirs| ==> dirs[k] == mounts[start - k].mountPoint
      {
        dirs := dirs + [mounts[i].mountPoint];
        i := i - 1;
      }
    } else {
      if end >= |mounts| { return None; }
      var i := start;
      while i <= end
        invariant start <= i <= end + 1
        invariant |dirs| == i - start && forall k :: 0 <= k < |dirs| ==> dirs[k] == mounts[start + k].mountPoint
      {
        dirs := dirs + [mounts[i].mountPoint];
        i := i + 1;
      }
    }
    assert dirs == MountPoints(start, end, mounts);
    return Some(Join(dirs, ":"));
  }

  // What a matched template stands for; None when an index is out of bounds.
  function Value(k: Kind, m: Match, mounts: seq<ActiveMount>): Option<string> {
    match k
    case Overlay => OverlayDirs(m.i, m.j, mounts)
    case Source => if m.i < |mounts| then Some(mounts[m.i].source) else None
    case Target => if m.i < |mounts| then Some(mounts[m.i].target) else None
    case Mount => if m.i < |mounts| then Some(mounts[m.i].mountPoint) else None
  }

  // ---------------------------------------------------------------- substitution

  // The pattern of K that matches at the start of s.
  function Find(s: string, K: set<Kind>): (r: Option<(Kind, Match)>)
    ensures r.Some? ==> r.value.0 in K && MatchAt(s, r.value.0) == Some(r.value.1)
    ensures r.None? ==> forall k :: k in K ==> MatchAt(s, k).None?
  {
    if Source in K && MatchAt(s, Source).Some? then Some((Source, MatchAt(s, Source).value))
    else if Target in K && MatchAt(s, Target).Some? then Some((Target, MatchAt(s, Target).value))
    else if Mount in K && MatchAt(s, Mount).Some? then Some((Mount, MatchAt(s, Mount).value))
    else if Overlay in K && MatchAt(s, Overlay).Some? then Some((Overlay, MatchAt(s, Overlay).value))
    else None
  }

  function Prepend(v: string, r: Option<string>): Option<string> {
    if r.None? then None else Some(v + r.value)
  }

  // Leftmost, non-overlapping replacement of every template whose kind is in K.
  function Substitute(s: string, K: set<Kind>, mounts: seq<ActiveMount>): Option<string>
    decreases |s|
  {
    if s == "" then Some("")
    else
      var f := Find(s, K);
      if f.None? then Prepend([s[0]], Substitute(s[1..], K, mounts))
      else
        var v := Value(f.value.0, f.value.1, mounts);
        if v.None? then None
        else Prepend(v.value, Substitute(s[f.value.1.len..], K, mounts))
  }

  function Then(r: Option<string>, k: Kind, mounts: seq<ActiveMount>): Option<string> {
    if r.None? then None else Substitute(r.value, {k}, mounts)
  }

  predicate HasBraces(s: string) { exists i :: 0 <= i < |s| - 1 && s[i] == '{' && s[i + 1] == '{' }

  // No template marker may be left over.
  function Checked(r: Option<string>): Option<string> {
    if r.None? || HasBraces(r.value) then None else r
  }

  // formatString: one pass per pattern, each over the result of the one before.
  function FourPasses(s: string, mounts: seq<ActiveMount>): Option<string> {
    var sources := Substitute(s, {Source}, mounts);
    Checked(Then(Then(Then(sources, Target, mounts), Mount, mounts), Overlay, mounts))
  }

  // A string without the marker is left alone.
  function Format(s: string, mounts: seq<ActiveMount>): Option<string> {
    if HasBraces(s) then FourPasses(s, mounts) else Some(s)
  }
}
