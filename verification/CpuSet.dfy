// Counting the CPUs of a cpuset(7) list.
module CpuSet {
  import opened Base
  import opened Text

  // {lo, .., hi}
  function Interval(lo: int, hi: int): (r: set<int>)
    ensures forall i :: i in r <==> lo <= i <= hi
    decreases hi - lo
  {
    if lo > hi then {} else Interval(lo, hi - 1) + {hi}
  }

  // The loop over a range after k turns; its variable is a 64-bit integer.
  function Turn(lo: int, hi: int, k: nat): int {
    if k == 0 then lo
    else
      var i := Turn(lo, hi, k - 1);
      if i <= hi then Wrap(i + 1) else i
  }

  ghost predicate Ends(lo: int, hi: int) { exists k: nat :: Turn(lo, hi, k) > hi }

  lemma {:induction false} TurnCounts(lo: int, hi: int, k: nat)
    requires 0 <= lo && lo + k <= hi + 1 <= MAX_INT
    ensures Turn(lo, hi, k) == lo + k
  {
    if k > 0 { TurnCounts(lo, hi, k - 1); }
  }

  lemma {:induction false} TurnWraps(lo: int, k: nat)
    requires 0 <= lo <= MAX_INT
    ensures Turn(lo, MAX_INT, k) <= MAX_INT
  {
    if k > 0 { TurnWraps(lo, k - 1); }
  }

  // The loop over a range comes to an end exactly when the range stops short of the largest integer.
  lemma RangeEnds(lo: int, hi: int)
    requires 0 <= lo <= hi <= MAX_INT
    ensures Ends(lo, hi) <==> hi < MAX_INT
  {
    if hi < MAX_INT {
      TurnCounts(lo, hi, hi + 1 - lo);
    } else {
      forall k: nat ensures Turn(lo, hi, k) <= hi { TurnWraps(lo, k); }
    }
  }

  // What a part, or a list, comes to. Endless: the loop over a range does not end.
  datatype Named = Named(cpus: set<int>) | Malformed | Endless

  // The CPUs one comma-separated part names.
  function PartCpus(raw: string): Named {
    var part := TrimSpace(raw);
    if part == "" then Named({})
    else
      var dash := Index(part, '-');
      if dash < |part| then
        var lo := Atoi(TrimSpace(part[..dash]));
        var hi := Atoi(TrimSpace(part[dash + 1..]));
        if lo.None? || lo.value < 0 then Malformed
        else if hi.None? || hi.value < 0 || hi.value < lo.value then Malformed
        else if hi.value == MAX_INT then Endless
        else Named(Interval(lo.value, hi.value))
      else
        var n := Atoi(part);
        if n.None? || n.value < 0 then Malformed else Named({n.value})
  }

  function AllParts(parts: seq<string>): (r: seq<Named>)
    ensures |r| == |parts| && forall k :: 0 <= k < |parts| ==> r[k] == PartCpus(parts[k])
  {
    seq(|parts|, k requires 0 <= k < |parts| => PartCpus(parts[k]))
  }

  // The union over the parts; the first part that names no CPUs decides.
  function Total(parts: seq<Named>): Named {
    if parts == [] then Named({})
    else
      var rest, last := Total(parts[..|parts| - 1]), parts[|parts| - 1];
      if !rest.Named? then rest
      else if !last.Named? then last
      else Named(rest.cpus + last.cpus)
  }

  function ListCpus(text: string): Named { Total(AllParts(Split(TrimSpace(text), ','))) }

  method AddRange(cpus: set<int>, lo: int, hi: int) returns (more: set<int>)
    requires 0 <= lo <= hi < MAX_INT
    ensures more == cpus + Interval(lo, hi)
  {
    more := cpus;
    var i := lo;
    while i <= hi
      invariant lo <= i <= hi + 1
      invariant more == cpus + Interval(lo, i - 1)
    {
      more := more + {i};
      i := Wrap(i + 1);
    }
  }

  // One turn of the parsing loop: the CPUs of a part are added to those seen so far.
  method AddPart(cpus: set<int>, raw: string) returns (ok: bool, more: set<int>)
    requires PartCpus(raw) != Endless
    ensures ok <==> PartCpus(raw).Named?
    ensures ok ==> more == cpus + PartCpus(raw).cpus
  {
    ok, more := true, cpus;
    var part := TrimSpace(raw);
    if part == "" { return; }
    var dash := Index(part, '-');
    if dash < |part| {
      var lo := Atoi(TrimSpace(part[..dash]));
      if lo.None? || lo.value < 0 { return false, more; }
      var hi := Atoi(TrimSpace(part[dash + 1..]));
      if hi.None? || hi.value < 0 || hi.value < lo.value { return false, more; }
      more := AddRange(cpus, lo.value, hi.value);
    } else {
      var cpu := Atoi(part);
      if cpu.None? || cpu.value < 0 { return false, more; }
      more := more + {cpu.value};
    }
  }

  // parseCPUSet, for every list on which it returns.
  method ParseCPUSet(text: string) returns (n: nat)
    requires ListCpus(text) != Endless
    ensures TrimSpace(text) == "" ==> n == 0
    ensures TrimSpace(text) != "" ==> n == if ListCpus(text).Named? then |ListCpus(text).cpus| else 0
  {
    var cpuset := TrimSpace(text);
    if cpuset == "" { return 0; }
    var cpus: set<int> := {};
    var parts := Split(cpuset, ',');
    ghost var all := AllParts(parts);
    for k := 0 to |parts|
      invariant Total(all[..k]) == Named(cpus)
    {
      if !all[k].Named? { FirstBadPartDecides(all, k); }
      var ok, more := AddPart(cpus, parts[k]);
      if !ok { return 0; }
      assert all[..k + 1][..k] == all[..k];
      cpus := more;
    }
    assert all[..|parts|] == all;
    return |cpus|;
  }

  // The first part that names no CPUs makes the whole list malformed, or is never left.
  lemma {:induction false} FirstBadPartDecides(parts: seq<Named>, k: nat)
    requires k < |parts| && Total(parts[..k]).Named? && !parts[k].Named?
    ensures Total(parts) == parts[k]
  {
    var n := |parts| - 1;
    if k < n {
      assert parts[..n][k] == parts[k] && parts[..n][..k] == parts[..k];
      FirstBadPartDecides(parts[..n], k);
    }
  }

  // ---------------------------------------------------------------- malformed lists

  // What strconv.Atoi takes for the natural number n: digits after an optional sign, within 64 bits.
  predicate Numeral(s: string, n: nat) {
    && n <= MAX_INT
    && (|| (AllDigits(s) && Decimal(s) == n)
        || (s != "" && s[0] == '+' && AllDigits(s[1..]) && Decimal(s[1..]) == n)
        || (s != "" && s[0] == '-' && AllDigits(s[1..]) && Decimal(s[1..]) == 0 == n))
  }

  // Two numerals around a dash, the second not below the first.
  predicate Dashed(a: string, b: string, lo: nat, hi: nat) {
    Numeral(TrimSpace(a), lo) && Numeral(TrimSpace(b), hi) && lo <= hi
  }

  // Nothing, a number, or two numbers around the first dash.
  ghost predicate WellFormed(raw: string) {
    var part := TrimSpace(raw);
    || part == ""
    || ('-' !in part && exists n :: Numeral(part, n))
    || exists a, b, lo, hi :: part == a + "-" + b && '-' !in a && Dashed(a, b, lo, hi)
  }

  lemma NumeralIsAtoi(s: string, n: nat)
    ensures Numeral(s, n) <==> Atoi(s) == Some(n)
  {
  }

  lemma DashSplits(part: string, a: string, b: string)
    requires part == a + "-" + b && '-' !in a
    ensures Index(part, '-') == |a| && part[..|a|] == a && part[|a| + 1..] == b
  {
    assert part == a + ['-'] + b;
    IndexAt(a, '-', b);
  }

  lemma DashedIsNamed(raw: string, a: string, b: string, lo: nat, hi: nat)
    requires TrimSpace(raw) == a + "-" + b && '-' !in a && Dashed(a, b, lo, hi)
    ensures !PartCpus(raw).Malformed?
  {
    DashSplits(TrimSpace(raw), a, b);
    NumeralIsAtoi(TrimSpace(a), lo);
    NumeralIsAtoi(TrimSpace(b), hi);
  }

  lemma NumberIsNamed(raw: string, n: nat)
    requires '-' !in TrimSpace(raw) && Numeral(TrimSpace(raw), n)
    ensures !PartCpus(raw).Malformed?
  {
    NumeralIsAtoi(TrimSpace(raw), n);
  }

  lemma NamedIsWellFormed(raw: string)
    requires !PartCpus(raw).Malformed?
    ensures WellFormed(raw)
  {
    var part := TrimSpace(raw);
    var dash := Index(part, '-');
    if part != "" && dash < |part| {
      var a, b := part[..dash], part[dash + 1..];
      var lo, hi := NumbersAroundDash(a, b, Atoi(TrimSpace(a)), Atoi(TrimSpace(b)));
      assert part == a + "-" + b && '-' !in a;
    } else if part != "" {
      NumeralIsAtoi(part, Atoi(part).value);
    }
  }

  lemma NumbersAroundDash(a: string, b: string, x: Option<int>, y: Option<int>) returns (lo: nat, hi: nat)
    requires x == Atoi(TrimSpace(a)) && y == Atoi(TrimSpace(b)) && x.Some? && y.Some? && 0 <= x.value <= y.value
    ensures Dashed(a, b, lo, hi)
  {
    lo, hi := x.value, y.value;
    NumeralIsAtoi(TrimSpace(a), lo);
    NumeralIsAtoi(TrimSpace(b), hi);
  }

  // A part is malformed exactly when it is none of the three.
  lemma MalformedPart(raw: string)
    ensures PartCpus(raw).Malformed? <==> !WellFormed(raw)
  {
    if !PartCpus(raw).Malformed? { NamedIsWellFormed(raw); }
    var part := TrimSpace(raw);
    if '-' !in part && exists n :: Numeral(part, n) {
      var n :| Numeral(part, n);
      NumberIsNamed(raw, n);
    } else if a, b, lo, hi :| part == a + "-" + b && '-' !in a && Dashed(a, b, lo, hi) {
      DashedIsNamed(raw, a, b, lo, hi);
    }
  }

  // Some part is malformed, and no loop before it fails to end.
  ghost predicate BreaksOff(parts: seq<string>) {
    exists k :: 0 <= k < |parts| && !WellFormed(parts[k]) && forall j :: 0 <= j < k ==> PartCpus(parts[j]) != Endless
  }

  lemma {:induction false} FirstBad(parts: seq<Named>, k: nat) returns (j: nat)
    requires k < |parts| && !parts[k].Named?
    ensures j <= k && !parts[j].Named? && Total(parts[..j]).Named?
    decreases k
  {
    j := k;
    if !Total(parts[..k]).Named? {
      j := BadPart(parts[..k]);
      assert parts[..k][..j] == parts[..j];
    }
  }

  lemma {:induction false} BadPart(parts: seq<Named>) returns (j: nat)
    requires !Total(parts).Named?
    ensures j < |parts| && !parts[j].Named? && Total(parts[..j]).Named? && Total(parts) == parts[j]
  {
    var n := |parts| - 1;
    if Total(parts[..n]).Named? {
      j := n;
    } else {
      j := BadPart(parts[..n]);
      assert parts[..n][..j] == parts[..j];
    }
  }

  // A list is malformed, so that parseCPUSet answers 0, exactly when one of its parts is and the parsing gets
  // there.
  lemma MalformedList(text: string)
    ensures ListCpus(text).Malformed? <==> BreaksOff(Split(TrimSpace(text), ','))
  {
    var parts := Split(TrimSpace(text), ',');
    var all := AllParts(parts);
    forall k | 0 <= k < |parts| ensures all[k].Malformed? <==> !WellFormed(parts[k]) { MalformedPart(parts[k]); }
    if Total(all).Malformed? {
      var j := BadPart(all);
      forall i | 0 <= i < j ensures PartCpus(parts[i]) != Endless { NamedBefore(all, j, i); }
    }
    if k :| 0 <= k < |parts| && !WellFormed(parts[k]) && forall j :: 0 <= j < k ==> PartCpus(parts[j]) != Endless {
      var j := FirstBad(all, k);
      FirstBadPartDecides(all, j);
    }
  }

  lemma {:induction false} NamedBefore(parts: seq<Named>, j: nat, i: nat)
    requires i < j <= |parts| && Total(parts[..j]).Named?
    ensures parts[i].Named?
    decreases j
  {
    assert parts[..j][..j - 1] == parts[..j - 1];
    if i < j - 1 { NamedBefore(parts, j - 1, i); }
  }

  // ---------------------------------------------------------------- printed lists

  datatype Item = One(n: nat) | Range(lo: nat, hi: nat)

  predicate Printable(i: Item) {
    match i
    case One(n) => n <= MAX_INT
    case Range(lo, hi) => lo <= hi <= MAX_INT
  }

  // Its loop, if it has one, ends.
  ghost predicate Finite(i: Item) { i.Range? ==> Ends(i.lo, i.hi) }

  ghost predicate AllFinite(items: seq<Item>) { forall k :: 0 <= k < |items| ==> Finite(items[k]) }

  ghost function Meaning(i: Item): Named { if Finite(i) then Named(Cpus(i)) else Endless }

  function Print(i: Item): string {
    match i
    case One(n) => Itoa(n)
    case Range(lo, hi) => Itoa(lo) + "-" + Itoa(hi)
  }

  function PrintAll(items: seq<Item>): (r: seq<string>)
    ensures |r| == |items| && forall k :: 0 <= k < |items| ==> r[k] == Print(items[k])
  {
    seq(|items|, k requires 0 <= k < |items| => Print(items[k]))
  }

  function Cpus(i: Item): set<int> {
    match i
    case One(n) => {n}
    case Range(lo, hi) => Interval(lo, hi)
  }

  function Union(items: seq<Item>): set<int> {
    if items == [] then {} else Union(items[..|items| - 1]) + Cpus(items[|items| - 1])
  }

  lemma NumberIsTrimmed(n: nat)
    ensures TrimSpace(Itoa(n)) == Itoa(n)
    ensures '-' !in Itoa(n) && ',' !in Itoa(n)
  {
    var s := Itoa(n);
    assert IsDigit(s[0]) && IsDigit(s[|s| - 1]);
    TrimIsIdentity(s);
  }

  lemma PartOfNumber(n: nat)
    requires n <= MAX_INT
    ensures PartCpus(Itoa(n)) == Named({n})
  {
    NumberIsTrimmed(n);
    AtoiOfItoa(n);
    assert Index(Itoa(n), '-') == |Itoa(n)|;
  }

  lemma DashedShape(a: string, b: string)
    requires AllDigits(a) && AllDigits(b)
    ensures var s := a + "-" + b;
            && Index(s, '-') == |a| && s[..|a|] == a && s[|a| + 1..] == b
            && IsDigit(s[0]) && IsDigit(s[|s| - 1]) && ',' !in s
  {
    var s := a + ['-'] + b;
    assert s == a + "-" + b;
    IndexAt(a, '-', b);
    assert s[0] == a[0] && s[|s| - 1] == b[|b| - 1];
  }

  // Two numerals with a dash between them name an interval.
  lemma PartOfNumerals(a: string, b: string, lo: int, hi: int)
    requires AllDigits(a) && AllDigits(b) && TrimSpace(a) == a && TrimSpace(b) == b
    requires Atoi(a) == Some(lo) && Atoi(b) == Some(hi) && 0 <= lo <= hi <= MAX_INT
    ensures var s := a + "-" + b;
            && PartCpus(s) == (if Ends(lo, hi) then Named(Interval(lo, hi)) else Endless)
            && IsDigit(s[0]) && IsDigit(s[|s| - 1]) && ',' !in s
  {
    DashedShape(a, b);
    TrimIsIdentity(a + "-" + b);
    RangeEnds(lo, hi);
  }

  lemma PartOfRange(lo: nat, hi: nat)
    requires lo <= hi <= MAX_INT
    ensures var s := Itoa(lo) + "-" + Itoa(hi);
            && PartCpus(s) == (if Ends(lo, hi) then Named(Interval(lo, hi)) else Endless)
            && IsDigit(s[0]) && IsDigit(s[|s| - 1]) && ',' !in s
  {
    NumberIsTrimmed(lo);
    NumberIsTrimmed(hi);
    AtoiOfItoa(lo);
    AtoiOfItoa(hi);
    PartOfNumerals(Itoa(lo), Itoa(hi), lo, hi);
  }

  // A printed item is read back as the CPUs it names, if that ends.
  lemma PartOfPrint(i: Item)
    requires Printable(i)
    ensures PartCpus(Print(i)) == Meaning(i)
    ensures Print(i) != "" && ',' !in Print(i) && IsDigit(Print(i)[0]) && IsDigit(Print(i)[|Print(i)| - 1])
  {
    match i {
      case One(n) =>
        PartOfNumber(n);
        NumberIsTrimmed(n);
      case Range(lo, hi) =>
        PartOfRange(lo, hi);
    }
  }

  lemma {:induction false} TotalOfItems(items: seq<Item>, parts: seq<Named>)
    requires |parts| == |items| && forall k :: 0 <= k < |items| ==> parts[k] == Meaning(items[k])
    ensures Total(parts) == if AllFinite(items) then Named(Union(items)) else Endless
  {
    if items != [] {
      var n := |items| - 1;
      TotalOfItems(items[..n], parts[..n]);
      assert AllFinite(items) <==> AllFinite(items[..n]) && Finite(items[n]);
    }
  }

  lemma {:induction false} JoinEnds(parts: seq<string>, sep: string)
    requires parts != [] && forall k :: 0 <= k < |parts| ==> parts[k] != ""
    ensures var s := Join(parts, sep);
            s != "" && s[0] == parts[0][0] && s[|s| - 1] == parts[|parts| - 1][|parts[|parts| - 1]| - 1]
  {
    if |parts| > 1 { JoinEnds(parts[1..], sep); }
  }

  // For every printed list, with duplicates and overlaps, the CPUs are the union of what its items name,
  // if and only if all its loops end.
  lemma PrintedListCounts(items: seq<Item>)
    requires items != [] && forall k :: 0 <= k < |items| ==> Printable(items[k])
    ensures var text := Join(PrintAll(items), ",");
            && TrimSpace(text) == text && text != ""
            && ListCpus(text) == (if AllFinite(items) then Named(Union(items)) else Endless)
  {
    var parts := PrintAll(items);
    forall k | 0 <= k < |items|
      ensures parts[k] != "" && ',' !in parts[k] && IsDigit(parts[k][0]) && IsDigit(parts[k][|parts[k]| - 1])
      ensures PartCpus(parts[k]) == Meaning(items[k])
    {
      PartOfPrint(items[k]);
    }
    JoinedList(parts);
    TotalOfItems(items, AllParts(parts));
  }

  lemma JoinedList(parts: seq<string>)
    requires parts != []
    requires forall k :: 0 <= k < |parts| ==>
               parts[k] != "" && ',' !in parts[k] && IsDigit(parts[k][0]) && IsDigit(parts[k][|parts[k]| - 1])
    ensures var text := Join(parts, ",");
            TrimSpace(text) == text && text != "" && Split(text, ',') == parts
  {
    JoinEnds(parts, ",");
    TrimIsIdentity(Join(parts, ","));
    SplitOfJoin(parts, ',');
  }
}
