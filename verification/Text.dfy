// The string functions of the Go standard library that the modelled code relies on.
module Text {
  import opened Base

  // unicode.IsSpace
  predicate IsSpace(c: char) {
    var n := c as int;
    || 9 <= n <= 13 || n == 0x20 || n == 0x85 || n == 0xA0 || n == 0x1680 || 0x2000 <= n <= 0x200A
    || n == 0x2028 || n == 0x2029 || n == 0x202F || n == 0x205F || n == 0x3000
  }

  predicate SpaceFree(s: string) { forall i :: 0 <= i < |s| ==> !IsSpace(s[i]) }

  predicate IsDigit(c: char) { '0' <= c <= '9' }

  // ---------------------------------------------------------------- decimal numbers

  function Digit(n: nat): char
    requires n < 10
  {
    "0123456789"[n]
  }

  // %d of a non-negative number.
  function Itoa(n: nat): (s: string)
    ensures |s| > 0 && forall i :: 0 <= i < |s| ==> IsDigit(s[i])
  {
    if n < 10 then [Digit(n)] else Itoa(n / 10) + [Digit(n % 10)]
  }

  function DigitValue(c: char): nat {
    if IsDigit(c) then c as int - '0' as int else 0
  }

  predicate AllDigits(s: string) { |s| > 0 && forall i :: 0 <= i < |s| ==> IsDigit(s[i]) }

  // The number that a string of digits denotes.
  function Decimal(s: string): nat {
    if s == [] then 0 else Decimal(s[..|s| - 1]) * 10 + DigitValue(s[|s| - 1])
  }

  const MAX_INT: int := 0x7FFF_FFFF_FFFF_FFFF

  // strconv.Atoi: an optional sign and digits, within 64 bits.
  function Atoi(s: string): Option<int> {
    var negative := |s| > 0 && s[0] == '-';
    var body := if |s| > 0 && (s[0] == '-' || s[0] == '+') then s[1..] else s;
    if !AllDigits(body) then None
    else
      var n: int := Decimal(body);
      if negative then (if n <= MAX_INT + 1 then Some(-n) else None)
      else if n <= MAX_INT then Some(n) else None
  }

  lemma {:induction false} DecimalOfItoa(n: nat)
    ensures Decimal(Itoa(n)) == n
  {
    if n >= 10 {
      DecimalOfItoa(n / 10);
      var s := Itoa(n);
      assert s[..|s| - 1] == Itoa(n / 10);
      assert DigitValue(Digit(n % 10)) == n % 10;
    }
  }

  // Printing and parsing a number gives it back.
  lemma AtoiOfItoa(n: nat)
    requires n <= MAX_INT
    ensures Atoi(Itoa(n)) == Some(n)
  {
    DecimalOfItoa(n);
    assert IsDigit(Itoa(n)[0]);
  }

  // ---------------------------------------------------------------- splitting and joining

  function Join(parts: seq<string>, sep: string): string {
    if parts == [] then ""
    else if |parts| == 1 then parts[0]
    else parts[0] + sep + Join(parts[1..], sep)
  }

  function Index(s: string, c: char): (i: nat)
    ensures i <= |s|
    ensures forall j :: 0 <= j < i ==> s[j] != c
    ensures i < |s| ==> s[i] == c
  {
    if s == [] || s[0] == c then 0 else 1 + Index(s[1..], c)
  }

  function Split(s: string, c: char): seq<string> {
    var i := Index(s, c);
    if i == |s| then [s] else [s[..i]] + Split(s[i + 1..], c)
  }

  lemma IndexAt(a: string, c: char, b: string)
    requires c !in a
    ensures Index(a + [c] + b, c) == |a|
  {
    var s := a + [c] + b;
    assert forall j :: 0 <= j < |a| ==> s[j] == a[j];
    assert s[|a|] == c;
  }

  // Splitting a joined list gives the list back when no part holds the separator.
  lemma {:induction false} SplitOfJoin(parts: seq<string>, c: char)
    requires parts != [] && forall i :: 0 <= i < |parts| ==> c !in parts[i]
    ensures Split(Join(parts, [c]), c) == parts
  {
    var p := parts[0];
    if |parts| == 1 {
      assert Index(p, c) == |p|;
    } else {
      var rest := Join(parts[1..], [c]);
      var whole := p + [c] + rest;
      IndexAt(p, c, rest);
      assert whole[..|p|] == p && whole[|p| + 1..] == rest;
      SplitOfJoin(parts[1..], c);
      assert parts == [p] + parts[1..];
    }
  }

  lemma {:induction false} SpaceFreeJoin(parts: seq<string>, sep: string)
    requires SpaceFree(sep) && forall i :: 0 <= i < |parts| ==> SpaceFree(parts[i])
    ensures SpaceFree(Join(parts, sep))
  {
    if |parts| > 1 { SpaceFreeJoin(parts[1..], sep); }
  }

  // ---------------------------------------------------------------- trimming

  function TrimLeft(s: string): string {
    if s != [] && IsSpace(s[0]) then TrimLeft(s[1..]) else s
  }

  function TrimRight(s: string): string {
    if s != [] && IsSpace(s[|s| - 1]) then TrimRight(s[..|s| - 1]) else s
  }

  function TrimSpace(s: string): string { TrimRight(TrimLeft(s)) }

  lemma TrimIsIdentity(s: string)
    requires s == [] || (!IsSpace(s[0]) && !IsSpace(s[|s| - 1]))
    ensures TrimSpace(s) == s
  {
  }

  // ---------------------------------------------------------------- fields

  // The maximal leading run without white space.
  function Word(s: string): (w: string)
    ensures |w| <= |s| && w == s[..|w|] && SpaceFree(w)
    ensures |w| < |s| ==> IsSpace(s[|w|])
  {
    if s == [] || IsSpace(s[0]) then [] else [s[0]] + Word(s[1..])
  }

  // strings.Fields
  function Fields(s: string): seq<string>
    decreases |s|
  {
    if s == [] then []
    else if IsSpace(s[0]) then Fields(s[1..])
    else [Word(s)] + Fields(s[|Word(s)|..])
  }

  lemma WordStops(a: string, sp: char, b: string)
    requires IsSpace(sp)
    ensures Word(a + [sp] + b) == Word(a)
  {
    var s := a + [sp] + b;
    assert forall j :: 0 <= j < |a| ==> s[j] == a[j];
    assert s[|a|] == sp;
    var w, v := Word(s), Word(a);
    assert forall j :: 0 <= j < |w| ==> w[j] == s[j];
    assert forall j :: 0 <= j < |v| ==> v[j] == s[j];
  }

  // White space between two texts separates their fields.
  lemma {:induction false} FieldsAppend(a: string, sp: char, b: string)
    requires IsSpace(sp)
    ensures Fields(a + [sp] + b) == Fields(a) + Fields(b)
    decreases |a|
  {
    var s := a + [sp] + b;
    if a == [] {
      assert s[1..] == b;
    } else if IsSpace(a[0]) {
      assert s[1..] == a[1..] + [sp] + b;
      FieldsAppend(a[1..], sp, b);
    } else {
      WordStops(a, sp, b);
      var w := Word(a);
      assert |w| > 0;
      assert s[|w|..] == a[|w|..] + [sp] + b;
      FieldsAppend(a[|w|..], sp, b);
    }
  }

  lemma FieldsOfWord(s: string)
    requires s != [] && SpaceFree(s)
    ensures Fields(s) == [s]
  {
    assert Word(s) == s;
    assert s[|s|..] == [];
  }

  lemma {:induction false} FieldsAreSpaceFree(s: string)
    ensures forall i :: 0 <= i < |Fields(s)| ==> Fields(s)[i] != [] && SpaceFree(Fields(s)[i])
    decreases |s|
  {
    if s != [] {
      if IsSpace(s[0]) {
        FieldsAreSpaceFree(s[1..]);
      } else {
        FieldsAreSpaceFree(s[|Word(s)|..]);
      }
    }
  }

  function AllFields(parts: seq<string>): seq<string> {
    if parts == [] then [] else Fields(parts[0]) + AllFields(parts[1..])
  }

  // The fields of parts joined by single spaces are the fields of the parts.
  lemma {:induction false} FieldsOfJoin(parts: seq<string>)
    ensures Fields(Join(parts, " ")) == AllFields(parts)
  {
    if |parts| == 1 {
      assert AllFields(parts) == Fields(parts[0]) + AllFields(parts[1..]);
    } else if |parts| > 1 {
      FieldsAppend(parts[0], ' ', Join(parts[1..], " "));
      FieldsOfJoin(parts[1..]);
    }
  }

  // ---------------------------------------------------------------- prefixes

  predicate HasPrefix(s: string, prefix: string) { prefix <= s }

  predicate HasSuffix(s: string, suffix: string) { |suffix| <= |s| && s[|s| - |suffix|..] == suffix }
}
