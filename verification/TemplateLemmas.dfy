// Expanding templates pass by pass is expanding them all at once.
module TemplateLemmas {
  import opened Base
  import opened Text
  import opened Templates

  // ---------------------------------------------------------------- shape of a match

  predicate Inner(c: char) { Blank(c) || IsDigit(c) || 'a' <= c <= 'z' }

  // Between the braces a match holds only white space, digits and lower-case letters.
  ghost predicate Shaped(s: string, len: nat) {
    && 4 < len <= |s|
    && s[0] == '{' && s[1] == '{' && s[len - 2] == '}' && s[len - 1] == '}'
    && forall x :: 2 <= x < len - 2 ==> Inner(s[x])
  }

  lemma {:induction false} BlanksAreInner(s: string, i: nat)
    requires i <= |s|
    ensures forall x :: i <= x < BlankEnd(s, i) ==> Inner(s[x])
    decreases |s| - i
  {
    if i < |s| && Blank(s[i]) { BlanksAreInner(s, i + 1); }
  }

  lemma {:induction false} DigitsAreInner(s: string, i: nat)
    requires i <= |s|
    ensures forall x :: i <= x < DigitEnd(s, i) ==> Inner(s[x])
    decreases |s| - i
  {
    if i < |s| && IsDigit(s[i]) { DigitsAreInner(s, i + 1); }
  }

  lemma NumberIsInner(s: string, i: nat)
    requires i <= |s|
    ensures Number(s, i).Some? ==> forall x :: i <= x < Number(s, i).value.1 ==> Inner(s[x])
  {
    BlanksAreInner(s, i);
    DigitsAreInner(s, BlankEnd(s, i));
  }

  lemma NumbersAreInner(s: string, i: nat, two: bool)
    requires i <= |s|
    ensures var r := Numbers(s, i, two);
            r.Some? ==> forall x :: i <= x < r.value.len ==> Inner(s[x])
  {
    NumberIsInner(s, i);
    if Number(s, i).Some? { NumberIsInner(s, Number(s, i).value.1); }
  }

  lemma NameIsInner(k: Kind)
    ensures forall x :: 0 <= x < |Name(k)| ==> Inner(Name(k)[x])
  {
  }

  lemma RestIsInner(s: string, i: nat, two: bool)
    requires i <= |s| && Rest(s, i, two).Some?
    ensures var len := Rest(s, i, two).value.len;
            s[len - 2] == '}' && s[len - 1] == '}' && forall x :: i <= x < len - 2 ==> Inner(s[x])
  {
    NumbersAreInner(s, i, two);
    BlanksAreInner(s, Numbers(s, i, two).value.len);
  }

  lemma NamedIsShaped(s: string, name: string, two: bool)
    requires MatchNamed(s, name, two).Some? && forall x :: 0 <= x < |name| ==> Inner(name[x])
    ensures Shaped(s, MatchNamed(s, name, two).value.len)
  {
    var a := BlankEnd(s, 2);
    var b := a + |name|;
    BlanksAreInner(s, 2);
    forall x | a <= x < b ensures Inner(s[x]) {
      assert s[x] == s[a..b][x - a] == name[x - a];
    }
    RestIsInner(s, b, two);
  }

  lemma MatchIsShaped(s: string, k: Kind)
    requires MatchAt(s, k).Some?
    ensures Shaped(s, MatchAt(s, k).value.len)
  {
    NameIsInner(k);
    NamedIsShaped(s, Name(k), k == Overlay);
  }

  lemma FirstLetter(s: string, name: string, two: bool)
    requires MatchNamed(s, name, two).Some? && name != ""
    ensures 2 <= |s| && BlankEnd(s, 2) < |s| && s[BlankEnd(s, 2)] == name[0]
  {
    var a := BlankEnd(s, 2);
    assert s[a] == s[a..a + |name|][0];
  }

  lemma LettersDiffer(k1: Kind, k2: Kind)
    requires Name(k1)[0] == Name(k2)[0]
    ensures k1 == k2
  {
  }

  // Kinds are told apart by the first letter of their name.
  lemma KindsAreDisjoint(s: string, k1: Kind, k2: Kind)
    requires MatchAt(s, k1).Some? && MatchAt(s, k2).Some?
    ensures k1 == k2
  {
    FirstLetter(s, Name(k1), k1 == Overlay);
    FirstLetter(s, Name(k2), k2 == Overlay);
    LettersDiffer(k1, k2);
  }

  // Inside a match no other match starts.
  lemma NoMatchInside(s: string, len: nat, x: nat, k: Kind)
    requires Shaped(s, len) && 1 <= x < len
    ensures MatchAt(s[x..], k).None?
  {
    assert s[x..][0] == s[x];
    assert x + 1 < |s| ==> s[x..][1] == s[x + 1];
    assert !Opens(s[x..]);
  }

  // ---------------------------------------------------------------- a match depends only on its own text

  predicate Agree(s: string, t: string, n: nat) { n <= |s| && n <= |t| && s[..n] == t[..n] }

  lemma AgreeAt(s: string, t: string, n: nat, x: nat)
    requires Agree(s, t, n) && x < n
    ensures s[x] == t[x]
  {
    assert s[x] == s[..n][x] && t[x] == t[..n][x];
  }

  lemma {:induction false} BlankEndAgrees(s: string, t: string, n: nat, i: nat)
    requires Agree(s, t, n) && i <= |s| && BlankEnd(s, i) < n
    ensures BlankEnd(t, i) == BlankEnd(s, i)
    decreases |s| - i
  {
    AgreeAt(s, t, n, i);
    if Blank(s[i]) { BlankEndAgrees(s, t, n, i + 1); }
  }

  lemma {:induction false} DigitEndAgrees(s: string, t: string, n: nat, i: nat)
    requires Agree(s, t, n) && i <= |s| && DigitEnd(s, i) < n
    ensures DigitEnd(t, i) == DigitEnd(s, i)
    decreases |s| - i
  {
    AgreeAt(s, t, n, i);
    if IsDigit(s[i]) { DigitEndAgrees(s, t, n, i + 1); }
  }

  lemma StartsAtAgrees(s: string, t: string, n: nat, i: nat, w: string)
    requires Agree(s, t, n) && i + |w| <= n
    ensures StartsAt(t, i, w) == StartsAt(s, i, w)
  {
    assert s[i..i + |w|] == s[..n][i..i + |w|];
    assert t[i..i + |w|] == t[..n][i..i + |w|];
  }

  lemma SliceAgrees(s: string, t: string, n: nat, i: nat, j: nat)
    requires Agree(s, t, n) && i <= j <= n
    ensures s[i..j] == t[i..j]
  {
    assert s[i..j] == s[..n][i..j];
    assert t[i..j] == t[..n][i..j];
  }

  lemma NumberAgrees(s: string, t: string, n: nat, i: nat)
    requires Agree(s, t, n) && i <= |s| && Number(s, i).Some? && Number(s, i).value.1 < n
    ensures Number(t, i) == Number(s, i)
  {
    BlankEndAgrees(s, t, n, i);
    DigitEndAgrees(s, t, n, BlankEnd(s, i));
  }

  lemma NumbersAgree(s: string, t: string, n: nat, i: nat, two: bool)
    requires Agree(s, t, n) && i <= |s| && Numbers(s, i, two).Some? && Numbers(s, i, two).value.len < n
    ensures Numbers(t, i, two) == Numbers(s, i, two)
  {
    NumberAgrees(s, t, n, i);
    var a := Number(s, i).value;
    SliceAgrees(s, t, n, a.0, a.1);
    if two {
      NumberAgrees(s, t, n, a.1);
      var b := Number(s, a.1).value;
      SliceAgrees(s, t, n, b.0, b.1);
    }
  }

  lemma RestAgrees(s: string, t: string, i: nat, two: bool)
    requires i <= |s| && Rest(s, i, two).Some? && Agree(s, t, Rest(s, i, two).value.len)
    ensures Rest(t, i, two) == Rest(s, i, two)
  {
    var len := Rest(s, i, two).value.len;
    NumbersAgree(s, t, len, i, two);
    BlankEndAgrees(s, t, len, Numbers(s, i, two).value.len);
    AgreeAt(s, t, len, len - 2);
    AgreeAt(s, t, len, len - 1);
  }

  lemma MatchAgrees(s: string, t: string, name: string, two: bool)
    requires MatchNamed(s, name, two).Some? && Agree(s, t, MatchNamed(s, name, two).value.len)
    ensures MatchNamed(t, name, two) == MatchNamed(s, name, two)
  {
    var len := MatchNamed(s, name, two).value.len;
    var a := BlankEnd(s, 2);
    AgreeAt(s, t, len, 0);
    AgreeAt(s, t, len, 1);
    BlankEndAgrees(s, t, len, 2);
    StartsAtAgrees(s, t, len, a, name);
    assert Opens(t) && BlankEnd(t, 2) == a && StartsAt(t, a, name);
    RestAgrees(s, t, a + |name|, two);
  }

  // ---------------------------------------------------------------- copying

  lemma PrependAssoc(a: string, b: string, r: Option<string>)
    ensures Prepend(a, Prepend(b, r)) == Prepend(a + b, r)
  {
    if r.Some? { assert a + (b + r.value) == a + b + r.value; }
  }

  // Text in which nothing matches is copied.
  lemma {:induction false} CopyThrough(s: string, n: nat, K: set<Kind>, mounts: seq<ActiveMount>)
    requires n <= |s| && forall x :: 0 <= x < n ==> Find(s[x..], K).None?
    ensures Substitute(s, K, mounts) == Prepend(s[..n], Substitute(s[n..], K, mounts))
  {
    if n == 0 {
      assert s[0..] == s && s[..0] == "";
      assert Substitute(s, K, mounts).Some? ==> "" + Substitute(s, K, mounts).value == Substitute(s, K, mounts).value;
    } else {
      assert s[0..] == s;
      assert Find(s, K).None?;
      forall x | 0 <= x < n - 1 ensures Find(s[1..][x..], K).None? {
        assert s[1..][x..] == s[x + 1..];
      }
      CopyThrough(s[1..], n - 1, K, mounts);
      assert s[1..][n - 1..] == s[n..];
      PrependAssoc([s[0]], s[1..][..n - 1], Substitute(s[n..], K, mounts));
      assert [s[0]] + s[1..][..n - 1] == s[..n];
    }
  }

  lemma NothingBefore(v: string, t: string, K: set<Kind>)
    requires '{' !in v
    ensures forall x :: 0 <= x < |v| ==> Find((v + t)[x..], K).None?
  {
    var s := v + t;
    forall x | 0 <= x < |v| ensures Find(s[x..], K).None? {
      assert s[x..][0] == v[x];
      assert !Opens(s[x..]);
    }
  }

  // Text without an opening brace is copied.
  lemma PassThrough(v: string, t: string, K: set<Kind>, mounts: seq<ActiveMount>)
    requires '{' !in v
    ensures Substitute(v + t, K, mounts) == Prepend(v, Substitute(t, K, mounts))
  {
    NothingBefore(v, t, K);
    CopyThrough(v + t, |v|, K, mounts);
    assert (v + t)[..|v|] == v && (v + t)[|v|..] == t;
  }

  // ---------------------------------------------------------------- values that cannot be mistaken for templates

  // Holds a '/' and no brace.
  predicate Safe(v: string) { '/' in v && '{' !in v && '}' !in v }

  // Every value that expanding s needs is safe.
  ghost predicate Tame(s: string, mounts: seq<ActiveMount>)
    decreases |s|
  {
    if s == "" then true
    else
      var f := Find(s, ALL);
      if f.None? then Tame(s[1..], mounts)
      else
        var v := Value(f.value.0, f.value.1, mounts);
        (v.Some? ==> Safe(v.value)) && Tame(s[f.value.1.len..], mounts)
  }

  // With one kind left to find, or all of them, a match is the same match.
  lemma FindAny(s: string, K: set<Kind>, k: Kind)
    requires k in K && MatchAt(s, k).Some?
    ensures Find(s, K) == Some((k, MatchAt(s, k).value))
  {
    var f := Find(s, K);
    KindsAreDisjoint(s, k, f.value.0);
  }

  // Whether a text is tame is decided from its first template on.
  lemma {:induction false} TameLater(s: string, n: nat, mounts: seq<ActiveMount>)
    requires n <= |s| && forall x :: 0 <= x < n ==> Find(s[x..], ALL).None?
    ensures Tame(s, mounts) == Tame(s[n..], mounts)
  {
    assert s[0..] == s;
    if n > 0 {
      forall x | 0 <= x < n - 1 ensures Find(s[1..][x..], ALL).None? {
        assert s[1..][x..] == s[x + 1..];
      }
      TameLater(s[1..], n - 1, mounts);
      assert s[1..][n - 1..] == s[n..];
    }
  }

  lemma TameInside(s: string, len: nat, mounts: seq<ActiveMount>)
    requires Shaped(s, len) && Tame(s[len..], mounts)
    ensures Tame(s[1..], mounts)
  {
    forall x | 0 <= x < len - 1 ensures Find(s[1..][x..], ALL).None? {
      assert s[1..][x..] == s[x + 1..];
      NoneInside(s, len, x + 1, ALL);
    }
    TameLater(s[1..], len - 1, mounts);
    assert s[1..][len - 1..] == s[len..];
  }

  lemma TameTail(s: string, mounts: seq<ActiveMount>)
    requires s != "" && Tame(s, mounts)
    ensures Tame(s[1..], mounts)
  {
    var f := Find(s, ALL);
    if f.Some? {
      var len := f.value.1.len;
      MatchIsShaped(s, f.value.0);
      TameInside(s, len, mounts);
    }
  }

  lemma NoneInside(s: string, len: nat, x: nat, K: set<Kind>)
    requires Shaped(s, len) && 1 <= x < len
    ensures Find(s[x..], K).None?
  {
    forall k | k in K ensures MatchAt(s[x..], k).None? {
      NoMatchInside(s, len, x, k);
    }
  }

  // ---------------------------------------------------------------- passes compose

  // As the tail of a template is: no '/', and a closing brace last.
  predicate TemplateEnd(w: string) { '/' !in w && (w != "" ==> w[|w| - 1] == '}') }

  // No template ends inside a safe value, and none runs across one.
  lemma SafePrefix(v: string, rest: string, w: string)
    requires Safe(v) && w <= v + rest && TemplateEnd(w)
    ensures w == ""
  {
    var o := v + rest;
    var j :| 0 <= j < |v| && v[j] == '/';
    assert o[j] == '/' && forall x :: 0 <= x < |v| ==> o[x] == v[x];
    assert o[..|w|] == w;
  }

  // Template text in the output of a pass was already there in its input.
  lemma {:induction false} Reflect(s: string, K: set<Kind>, w: string, mounts: seq<ActiveMount>)
    requires Tame(s, mounts) && Substitute(s, K, mounts).Some? && w <= Substitute(s, K, mounts).value
    requires TemplateEnd(w)
    ensures w <= s
    decreases |s|
  {
    if s != "" && w != "" {
      var f := Find(s, K);
      if f.None? {
        TameTail(s, mounts);
        ReflectStep(s, w, Substitute(s[1..], K, mounts).value);
        Reflect(s[1..], K, w[1..], mounts);
        PrefixCons(w, s);
      } else {
        FindAny(s, ALL, f.value.0);
        SafePrefix(Value(f.value.0, f.value.1, mounts).value, Substitute(s[f.value.1.len..], K, mounts).value, w);
      }
    }
  }

  lemma PrefixCons(w: string, s: string)
    requires w != "" && s != "" && w[0] == s[0] && w[1..] <= s[1..]
    ensures w <= s
  {
    assert w == [w[0]] + w[1..] && s == [s[0]] + s[1..];
  }

  lemma ReflectStep(s: string, w: string, rest: string)
    requires s != "" && w != "" && w <= [s[0]] + rest && TemplateEnd(w)
    ensures w[0] == s[0] && w[1..] <= rest && TemplateEnd(w[1..])
  {
    var o := [s[0]] + rest;
    assert w[0] == o[0];
    assert w[1..] == o[..|w|][1..] == rest[..|w| - 1];
  }

  lemma ShapedEnds(s: string, len: nat)
    requires Shaped(s, len)
    ensures TemplateEnd(s[..len])
  {
  }

  // Text shaped like a template in the output of a pass was in its input.
  lemma ReflectText(s: string, K: set<Kind>, rest: string, len: nat, mounts: seq<ActiveMount>)
    requires s != "" && Tame(s[1..], mounts) && Substitute(s[1..], K, mounts) == Some(rest)
    requires Shaped([s[0]] + rest, len)
    ensures Agree([s[0]] + rest, s, len)
  {
    var o := [s[0]] + rest;
    var w := o[..len];
    ShapedEnds(o, len);
    ReflectStep(s, w, rest);
    Reflect(s[1..], K, w[1..], mounts);
    PrefixCons(w, s);
  }

  // A match found in the output of a pass was a match of the input.
  lemma ReflectMatch(s: string, K: set<Kind>, rest: string, k: Kind, mounts: seq<ActiveMount>)
    requires s != "" && Tame(s[1..], mounts) && Substitute(s[1..], K, mounts) == Some(rest)
    requires MatchAt([s[0]] + rest, k).Some?
    ensures MatchAt(s, k).Some?
  {
    var o := [s[0]] + rest;
    MatchIsShaped(o, k);
    ReflectText(s, K, rest, MatchAt(o, k).value.len, mounts);
    MatchAgrees(o, s, Name(k), k == Overlay);
  }

  // A template of the next pass is copied by the earlier ones and then expanded.
  lemma ComposeMatched(s: string, K: set<Kind>, k: Kind, mounts: seq<ActiveMount>)
    requires MatchAt(s, k).Some? && k !in K
    ensures var len := MatchAt(s, k).value.len;
            var v := Value(k, MatchAt(s, k).value, mounts);
            Then(Substitute(s, K, mounts), k, mounts) ==
            if v.None? then None else Prepend(v.value, Then(Substitute(s[len..], K, mounts), k, mounts))
  {
    var len := MatchAt(s, k).value.len;
    MatchIsShaped(s, k);
    forall x | 0 <= x < len ensures Find(s[x..], K).None? {
      if x == 0 {
        assert s[0..] == s;
        forall k1 | k1 in K ensures MatchAt(s, k1).None? {
          if MatchAt(s, k1).Some? { KindsAreDisjoint(s, k, k1); }
        }
      } else {
        NoneInside(s, len, x, K);
      }
    }
    CopyThrough(s, len, K, mounts);
    var rest := Substitute(s[len..], K, mounts);
    if rest.Some? {
      var o := s[..len] + rest.value;
      assert o[..len] == s[..len] && o[len..] == rest.value;
      MatchAgrees(s, o, Name(k), k == Overlay);
      FindAny(o, {k}, k);
    }
  }

  ghost predicate Composes(s: string, K: set<Kind>, k: Kind, mounts: seq<ActiveMount>) {
    Then(Substitute(s, K, mounts), k, mounts) == Substitute(s, K + {k}, mounts)
  }

  lemma ComposeNone(s: string, K: set<Kind>, k: Kind, mounts: seq<ActiveMount>)
    requires s != "" && Tame(s, mounts) && Find(s, K + {k}).None? && Composes(s[1..], K, k, mounts)
    ensures Composes(s, K, k, mounts)
  {
    assert k in K + {k} && Find(s, K).None?;
    ComposeCopied(s, K, k, mounts);
  }

  lemma ComposeSome(s: string, K: set<Kind>, k: Kind, mounts: seq<ActiveMount>)
    requires s != "" && Tame(s, mounts) && k !in K && Find(s, K + {k}).Some?
    requires Composes(s[Find(s, K + {k}).value.1.len..], K, k, mounts)
    ensures Composes(s, K, k, mounts)
  {
    var k1 := Find(s, K + {k}).value.0;
    if k1 == k {
      ComposeMatched(s, K, k, mounts);
    } else {
      FindAny(s, K, k1);
      ComposeReplaced(s, K, k, mounts);
    }
  }

  // One pass after others is one pass for all of their patterns.
  lemma {:induction false} Compose(s: string, K: set<Kind>, k: Kind, mounts: seq<ActiveMount>)
    requires Tame(s, mounts) && k !in K
    ensures Composes(s, K, k, mounts)
    decreases |s|
  {
    if s != "" {
      var f := Find(s, K + {k});
      if f.None? {
        TameTail(s, mounts);
        Compose(s[1..], K, k, mounts);
        ComposeNone(s, K, k, mounts);
      } else {
        FindAny(s, ALL, f.value.0);
        Compose(s[f.value.1.len..], K, k, mounts);
        ComposeSome(s, K, k, mounts);
      }
    }
  }

  lemma ComposeCopied(s: string, K: set<Kind>, k: Kind, mounts: seq<ActiveMount>)
    requires s != "" && Tame(s, mounts) && Find(s, K).None? && MatchAt(s, k).None?
    ensures Then(Substitute(s, K, mounts), k, mounts) == Prepend([s[0]], Then(Substitute(s[1..], K, mounts), k, mounts))
  {
    var rest := Substitute(s[1..], K, mounts);
    if rest.Some? {
      TameTail(s, mounts);
      var o := [s[0]] + rest.value;
      if MatchAt(o, k).Some? { ReflectMatch(s, K, rest.value, k, mounts); }
      CopyOne(s[0], rest.value, k, mounts);
    }
  }

  lemma CopyOne(c: char, rest: string, k: Kind, mounts: seq<ActiveMount>)
    requires MatchAt([c] + rest, k).None?
    ensures Substitute([c] + rest, {k}, mounts) == Prepend([c], Substitute(rest, {k}, mounts))
  {
    assert ([c] + rest)[1..] == rest;
  }

  lemma ComposeReplaced(s: string, K: set<Kind>, k: Kind, mounts: seq<ActiveMount>)
    requires s != "" && Tame(s, mounts) && Find(s, K).Some?
    ensures var f := Find(s, K).value;
            var v := Value(f.0, f.1, mounts);
            Then(Substitute(s, K, mounts), k, mounts) ==
            if v.None? then None else Prepend(v.value, Then(Substitute(s[f.1.len..], K, mounts), k, mounts))
  {
    var f := Find(s, K).value;
    FindAny(s, ALL, f.0);
    var v := Value(f.0, f.1, mounts);
    var rest := Substitute(s[f.1.len..], K, mounts);
    if v.Some? && rest.Some? {
      PassThrough(v.value, rest.value, {k}, mounts);
    }
  }

  // ---------------------------------------------------------------- main results

  // Four passes give what expanding every template at once gives.
  lemma FourPassesAreOne(s: string, mounts: seq<ActiveMount>)
    requires Tame(s, mounts)
    ensures FourPasses(s, mounts) == Checked(Substitute(s, ALL, mounts))
  {
    Compose(s, {Source}, Target, mounts);
    Compose(s, {Source} + {Target}, Mount, mounts);
    Compose(s, {Source} + {Target} + {Mount}, Overlay, mounts);
    assert {Source} + {Target} + {Mount} + {Overlay} == ALL;
  }

  lemma {:induction false} NoBracesNoTemplates(s: string, mounts: seq<ActiveMount>)
    requires !HasBraces(s)
    ensures Substitute(s, ALL, mounts) == Some(s)
  {
    if s != "" {
      assert !Opens(s);
      assert !HasBraces(s[1..]) by {
        assert forall i :: 0 <= i < |s| - 2 ==> s[1..][i] == s[i + 1];
      }
      NoBracesNoTemplates(s[1..], mounts);
      assert s == [s[0]] + s[1..];
    }
  }

  // formatString expands exactly the templates of its input, all at once, or fails.
  lemma FormatIsSimultaneous(s: string, mounts: seq<ActiveMount>)
    requires Tame(s, mounts)
    ensures Format(s, mounts) == Checked(Substitute(s, ALL, mounts))
  {
    if HasBraces(s) { FourPassesAreOne(s, mounts); } else { NoBracesNoTemplates(s, mounts); }
  }

  // ---------------------------------------------------------------- when texts are tame

  ghost predicate SafeMount(m: ActiveMount) { Safe(m.source) && Safe(m.target) && Safe(m.mountPoint) }

  lemma {:induction false} SafeJoin(parts: seq<string>)
    requires parts != [] && forall p :: p in parts ==> Safe(p)
    ensures Safe(Join(parts, ":"))
  {
    assert parts[0] in parts;
    if |parts| > 1 {
      SafeJoin(parts[1..]);
    }
  }

  lemma MountPointsAreSafe(start: nat, end: nat, mounts: seq<ActiveMount>)
    requires start < |mounts| && end < |mounts| && forall m :: m in mounts ==> SafeMount(m)
    ensures forall p :: p in MountPoints(start, end, mounts) ==> Safe(p)
  {
    var points := MountPoints(start, end, mounts);
    forall p | p in points ensures Safe(p) {
      var k :| 0 <= k < |points| && points[k] == p;
      assert mounts[if start <= end then start + k else start - k] in mounts;
    }
  }

  // Mounts whose paths are paths make every text tame.
  lemma {:induction false} SafeMountsAreTame(s: string, mounts: seq<ActiveMount>)
    requires forall m :: m in mounts ==> SafeMount(m)
    ensures Tame(s, mounts)
    decreases |s|
  {
    if s != "" {
      var f := Find(s, ALL);
      if f.None? {
        SafeMountsAreTame(s[1..], mounts);
      } else {
        SafeMountsAreTame(s[f.value.1.len..], mounts);
        ValuesAreSafe(f.value.0, f.value.1, mounts);
      }
    }
  }

  lemma ValuesAreSafe(k: Kind, m: Match, mounts: seq<ActiveMount>)
    requires forall m :: m in mounts ==> SafeMount(m)
    ensures Value(k, m, mounts).Some? ==> Safe(Value(k, m, mounts).value)
  {
    if Value(k, m, mounts).Some? {
      assert mounts[m.i] in mounts;
      if k == Overlay {
        MountPointsAreSafe(m.i, m.j, mounts);
        SafeJoin(MountPoints(m.i, m.j, mounts));
      }
    }
  }
}
