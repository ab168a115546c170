// The templates that the host prints, as the guest expands them.
module OverlayTemplates {
  import opened Base
  import opened Text
  import opened Templates
  import opened TemplateLemmas

  // ---------------------------------------------------------------- matching a printed template

  lemma BlankOnce(s: string, p: nat)
    requires p + 1 < |s| && s[p] == ' ' && !Blank(s[p + 1])
    ensures BlankEnd(s, p) == p + 1
  {
  }

  lemma {:induction false} DigitsStop(s: string, p: nat, end: nat)
    requires p <= end < |s| && !IsDigit(s[end]) && forall x :: p <= x < end ==> IsDigit(s[x])
    ensures DigitEnd(s, p) == end
    decreases end - p
  {
    if p < end { DigitsStop(s, p + 1, end); }
  }

  lemma NumberAt(s: string, p: nat, d: string)
    requires p + 1 + |d| < |s| && s[p] == ' ' && s[p + 1..p + 1 + |d|] == d && AllDigits(d) && s[p + 1 + |d|] == ' '
    ensures Number(s, p) == Some((p + 1, p + 1 + |d|))
  {
    forall x | p + 1 <= x < p + 1 + |d| ensures IsDigit(s[x]) {
      assert s[x] == d[x - p - 1];
    }
    BlankOnce(s, p);
    DigitsStop(s, p + 1, p + 1 + |d|);
  }

  // s goes on, at p, with a space, d, a space and the closing braces.
  ghost predicate EndsAt(s: string, p: nat, d: string) {
    && p + |d| + 4 <= |s| && AllDigits(d)
    && s[p] == ' ' && s[p + 1..p + 1 + |d|] == d &&
    s[p + 1 + |d|] == ' ' && s[p + 2 + |d|] == '}' && s[p + 3 + |d|] == '}'
  }

  lemma RestOne(s: string, p: nat, d: string)
    requires EndsAt(s, p, d)
    ensures Rest(s, p, false) == Some(Match(p + |d| + 4, Decimal(d), 0))
  {
    NumbersOne(s, p, d);
    BlankOnce(s, p + 1 + |d|);
    ClosedIs(s, Match(p + 1 + |d|, Decimal(d), 0), p + 2 + |d|);
  }

  lemma NumbersOne(s: string, p: nat, d: string)
    requires EndsAt(s, p, d)
    ensures Numbers(s, p, false) == Some(Match(p + 1 + |d|, Decimal(d), 0))
  {
    NumberAt(s, p, d);
  }

  lemma NumbersOf(s: string, p: nat, n: (nat, nat), m: (nat, nat))
    requires p <= |s| && Number(s, p) == Some(n) && Number(s, n.1) == Some(m)
    ensures Numbers(s, p, true) == Some(Match(m.1, Decimal(s[n.0..n.1]), Decimal(s[m.0..m.1])))
  {
  }

  // s goes on, at p, with a space and c, and then, at q, as EndsAt says.
  ghost predicate TwoAt(s: string, p: nat, c: string, q: nat, d: string) {
    q == p + 1 + |c| && q < |s| && s[p] == ' ' && s[p + 1..q] == c && AllDigits(c) && EndsAt(s, q, d)
  }

  lemma NumbersTwo(s: string, p: nat, c: string, q: nat, d: string)
    requires TwoAt(s, p, c, q, d)
    ensures Numbers(s, p, true) == Some(Match(q + 1 + |d|, Decimal(c), Decimal(d)))
  {
    NumberAt(s, p, c);
    NumberAt(s, q, d);
    NumbersOf(s, p, (p + 1, q), (q + 1, q + 1 + |d|));
  }

  lemma ClosedIs(s: string, n: Match, c: nat)
    requires n.len <= |s| && BlankEnd(s, n.len) == c && ClosesAt(s, c)
    ensures Closed(s, Some(n)) == Some(Match(c + 2, n.i, n.j))
  {
  }

  lemma RestTwo(s: string, p: nat, c: string, q: nat, d: string)
    requires TwoAt(s, p, c, q, d)
    ensures Rest(s, p, true) == Some(Match(q + |d| + 4, Decimal(c), Decimal(d)))
  {
    NumbersTwo(s, p, c, q, d);
    BlankOnce(s, q + 1 + |d|);
    ClosedIs(s, Match(q + 1 + |d|, Decimal(c), Decimal(d)), q + 2 + |d|);
  }

  lemma NameAt(s: string, name: string, two: bool)
    requires |name| > 0 && !Blank(name[0]) && 3 + |name| <= |s|
    requires s[0] == '{' && s[1] == '{' && s[2] == ' ' && s[3..3 + |name|] == name
    ensures MatchNamed(s, name, two) == Rest(s, 3 + |name|, two)
  {
    assert s[3] == s[3..3 + |name|][0];
    BlankOnce(s, 2);
  }

  // The templates for printed numbers.
  function MountText(d: string): string { "{{ mount " + d + " }}" }

  function OverlayText(c: string, d: string): string { "{{ overlay " + c + " " + d + " }}" }

  function PrintMount(n: nat): string { MountText(Itoa(n)) }

  function PrintOverlay(m: nat, n: nat): string { OverlayText(Itoa(m), Itoa(n)) }

  // head is "{{ name ".
  ghost predicate Head(head: string, name: string) {
    && |head| == 4 + |name| && |name| > 0 && !Blank(name[0])
    && head[0] == '{' && head[1] == '{' && head[2] == ' ' && head[3..3 + |name|] == name && head[3 + |name|] == ' '
  }

  lemma HeadMatches(s: string, head: string, name: string, two: bool)
    requires Head(head, name) && head <= s
    ensures MatchNamed(s, name, two) == Rest(s, 3 + |name|, two)
  {
    assert s[..|head|] == head;
    assert s[3..3 + |name|] == head[3..3 + |name|];
    NameAt(s, name, two);
  }

  lemma OneMatches(s: string, head: string, name: string, p: nat, d: string)
    requires Head(head, name) && head <= s && p == 3 + |name| && EndsAt(s, p, d)
    ensures MatchNamed(s, name, false) == Some(Match(p + |d| + 4, Decimal(d), 0))
  {
    HeadMatches(s, head, name, false);
    RestOne(s, p, d);
    assert MatchNamed(s, name, false) == Rest(s, p, false);
  }

  lemma TwoMatch(s: string, head: string, name: string, p: nat, c: string, q: nat, d: string)
    requires Head(head, name) && head <= s && p == 3 + |name| && TwoAt(s, p, c, q, d)
    ensures MatchNamed(s, name, true) == Some(Match(q + |d| + 4, Decimal(c), Decimal(d)))
  {
    HeadMatches(s, head, name, true);
    RestTwo(s, p, c, q, d);
    assert MatchNamed(s, name, true) == Rest(s, p, true);
  }

  lemma TailEnds(a: string, d: string, b: string, post: string)
    requires a != "" && a[|a| - 1] == ' ' && AllDigits(d) && |b| == 3 && b[0] == ' ' && b[1] == '}' && b[2] == '}'
    ensures var s := a + d + b + post;
            a <= s && EndsAt(s, |a| - 1, d)
  {
    var s := a + d + b + post;
    assert s[|a|..|a| + |d|] == d;
  }

  lemma MountMatches(d: string, post: string)
    requires AllDigits(d)
    ensures MatchAt(MountText(d) + post, Mount) == Some(Match(|MountText(d)|, Decimal(d), 0))
  {
    TailEnds("{{ mount ", d, " }}", post);
    OneMatches(MountText(d) + post, "{{ mount ", "mount", 8, d);
  }

  // The pieces of the printed overlay template.
  lemma PiecesOfTwo(head: string, c: string, d: string, b: string, post: string)
    requires head != "" && head[|head| - 1] == ' ' && AllDigits(c) && AllDigits(d)
    requires |b| == 3 && b[0] == ' ' && b[1] == '}' && b[2] == '}'
    ensures var s := head + c + " " + d + b + post;
            head <= s && TwoAt(s, |head| - 1, c, |head| + |c|, d)
  {
    var s := head + c + " " + d + b + post;
    TailEnds(head + c + " ", d, b, post);
    assert s == head + c + (" " + d + b + post);
    assert s[|head|..|head| + |c|] == c;
  }

  lemma OverlayAt(s: string, c: string, q: nat, d: string)
    requires "{{ overlay " <= s && TwoAt(s, 10, c, q, d) && |s| == q + |d| + 4
    ensures MatchAt(s, Overlay) == Some(Match(|s|, Decimal(c), Decimal(d)))
  {
    OverlayHead();
    NamedOverlayAt(s, "{{ overlay ", Name(Overlay), c, q, d);
  }

  lemma OverlayHead()
    ensures Head("{{ overlay ", Name(Overlay)) && |Name(Overlay)| == 7
  {
  }

  lemma NamedOverlayAt(s: string, head: string, name: string, c: string, q: nat, d: string)
    requires name == Name(Overlay) && |name| == 7 && Head(head, name)
    requires head <= s && TwoAt(s, 10, c, q, d) && |s| == q + |d| + 4
    ensures MatchAt(s, Overlay) == Some(Match(|s|, Decimal(c), Decimal(d)))
  {
    TwoMatch(s, head, name, 10, c, q, d);
  }

  lemma OverlayTextAt(c: string, d: string)
    requires AllDigits(c) && AllDigits(d)
    ensures var t := OverlayText(c, d);
            "{{ overlay " <= t && TwoAt(t, 10, c, 11 + |c|, d) && |t| == 15 + |c| + |d|
  {
    PiecesOfTwo("{{ overlay ", c, d, " }}", "");
    assert OverlayText(c, d) + "" == OverlayText(c, d);
  }

  // ---------------------------------------------------------------- expanding it

  lemma NoBraces(s: string)
    requires '{' !in s
    ensures !HasBraces(s)
  {
  }

  // t starts with a template of kind k and goes on with post.
  ghost predicate StartsWith(t: string, k: Kind, m: Match, post: string) {
    m.len <= |t| && t[m.len..] == post && MatchAt(t, k) == Some(m)
  }

  lemma SubstituteFirst(t: string, k: Kind, m: Match, post: string, v: string, mounts: seq<ActiveMount>)
    requires StartsWith(t, k, m, post) && '{' !in post && Value(k, m, mounts) == Some(v) && Safe(v)
    ensures Substitute(t, ALL, mounts) == Some(v + post) && Tame(t, mounts)
  {
    FindAny(t, ALL, k);
    NoBraces(post);
    NoBracesNoTemplates(post, mounts);
    TameText(post, mounts);
  }

  lemma SubstituteAfter(pre: string, t: string, w: string, mounts: seq<ActiveMount>)
    requires '{' !in pre && Substitute(t, ALL, mounts) == Some(w) && Tame(t, mounts)
    ensures Substitute(pre + t, ALL, mounts) == Some(pre + w) && Tame(pre + t, mounts)
  {
    var s := pre + t;
    NothingBefore(pre, t, ALL);
    assert s[|pre|..] == t && s[..|pre|] == pre;
    TameLater(s, |pre|, mounts);
    CopyThrough(s, |pre|, ALL, mounts);
  }

  lemma FormatOf(s: string, w: string, mounts: seq<ActiveMount>)
    requires Tame(s, mounts) && Substitute(s, ALL, mounts) == Some(w) && '{' !in w
    ensures Format(s, mounts) == Some(w)
  {
    FormatIsSimultaneous(s, mounts);
    NoBraces(w);
  }

  // A single template inside text without braces is replaced by its value.
  lemma ExpandOne(pre: string, t: string, post: string, k: Kind, m: Match, v: string, mounts: seq<ActiveMount>)
    requires '{' !in pre && '{' !in post && Safe(v)
    requires StartsWith(t, k, m, post) && Value(k, m, mounts) == Some(v)
    ensures Format(pre + t, mounts) == Some(pre + (v + post))
  {
    SubstituteFirst(t, k, m, post, v, mounts);
    SubstituteAfter(pre, t, v + post, mounts);
    FormatOf(pre + t, pre + (v + post), mounts);
  }

  lemma {:induction false} TameText(s: string, mounts: seq<ActiveMount>)
    requires '{' !in s
    ensures Tame(s, mounts)
  {
    if s != "" {
      assert !Opens(s);
      TameText(s[1..], mounts);
    }
  }

  lemma ExpandMount(pre: string, n: nat, post: string, mounts: seq<ActiveMount>)
    requires '{' !in pre && '{' !in post && n < |mounts| && Safe(mounts[n].mountPoint)
    ensures Format(pre + (PrintMount(n) + post), mounts) == Some(pre + (mounts[n].mountPoint + post))
  {
    MountMatches(Itoa(n), post);
    DecimalOfItoa(n);
    var t, m := PrintMount(n) + post, Match(|PrintMount(n)|, n, 0);
    assert t[m.len..] == post;
    ExpandOne(pre, t, post, Mount, m, mounts[n].mountPoint, mounts);
  }

  lemma StartsOverlay(t: string, c: string, d: string)
    requires "{{ overlay " <= t && TwoAt(t, 10, c, 11 + |c|, d) && |t| == 15 + |c| + |d|
    ensures StartsWith(t, Overlay, Match(|t|, Decimal(c), Decimal(d)), "")
  {
    OverlayAt(t, c, 11 + |c|, d);
    assert t[|t|..] == "";
  }

  lemma ExpandTwo(pre: string, t: string, c: string, d: string, v: string, mounts: seq<ActiveMount>)
    requires '{' !in pre && "{{ overlay " <= t && TwoAt(t, 10, c, 11 + |c|, d) && |t| == 15 + |c| + |d|
    requires OverlayDirs(Decimal(c), Decimal(d), mounts) == Some(v) && Safe(v)
    ensures Format(pre + t, mounts) == Some(pre + v)
  {
    StartsOverlay(t, c, d);
    assert v + "" == v;
    ExpandOne(pre, t, "", Overlay, Match(|t|, Decimal(c), Decimal(d)), v, mounts);
  }

  lemma ExpandOverlay(pre: string, m: nat, n: nat, mounts: seq<ActiveMount>)
    requires '{' !in pre && m <= n < |mounts|
    requires forall k :: m <= k <= n ==> Safe(mounts[k].mountPoint)
    ensures Format(pre + PrintOverlay(m, n), mounts) == Some(pre + Join(MountPoints(m, n, mounts), ":"))
  {
    SafeJoin(MountPoints(m, n, mounts));
    OverlayTextAt(Itoa(m), Itoa(n));
    DecimalOfItoa(m);
    DecimalOfItoa(n);
    ExpandTwo(pre, PrintOverlay(m, n), Itoa(m), Itoa(n), Join(MountPoints(m, n, mounts), ":"), mounts);
  }
}
