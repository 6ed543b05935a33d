/** Strings the components agree on: claim names, resource names, profile names. */
module Naming {
  import opened Claims
  import opened Sums

  predicate HasPrefix(s: string, p: string) {
    |p| <= |s| && s[..|p|] == p
  }

  predicate Contains(s: string, t: string) {
    HasPrefix(s, t) || (s != "" && Contains(s[1..], t))
  }

  predicate StandsAt(s: string, t: string, i: int) {
    0 <= i <= |s| - |t| && s[i..i + |t|] == t
  }

  /** strings.Contains: the text stands somewhere in the string. */
  lemma {:induction false} ContainsIs(s: string, t: string)
    ensures Contains(s, t) <==> exists i :: StandsAt(s, t, i)
  {
    assert HasPrefix(s, t) <==> StandsAt(s, t, 0);
    if s != "" {
      var u := s[1..];
      ContainsIs(u, t);
      forall i: int
        ensures StandsAt(u, t, i) <==> i >= 0 && StandsAt(s, t, i + 1)
      {
        if 0 <= i <= |u| - |t| { assert u[i..i + |t|] == s[i + 1..i + 1 + |t|]; }
      }
      if i :| StandsAt(s, t, i) && i != 0 {
        assert StandsAt(u, t, i - 1);
      }
    }
  }

  // ---- claim names ----

  function Itoa(n: nat): (s: string)
    ensures s != "" && forall i :: 0 <= i < |s| ==> '0' <= s[i] <= '9'
  {
    var d := ['0' + (n % 10) as char];
    if n < 10 then d else Itoa(n / 10) + d
  }

  /** The number a string of digits stands for. */
  function Decimal(s: string): int {
    if s == "" then 0 else 10 * Decimal(s[..|s| - 1]) + (s[|s| - 1] as int - '0' as int)
  }

  /** strconv.Itoa: the decimal digits of n, without leading zeroes. */
  lemma {:induction false} ItoaIsDecimal(n: nat)
    ensures Decimal(Itoa(n)) == n && (|Itoa(n)| > 1 ==> Itoa(n)[0] != '0')
  {
    var s, d := Itoa(n), ['0' + (n % 10) as char];
    if n < 10 {
      assert s[..|s| - 1] == "";
    } else {
      ItoaIsDecimal(n / 10);
      assert s == Itoa(n / 10) + d && s[..|s| - 1] == Itoa(n / 10);
      assert s[0] == Itoa(n / 10)[0];
      if |Itoa(n / 10)| == 1 {
        OneDigit(Itoa(n / 10));
      }
    }
  }

  lemma OneDigit(s: string)
    requires |s| == 1
    ensures Decimal(s) == s[0] as int - '0' as int
  {
    assert s[..0] == "";
  }

  lemma {:induction false} ItoaInjective(a: nat, b: nat)
    requires Itoa(a) == Itoa(b)
    ensures a == b
  {
    var x, y := Itoa(a), Itoa(b);
    assert x[|x| - 1] == '0' + (a % 10) as char && y[|y| - 1] == '0' + (b % 10) as char;
    if a >= 10 && b >= 10 {
      assert Itoa(a / 10) == x[..|x| - 1] && Itoa(b / 10) == y[..|y| - 1];
      ItoaInjective(a / 10, b / 10);
    }
  }

  /** fmt.Sprintf("%s-%s-%s-%d", uid, node, container, ordinal). */
  function ClaimName(k: Key): string {
    k.pod + "-" + k.node + "-" + k.container + "-" + Itoa(k.ordinal)
  }

  lemma LastDash(x: string, d: string, y: string, e: string)
    requires '-' !in d && '-' !in e
    requires x + "-" + d == y + "-" + e
    ensures x == y && d == e
  {
    var s, t := x + "-" + d, y + "-" + e;
    DashInside(x, d, y, e);
    DashInside(y, e, x, d);
    assert x == s[..|x|] && y == t[..|y|];
    assert d == s[|x| + 1..] && e == t[|y| + 1..];
  }

  lemma DashInside(x: string, d: string, y: string, e: string)
    requires x + "-" + d == y + "-" + e
    ensures |x| < |y| ==> '-' in d
  {
    if |x| < |y| {
      assert (x + "-" + d)[|y|] == d[|y| - |x| - 1] && (y + "-" + e)[|y|] == '-';
    }
  }

  /**
   * Exactly when two claims collide, given pod UIDs of one length: same pod, same ordinal, and node
   * and container names that join to the same text. On one node the names never collide.
   */
  lemma NamesCollide(a: Key, b: Key)
    requires |a.pod| == |b.pod|
    ensures ClaimName(a) == ClaimName(b) <==>
            a.pod == b.pod && a.ordinal == b.ordinal && a.node + "-" + a.container == b.node + "-" + b.container
    ensures ClaimName(a) == ClaimName(b) && a.node == b.node ==> a == b
  {
    var x, y := a.node + "-" + a.container, b.node + "-" + b.container;
    assert ClaimName(a) == (a.pod + "-" + x) + "-" + Itoa(a.ordinal);
    assert ClaimName(b) == (b.pod + "-" + y) + "-" + Itoa(b.ordinal);
    if ClaimName(a) == ClaimName(b) {
      var p, q := a.pod + "-" + x, b.pod + "-" + y;
      LastDash(p, Itoa(a.ordinal), q, Itoa(b.ordinal));
      ItoaInjective(a.ordinal, b.ordinal);
      assert a.pod == p[..|a.pod|] && b.pod == q[..|a.pod|];
      assert x == p[|a.pod| + 1..] && y == q[|b.pod| + 1..];
      if a.node == b.node {
        assert a.container == x[|a.node| + 1..] && b.container == y[|b.node| + 1..];
      }
    }
  }

  /** Across nodes, names are distinct as soon as no node name extends another by a dash. */
  lemma NamesDistinctAcrossNodes(a: Key, b: Key)
    requires |a.pod| == |b.pod| && a != b
    requires a.node != b.node ==> !HasPrefix(a.node, b.node + "-") && !HasPrefix(b.node, a.node + "-")
    ensures ClaimName(a) != ClaimName(b)
  {
    NamesCollide(a, b);
    if ClaimName(a) == ClaimName(b) {
      JoinedNames(a.node, a.container, b.node, b.container);
      JoinedNames(b.node, b.container, a.node, a.container);
    }
  }

  lemma JoinedNames(n1: string, c1: string, n2: string, c2: string)
    requires n1 + "-" + c1 == n2 + "-" + c2
    ensures |n1| < |n2| ==> HasPrefix(n2, n1 + "-")
    ensures |n1| == |n2| ==> n1 == n2
  {
    var x, y := n1 + "-" + c1, n2 + "-" + c2;
    assert n1 == x[..|n1|] && n2 == y[..|n2|];
    if |n1| < |n2| {
      assert n2[..|n1| + 1] == y[..|n1| + 1] && x[..|n1| + 1] == n1 + "-";
    }
  }

  /** Node `n` with container `x-y` and node `n-x` with container `y` share a claim name. */
  lemma NamesDoCollide(uid: string)
    ensures var a, b := Key(uid, "n", "x-y", 0), Key(uid, "n-x", "y", 0);
      a != b && ClaimName(a) == ClaimName(b)
  {
    NamesCollide(Key(uid, "n", "x-y", 0), Key(uid, "n-x", "y", 0));
  }

  // ---- profile names as resource names ----

  /** strings.ReplaceAll: left to right, without overlaps. */
  function ReplaceAll(s: string, old_: string, new_: string): string
    requires old_ != ""
  {
    if |s| < |old_| then s
    else if s[..|old_|] == old_ then new_ + ReplaceAll(s[|old_|..], old_, new_)
    else [s[0]] + ReplaceAll(s[1..], old_, new_)
  }

  function Sanitize(profile: string): string {
    ReplaceAll(profile, "+", "-plus-")
  }

  function Unsanitize(profile: string): string {
    ReplaceAll(profile, "-plus-", "+")
  }

  lemma SanitizeStep(p: string)
    requires p != ""
    ensures Sanitize(p) == (if p[0] == '+' then "-plus-" else [p[0]]) + Sanitize(p[1..])
  {
  }

  /** p begins with t, except that t's last character stands for '-' or '+'. */
  predicate LooksLike(p: string, t: string)
    requires t != ""
  {
    |p| >= |t| && p[..|t| - 1] == t[..|t| - 1] && (p[|t| - 1] == '-' || p[|t| - 1] == '+')
  }

  lemma LooksLikeStep(p: string, t: string)
    requires p != "" && |t| >= 2
    ensures LooksLike(p, t) <==> p[0] == t[0] && LooksLike(p[1..], t[1..])
  {
    var n := |t| - 1;
    if |p| >= |t| {
      assert p[..n] == [p[0]] + p[1..][..n - 1] && t[..n] == [t[0]] + t[1..][..n - 1];
      assert p[n] == p[1..][n - 1];
      if p[..n] == t[..n] {
        assert p[0] == p[..n][0] && t[0] == t[..n][0];
        assert p[1..][..n - 1] == p[..n][1..] && t[1..][..n - 1] == t[..n][1..];
      }
    }
  }

  lemma HasPrefixStep(s: string, t: string)
    requires s != "" && t != ""
    ensures HasPrefix(s, t) <==> s[0] == t[0] && HasPrefix(s[1..], t[1..])
  {
  }

  lemma {:induction false} SanitizeStarts(p: string, t: string)
    requires t != "" && t[|t| - 1] == '-' && forall i :: 0 <= i < |t| - 1 ==> t[i] != '-' && t[i] != '+'
    ensures HasPrefix(Sanitize(p), t) <==> LooksLike(p, t)
  {
    hide LooksLike, HasPrefix;
    if p == "" {
      NothingLooksLike(t);
    } else {
      SanitizeStep(p);
      HasPrefixStep(Sanitize(p), t);
      if |t| == 1 {
        OneCharacter(p, t, Sanitize(p));
      } else {
        LooksLikeStep(p, t);
        SanitizeStarts(p[1..], t[1..]);
        if p[0] != '+' {
          assert Sanitize(p)[1..] == Sanitize(p[1..]);
        }
      }
    }
  }

  lemma NothingLooksLike(t: string)
    requires t != ""
    ensures !LooksLike("", t) && !HasPrefix(Sanitize(""), t)
  {
  }

  lemma OneCharacter(p: string, t: string, s: string)
    requires p != "" && t == "-" && s != "" && s[0] == (if p[0] == '+' then '-' else p[0])
    ensures HasPrefix(s, t) <==> LooksLike(p, t)
  {
  }

  /**
   * Profile names round trip through resource names exactly when they contain neither "-plus-" nor
   * "-plus+". In particular every name without a dash does.
   */
  lemma {:induction false} ProfileRoundTrip(p: string)
    ensures Unsanitize(Sanitize(p)) == p <==> !Contains(p, "-plus-") && !Contains(p, "-plus+")
  {
    if p != "" {
      var s, rest := Sanitize(p), p[1..];
      SanitizeStep(p);
      ProfileRoundTrip(rest);
      if p[0] == '+' {
        assert s[..6] == "-plus-" && s[6..] == Sanitize(rest);
        assert Unsanitize(s) == "+" + Unsanitize(Sanitize(rest));
        assert p == "+" + rest;
      } else {
        assert s[1..] == Sanitize(rest);
        SanitizeStarts(rest, "plus-");
        assert "plus-"[..4] == "plus";
        DashPlus(p);
        assert HasPrefix(s, "-plus-") <==> s[0] == '-' && HasPrefix(s[1..], "plus-") by {
          assert "-plus-" == "-" + "plus-";
          assert |s| >= 6 ==> s[..6] == [s[0]] + s[1..][..5];
        }
        if HasPrefix(s, "-plus-") {
          assert Unsanitize(s)[0] == '+';
        } else {
          assert Unsanitize(s) == [p[0]] + Unsanitize(Sanitize(rest));
          assert p == [p[0]] + rest;
        }
      }
    }
  }

  lemma DashPlus(p: string)
    requires p != ""
    ensures HasPrefix(p, "-plus-") || HasPrefix(p, "-plus+") <==>
            p[0] == '-' && |p| >= 6 && p[1..][..4] == "plus" && (p[5] == '-' || p[5] == '+')
  {
    if |p| >= 6 {
      assert p[..6] == [p[0]] + p[1..][..4] + [p[5]];
      assert "-plus-" == "-" + "plus" + "-" && "-plus+" == "-" + "plus" + "+";
    }
  }

  /** Distinct round-tripping profiles get distinct resource names. */
  lemma ResourceNamesDistinct(p: string, q: string)
    requires '-' !in p && '-' !in q && p != q
    ensures Sanitize(p) != Sanitize(q)
  {
    NoDashRoundTrips(p);
    NoDashRoundTrips(q);
  }

  lemma NoDashRoundTrips(p: string)
    requires '-' !in p
    ensures Unsanitize(Sanitize(p)) == p
  {
    ProfileRoundTrip(p);
    NotContained(p, "-plus-");
    NotContained(p, "-plus+");
  }

  lemma {:induction false} NotContained(s: string, t: string)
    requires t != "" && forall i :: 0 <= i <= |s| - |t| ==> s[i] != t[0]
    ensures !Contains(s, t)
  {
    if s != "" {
      NotContained(s[1..], t);
      if |t| <= |s| { assert s[..|t|][0] != t[0]; }
    }
  }

  // ---- the scheduler's profile pattern \d+g\.\d+gb ----

  predicate IsDigit(c: char) {
    '0' <= c <= '9'
  }

  function DigitRun(s: string, i: nat): (n: nat)
    requires i <= |s|
    ensures i + n <= |s|
    decreases |s| - i
  {
    if i < |s| && IsDigit(s[i]) then 1 + DigitRun(s, i + 1) else 0
  }

  /** Length of the match of the pattern at position i, 0 if there is none. */
  function MatchLen(s: string, i: nat): (n: nat)
    requires i <= |s|
    ensures i + n <= |s|
    ensures n > 0 ==> IsDigit(s[i])
  {
    var d := DigitRun(s, i);
    var j := i + d;
    if d == 0 || j + 2 > |s| || s[j] != 'g' || s[j + 1] != '.' then 0
    else
      var e := DigitRun(s, j + 2);
      var k := j + 2 + e;
      if e == 0 || k + 2 > |s| || s[k] != 'g' || s[k + 1] != 'b' then 0 else k + 2 - i
  }

  /** The leftmost match from position i on. */
  function FirstMatch(s: string, i: nat := 0): Option<string>
    requires i <= |s|
    decreases |s| - i
  {
    if MatchLen(s, i) > 0 then Some(s[i..i + MatchLen(s, i)])
    else if i == |s| then None
    else FirstMatch(s, i + 1)
  }

  /** The profile the scheduler reads off a resource name. */
  function ProfileOf(key: string): Option<string> {
    if Contains(key, "nvidia.com/mig-") || Contains(key, "mig.das.com/") then FirstMatch(key) else None
  }

  /** The whole string is a profile of the form <digits>g.<digits>gb. */
  predicate PlainProfile(p: string) {
    p != "" && MatchLen(p, 0) == |p|
  }

  predicate Digits(d: string) {
    d != "" && forall i :: 0 <= i < |d| ==> IsDigit(d[i])
  }

  lemma {:induction false} DigitRunIs(d: string, rest: string, i: nat)
    requires i <= |d| && (forall j :: 0 <= j < |d| ==> IsDigit(d[j])) && (rest == "" || !IsDigit(rest[0]))
    ensures DigitRun(d + rest, i) == |d| - i
    decreases |d| - i
  {
    if i < |d| { DigitRunIs(d, rest, i + 1); }
  }

  /** The pattern matches digits, "g.", digits, "gb", and nothing after them. */
  lemma MatchLenIs(d: string, e: string, post: string)
    requires Digits(d) && Digits(e)
    ensures MatchLen(d + "g." + e + "gb" + post, 0) == |d| + 2 + |e| + 2
  {
    var s := d + "g." + e + "gb" + post;
    DigitRunIs(d, "g." + e + "gb" + post, 0);
    assert s == d + ("g." + e + "gb" + post);
    DigitRunIs(e, "gb" + post, 0);
    DigitRunShift(d + "g.", e + ("gb" + post), 0);
    assert s == (d + "g.") + (e + ("gb" + post));
  }

  ghost predicate IsForm(p: string, d: string, e: string) {
    Digits(d) && Digits(e) && p == d + "g." + e + "gb"
  }

  /** A plain profile is exactly digits, "g.", digits, "gb". */
  lemma PlainProfileIs(p: string)
    ensures PlainProfile(p) <==> exists d, e :: IsForm(p, d, e)
  {
    if PlainProfile(p) {
      var d, e := PlainParts(p);
    }
    if d, e :| IsForm(p, d, e) {
      MatchLenIs(d, e, "");
      assert d + "g." + e + "gb" + "" == p;
    }
  }

  lemma PlainParts(p: string) returns (d: string, e: string)
    requires PlainProfile(p)
    ensures IsForm(p, d, e)
  {
    var n := DigitRun(p, 0);
    var m := DigitRun(p, n + 2);
    DigitRunDigits(p, 0);
    DigitRunDigits(p, n + 2);
    d, e := p[..n], p[n + 2..n + 2 + m];
    assert p[n..n + 2] == "g." && p[n + 2 + m..] == "gb";
    assert p == p[..n] + p[n..n + 2] + p[n + 2..n + 2 + m] + p[n + 2 + m..];
  }

  /** The scheduler reads the profile that follows a prefix without digits, whatever comes after it. */
  lemma FirstMatchIs(pre: string, d: string, e: string, post: string)
    requires Digits(d) && Digits(e) && forall i :: 0 <= i < |pre| ==> !IsDigit(pre[i])
    ensures FirstMatch(pre + (d + "g." + e + "gb" + post)) == Some(d + "g." + e + "gb")
  {
    var s := d + "g." + e + "gb" + post;
    FirstMatchSkips(pre, s, 0);
    MatchLenIs(d, e, post);
    assert s[0..|d| + 2 + |e| + 2] == d + "g." + e + "gb";
  }

  lemma {:induction false} DigitRunShift(pre: string, s: string, i: nat)
    requires i <= |s|
    ensures DigitRun(pre + s, |pre| + i) == DigitRun(s, i)
    decreases |s| - i
  {
    if i < |s| && IsDigit(s[i]) { DigitRunShift(pre, s, i + 1); }
  }

  lemma MatchLenShift(pre: string, s: string, i: nat)
    requires i <= |s|
    ensures MatchLen(pre + s, |pre| + i) == MatchLen(s, i)
  {
    DigitRunShift(pre, s, i);
    var j := i + DigitRun(s, i);
    if j + 2 <= |s| { DigitRunShift(pre, s, j + 2); }
  }

  lemma {:induction false} FirstMatchShift(pre: string, s: string, i: nat)
    requires i <= |s|
    ensures FirstMatch(pre + s, |pre| + i) == FirstMatch(s, i)
    decreases |s| - i
  {
    MatchLenShift(pre, s, i);
    assert (pre + s)[|pre| + i..|pre| + i + MatchLen(s, i)] == s[i..i + MatchLen(s, i)];
    if MatchLen(s, i) == 0 && i < |s| { FirstMatchShift(pre, s, i + 1); }
  }

  /** A prefix without digits does not change what the pattern finds. */
  lemma {:induction false} FirstMatchSkips(pre: string, s: string, i: nat)
    requires i <= |pre| && forall j :: 0 <= j < |pre| ==> !IsDigit(pre[j])
    ensures FirstMatch(pre + s, i) == FirstMatch(s)
    decreases |pre| - i
  {
    if i < |pre| {
      assert (pre + s)[i] == pre[i];
      FirstMatchSkips(pre, s, i + 1);
    } else {
      FirstMatchShift(pre, s, 0);
    }
  }

  lemma {:induction false} DigitRunPrefix(s: string, n: nat, i: nat)
    requires i <= n <= |s| && i + DigitRun(s, i) <= n
    ensures DigitRun(s[..n], i) == DigitRun(s, i)
    decreases n - i
  {
    if i < n && IsDigit(s[i]) { DigitRunPrefix(s, n, i + 1); }
  }

  lemma MatchIsPlain(s: string, i: nat)
    requires i <= |s| && MatchLen(s, i) > 0
    ensures PlainProfile(s[i..i + MatchLen(s, i)])
  {
    var n := i + MatchLen(s, i);
    var j := i + DigitRun(s, i);
    DigitRunPrefix(s, n, i);
    DigitRunPrefix(s, n, j + 2);
    assert MatchLen(s[..n], i) == MatchLen(s, i);
    assert s[..n] == s[..i] + s[i..n];
    MatchLenShift(s[..i], s[i..n], 0);
  }

  lemma {:induction false} FirstMatchIsPlain(s: string, i: nat)
    requires i <= |s|
    ensures FirstMatch(s, i).Some? ==> PlainProfile(FirstMatch(s, i).value)
    decreases |s| - i
  {
    if MatchLen(s, i) > 0 { MatchIsPlain(s, i); } else if i < |s| { FirstMatchIsPlain(s, i + 1); }
  }

  /** The scheduler reads a profile off every key that names one of the two domains, wherever they stand. */
  lemma ProfileIsRead(pre: string, domain: string, mid: string, d: string, e: string, post: string)
    requires domain == "nvidia.com/mig-" || domain == "mig.das.com/"
    requires Digits(d) && Digits(e)
    requires (forall i :: 0 <= i < |pre| ==> !IsDigit(pre[i])) && forall i :: 0 <= i < |mid| ==> !IsDigit(mid[i])
    ensures ProfileOf(pre + domain + mid + (d + "g." + e + "gb" + post)) == Some(d + "g." + e + "gb")
  {
    var head, tail := pre + domain + mid, d + "g." + e + "gb" + post;
    var key := head + tail;
    assert forall i :: 0 <= i < |head| ==> !IsDigit(head[i]);
    FirstMatchIs(head, d, e, post);
    assert StandsAt(key, domain, |pre|);
    ContainsIs(key, domain);
  }

  lemma {:induction false} NoPlusUnchanged(p: string)
    requires '+' !in p
    ensures Sanitize(p) == p
  {
    if p != "" {
      SanitizeStep(p);
      NoPlusUnchanged(p[1..]);
      assert p == [p[0]] + p[1..];
    }
  }

  lemma {:induction false} DigitRunDigits(s: string, i: nat)
    requires i <= |s|
    ensures forall j :: i <= j < i + DigitRun(s, i) ==> IsDigit(s[j])
    decreases |s| - i
  {
    if i < |s| && IsDigit(s[i]) { DigitRunDigits(s, i + 1); }
  }

  lemma PlainHasNoPlus(p: string)
    requires PlainProfile(p)
    ensures '+' !in p && '-' !in p && '/' !in p
  {
    var d := DigitRun(p, 0);
    DigitRunDigits(p, 0);
    DigitRunDigits(p, d + 2);
  }

  /** The part of a resource name after its last slash. */
  function AfterSlash(s: string): (r: string)
    ensures '/' !in r
  {
    if s == "" then "" else if '/' in s[1..] || s[0] == '/' then AfterSlash(s[1..]) else s
  }

  /** The profile the device plugin looks claims up by. */
  function LookupProfile(resource: string): string {
    Unsanitize(AfterSlash(resource))
  }

  function ResourceName(profile: string): string {
    "mig.das.com/" + Sanitize(profile)
  }

  /**
   * The scheduler stages claims under the profile the device plugin looks up exactly for plain
   * profiles. A suffixed one such as 1g.5gb+me is staged as 1g.5gb and never found.
   */
  lemma ClaimsAreFound(p: string)
    requires '-' !in p && '/' !in p
    ensures LookupProfile(ResourceName(p)) == p
    ensures ProfileOf(ResourceName(p)) == Some(LookupProfile(ResourceName(p))) <==> PlainProfile(p)
  {
    var key, s := ResourceName(p), Sanitize(p);
    NoDashRoundTrips(p);
    SanitizeNoSlash(p);
    AfterSlashSkips("mig.das.com/", s, 0);
    assert HasPrefix(key, "mig.das.com/");
    FirstMatchSkips("mig.das.com/", s, 0);
    FirstMatchIsPlain(s, 0);
    if PlainProfile(p) {
      PlainHasNoPlus(p);
      NoPlusUnchanged(p);
      assert p[0..0 + |p|] == p;
    }
  }

  lemma {:induction false} SanitizeNoSlash(p: string)
    requires '/' !in p
    ensures '/' !in Sanitize(p)
  {
    if p != "" {
      SanitizeStep(p);
      SanitizeNoSlash(p[1..]);
    }
  }

  lemma {:induction false} AfterSlashSkips(pre: string, s: string, i: nat)
    requires '/' !in s && pre != "" && pre[|pre| - 1] == '/' && i <= |pre|
    ensures AfterSlash((pre + s)[i..]) == s
    decreases |pre| - i
  {
    var t := (pre + s)[i..];
    if i < |pre| {
      assert t[1..] == (pre + s)[i + 1..];
      AfterSlashSkips(pre, s, i + 1);
      assert t[|pre| - 1 - i] == '/';
    } else {
      assert t == s;
      if s != "" { assert forall c :: c in s[1..] ==> c in s; }
    }
  }

  // ---- demand ----

  /** extractProfileNames counts a quantity below one as one. */
  function Copies(quantity: int): nat {
    if quantity < 1 then 1 else quantity
  }

  function DemandAt(limits: map<string, int>, profile: string): string -> nat {
    key => if key in limits && ProfileOf(key) == Some(profile) then Copies(limits[key]) else 0
  }

  /** How many slices of a profile the limits ask for. */
  ghost function Demand(limits: map<string, int>, profile: string): nat {
    Sum(limits.Keys, DemandAt(limits, profile))
  }

  /** The list holds exactly the slices the given limit keys ask for. */
  ghost predicate Tally(profiles: seq<string>, limits: map<string, int>, keys: set<string>) {
    forall p :: multiset(profiles)[p] == Sum(keys, DemandAt(limits, p))
  }

  /** Some key of the limits asks for slices of the profile. */
  predicate Asks(limits: map<string, int>, profile: string) {
    exists key :: key in limits && ProfileOf(key) == Some(profile)
  }

  /** Nothing is listed that was not asked for. */
  lemma ListedIsAsked(profiles: seq<string>, limits: map<string, int>, profile: string)
    requires Tally(profiles, limits, limits.Keys) && profile in profiles
    ensures Asks(limits, profile)
  {
    hide ProfileOf;
    assert multiset(profiles)[profile] > 0;
    SumPositive(limits.Keys, DemandAt(limits, profile));
  }

  /** One more in the quantity of a key is one more slice of its profile. */
  lemma DemandGrows(limits: map<string, int>, key: string, q: int, profile: string)
    requires ProfileOf(key) == Some(profile) && q >= 1
    ensures Demand(limits[key := q + 1], profile) == Demand(limits[key := q], profile) + 1
  {
    hide ProfileOf;
    var a, b := limits[key := q], limits[key := q + 1];
    SumRemove(a.Keys, key, DemandAt(a, profile));
    SumRemove(b.Keys, key, DemandAt(b, profile));
    assert a.Keys == b.Keys;
    SumSame(a.Keys - {key}, DemandAt(a, profile), DemandAt(b, profile));
  }

  /** A single key that reads as the profile asks for its quantity, at least for one; no key asks for none. */
  lemma DemandOfOneKey(limits: map<string, int>, key: string, profile: string)
    requires key in limits && ProfileOf(key) == Some(profile)
    requires forall k :: k in limits && k != key ==> ProfileOf(k) != Some(profile)
    ensures Demand(limits, profile) == if limits[key] >= 1 then limits[key] else 1
  {
    hide ProfileOf;
    SumRemove(limits.Keys, key, DemandAt(limits, profile));
    SumSame(limits.Keys - {key}, DemandAt(limits, profile), _ => 0);
    SumZero<string>(limits.Keys - {key}, _ => 0);
  }

  lemma NoDemand(limits: map<string, int>, profile: string)
    requires !Asks(limits, profile)
    ensures Demand(limits, profile) == 0
  {
    hide ProfileOf;
    SumSame(limits.Keys, DemandAt(limits, profile), _ => 0);
    SumZero<string>(limits.Keys, _ => 0);
  }

  /** What is listed for limits with a single key of the profile: the profile as often as the quantity says. */
  lemma ListedAsOften(profiles: seq<string>, limits: map<string, int>, key: string, profile: string)
    requires Tally(profiles, limits, limits.Keys) && key in limits && ProfileOf(key) == Some(profile)
    requires forall k :: k in limits && k != key ==> ProfileOf(k) != Some(profile)
    ensures multiset(profiles)[profile] == if limits[key] >= 1 then limits[key] else 1
  {
    hide ProfileOf;
    DemandOfOneKey(limits, key, profile);
  }

  lemma TallyStart(limits: map<string, int>)
    ensures Tally([], limits, {})
  {
  }

  lemma TallyStep(before: seq<string>, after: seq<string>, limits: map<string, int>, keys: set<string>, key: string)
    requires Tally(before, limits, keys) && key !in keys && key in limits
    requires ProfileOf(key).None? ==> after == before
    requires ProfileOf(key).Some? ==> Appended(before, after, ProfileOf(key).value, Copies(limits[key]))
    ensures Tally(after, limits, keys + {key})
  {
    forall p
      ensures multiset(after)[p] == Sum(keys + {key}, DemandAt(limits, p))
    {
      hide ProfileOf;
      SumAdd(keys, key, DemandAt(limits, p));
      assert DemandAt(limits, p)(key) == if ProfileOf(key) == Some(p) then Copies(limits[key]) else 0;
    }
  }

  ghost predicate Appended(before: seq<string>, after: seq<string>, profile: string, count: nat) {
    forall p :: multiset(after)[p] == multiset(before)[p] + if p == profile then count else 0
  }

  method AppendCopies(profiles: seq<string>, profile: string, count: nat) returns (r: seq<string>)
    ensures Appended(profiles, r, profile, count)
  {
    r := profiles;
    var i := 0;
    while i < count
      invariant 0 <= i <= count
      invariant Appended(profiles, r, profile, i)
    {
      r := r + [profile];
      i := i + 1;
    }
  }

  /** extractProfileNames: the limits are visited in an arbitrary order. */
  method ExtractProfileNames(limits: map<string, int>) returns (profiles: seq<string>)
    ensures Tally(profiles, limits, limits.Keys)
  {
    hide Tally, Appended, ProfileOf, Copies;
    TallyStart(limits);
    profiles := [];
    var todo := limits.Keys;
    ghost var done: set<string> := {};
    while todo != {}
      invariant done !! todo && done + todo == limits.Keys
      invariant Tally(profiles, limits, done)
      decreases |todo|
    {
      var key :| key in todo;
      var before := profiles;
      var m := ProfileOf(key);
      if m.Some? {
        profiles := AppendCopies(before, m.value, Copies(limits[key]));
      }
      TallyStep(before, profiles, limits, done, key);
      todo := todo - {key};
      done := done + {key};
    }
    assert done == limits.Keys;
  }
}
