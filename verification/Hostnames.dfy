/** Hostnames as internal/coord/coord.go chooses them: sanitized, then made unique. */
module Hostnames {
  import opened Numerals
  import opened Text

  /** The characters hostnameRe lets through. */
  predicate NameChar(c: char) { 'a' <= c <= 'z' || '0' <= c <= '9' || c == '-' }

  predicate IsName(s: string) { forall c :: c in s ==> NameChar(c) }

  function Lowered(s: string, lower: char -> char): string {
    seq(|s|, i requires 0 <= i < |s| => lower(s[i]))
  }

  /** The rest of s once its leading run of other characters is gone. */
  function SkipOther(s: string): (r: string)
    ensures |r| <= |s|
  {
    if s == "" || NameChar(s[0]) then s else SkipOther(s[1..])
  }

  /** Every maximal run of other characters becomes one '-'. */
  function Squash(s: string): string
    decreases |s|
  {
    if s == "" then ""
    else if NameChar(s[0]) then [s[0]] + Squash(s[1..])
    else "-" + Squash(SkipOther(s[1..]))
  }

  function TrimDashes(s: string): string {
    if s == "" then ""
    else if s[0] == '-' then TrimDashes(s[1..])
    else if s[|s| - 1] == '-' then TrimDashes(s[..|s| - 1])
    else s
  }

  /** sanitizeHostname, for whatever case mapping `lower` the platform uses. */
  function Sanitize(h: string, lower: char -> char): string {
    var t := TrimDashes(Squash(Lowered(TrimSpace(h), lower)));
    if |t| > 63 then t[..63] else t
  }

  lemma {:induction false} SquashIsName(s: string)
    ensures IsName(Squash(s))
    decreases |s|
  {
    if s != "" {
      if NameChar(s[0]) { SquashIsName(s[1..]); } else { SquashIsName(SkipOther(s[1..])); }
    }
  }

  lemma {:induction false} TrimDashesIsName(s: string)
    requires IsName(s)
    ensures IsName(TrimDashes(s)) && (TrimDashes(s) != "" ==> TrimDashes(s)[0] != '-')
  {
    if s != "" {
      if s[0] == '-' { TrimDashesIsName(s[1..]); }
      else if s[|s| - 1] == '-' { TrimDashesIsName(s[..|s| - 1]); }
    }
  }

  /** Whatever a device calls itself, the sanitized name is over [a-z0-9-], at most 63
      long and never starts with a dash. */
  lemma SanitizeIsName(h: string, lower: char -> char)
    ensures var r := Sanitize(h, lower); IsName(r) && |r| <= 63 && (r != "" ==> r[0] != '-')
  {
    var t := Squash(Lowered(TrimSpace(h), lower));
    SquashIsName(Lowered(TrimSpace(h), lower));
    TrimDashesIsName(t);
  }

  lemma {:induction false} SquashKeepsNames(s: string)
    requires IsName(s)
    ensures Squash(s) == s
  {
    if s != "" {
      assert s[0] in s && IsName(s[1..]);
      SquashKeepsNames(s[1..]);
    }
  }

  /** A name that already has that form is kept as it is. */
  lemma SanitizeKeepsNames(h: string, lower: char -> char)
    requires IsName(h) && |h| <= 63 && (h != "" ==> h[0] != '-' && h[|h| - 1] != '-')
    requires forall c :: NameChar(c) ==> lower(c) == c
    ensures Sanitize(h, lower) == h
  {
    if h != "" { assert h[0] in h && h[|h| - 1] in h; }
    assert TrimSpace(h) == h;
    assert Lowered(h, lower) == h by {
      forall i | 0 <= i < |h| ensures Lowered(h, lower)[i] == h[i] { assert h[i] in h; }
    }
    SquashKeepsNames(h);
  }

  predicate IsOther(s: string) { forall c :: c in s ==> !NameChar(c) }

  lemma {:induction false} SkipOtherIs(o: string, b: string)
    requires IsOther(o) && (b != "" ==> NameChar(b[0]))
    ensures SkipOther(o + b) == b
  {
    if o == "" {
      assert o + b == b;
    } else {
      assert (o + b)[1..] == o[1..] + b && o[0] in o && (o + b)[0] == o[0];
      SkipOtherIs(o[1..], b);
    }
  }

  /** What comes of a text: a stretch of name characters stays, and a whole run of others
      after it becomes one dash. */
  lemma {:induction false} SquashRun(a: string, o: string, b: string)
    requires IsName(a) && o != "" && IsOther(o) && (b != "" ==> NameChar(b[0]))
    ensures Squash(a + o + b) == a + "-" + Squash(b)
  {
    if a == "" {
      assert a + o + b == o + b && (o + b)[1..] == o[1..] + b && o[0] in o && (o + b)[0] == o[0];
      SkipOtherIs(o[1..], b);
    } else {
      assert (a + o + b)[1..] == a[1..] + o + b && a[0] in a && (a + o + b)[0] == a[0];
      SquashRun(a[1..], o, b);
      assert [a[0]] + (a[1..] + "-" + Squash(b)) == a + "-" + Squash(b);
    }
  }

  predicate Dashes(s: string) { forall c :: c in s ==> c == '-' }

  /** The text without the dashes at its two ends. */
  predicate IsUndashed(s: string, t: string, a: string, b: string) {
    && s == a + t + b && Dashes(a) && Dashes(b)
    && (t != "" ==> t[0] != '-' && t[|t| - 1] != '-')
  }

  lemma {:induction false} TrimDashesIs(s: string) returns (a: string, b: string)
    ensures IsUndashed(s, TrimDashes(s), a, b)
  {
    a, b := "", "";
    if s != "" && s[0] == '-' {
      a, b := TrimDashesIs(s[1..]);
      DashInFront(s, TrimDashes(s[1..]), a, b);
      a := "-" + a;
    } else if s != "" && s[|s| - 1] == '-' {
      a, b := TrimDashesIs(s[..|s| - 1]);
      DashBehind(s, TrimDashes(s[..|s| - 1]), a, b);
      b := b + "-";
    } else {
      assert s == "" + s + "";
    }
  }

  lemma DashInFront(s: string, t: string, a: string, b: string)
    requires s != "" && s[0] == '-' && IsUndashed(s[1..], t, a, b)
    ensures IsUndashed(s, t, "-" + a, b)
  {
    assert s == "-" + s[1..] == "-" + a + t + b;
  }

  lemma DashBehind(s: string, t: string, a: string, b: string)
    requires s != "" && s[|s| - 1] == '-' && IsUndashed(s[..|s| - 1], t, a, b)
    ensures IsUndashed(s, t, a, b + "-")
  {
    assert s == s[..|s| - 1] + "-" == a + t + (b + "-");
  }

  /** A sanitized name: the text without space around it, in lower case, squashed, without
      dashes around it, and cut to 63 characters. */
  lemma SanitizeIs(h: string, lower: char -> char)
    returns (u: string, a: string, b: string, v: string, t: string, x: string, y: string)
    ensures IsTrimmed(h, u, a, b) && |v| == |u| && forall i :: 0 <= i < |u| ==> v[i] == lower(u[i])
    ensures IsUndashed(Squash(v), t, x, y)
    ensures Sanitize(h, lower) == if |t| <= 63 then t else t[..63]
  {
    u := TrimSpace(h);
    v := Lowered(u, lower);
    t := TrimDashes(Squash(v));
    a, b := TrimSpaceIs(h);
    x, y := TrimDashesIs(Squash(v));
  }

  // ---------------------------------------------------------------- making names unique

  /** The i-th name dedupeHostname tries: base, base-2, base-3, ... */
  function Attempt(base: string, i: nat): string {
    if i == 1 then base else base + "-" + Decimal(i)
  }

  lemma AttemptsDiffer(base: string, i: nat, j: nat)
    requires 1 <= i < j
    ensures Attempt(base, i) != Attempt(base, j)
  {
    DecimalRoundTrip(j);
    if i > 1 && Attempt(base, i) == Attempt(base, j) {
      assert Attempt(base, i)[|base| + 1..] == Decimal(i);
      assert Attempt(base, j)[|base| + 1..] == Decimal(j);
      DecimalInjective(i, j);
    }
  }

  /** How many attempts from the i-th on it takes to find a free name.  A name once
      found taken is never tried again, so it can leave the set. */
  function FirstFree(taken: set<string>, base: string, i: nat): (j: nat)
    requires i >= 1
    ensures i <= j <= i + |taken|
    decreases |taken|
  {
    if Attempt(base, i) !in taken then i
    else FirstFree(taken - {Attempt(base, i)}, base, i + 1)
  }

  /** The name chosen is free, and every name before it in the order is taken. */
  lemma {:induction false} FirstFreeIsFree(taken: set<string>, base: string, i: nat)
    requires i >= 1
    ensures Attempt(base, FirstFree(taken, base, i)) !in taken
    ensures forall k :: i <= k < FirstFree(taken, base, i) ==> Attempt(base, k) in taken
    decreases |taken|
  {
    var name := Attempt(base, i);
    if name in taken {
      FirstFreeIsFree(taken - {name}, base, i + 1);
      AttemptsDiffer(base, i, FirstFree(taken, base, i));
    }
  }

  function Dedupe(taken: set<string>, base: string): string {
    Attempt(base, FirstFree(taken, base, 1))
  }

  lemma DedupeIsName(taken: set<string>, base: string)
    requires IsName(base) && base != ""
    ensures IsName(Dedupe(taken, base)) && Dedupe(taken, base) != "" && Dedupe(taken, base) !in taken
  {
    FirstFreeIsFree(taken, base, 1);
    DecimalRoundTrip(FirstFree(taken, base, 1));
  }

  /** A free name stays as it is; for a taken one the number behind it is the first, from 2
      on, that makes it free. */
  lemma DedupeChooses(taken: set<string>, base: string)
    ensures base !in taken ==> Dedupe(taken, base) == base
    ensures base in taken ==>
              exists i: nat ::
                && i >= 2 && Dedupe(taken, base) == base + "-" + Decimal(i) && base + "-" + Decimal(i) !in taken
                && forall k :: 2 <= k < i ==> base + "-" + Decimal(k) in taken
  {
    FirstFreeIsFree(taken, base, 1);
    var i := FirstFree(taken, base, 1);
    if base in taken {
      assert i >= 2;
      forall k | 2 <= k < i ensures base + "-" + Decimal(k) in taken { assert Attempt(base, k) in taken; }
    }
  }

  /** The loop of dedupeHostname: it ends after at most |taken| + 1 queries. */
  method DedupeHostname(taken: set<string>, base: string) returns (name: string, tries: nat)
    ensures name == Dedupe(taken, base) && tries <= |taken| + 1
  {
    name, tries := base, 1;
    ghost var rest := taken;
    var i := 2;
    while name in taken
      invariant i == tries + 1 && tries >= 1 && name == Attempt(base, tries)
      invariant FirstFree(taken, base, 1) == FirstFree(rest, base, tries)
      invariant rest <= taken && |rest| + tries == |taken| + 1
      invariant forall k :: tries <= k && Attempt(base, k) in taken ==> Attempt(base, k) in rest
      decreases |rest|
    {
      forall k | tries < k ensures Attempt(base, k) != name { AttemptsDiffer(base, tries, k); }
      rest := rest - {name};
      name := base + "-" + Decimal(i);
      i, tries := i + 1, tries + 1;
    }
  }
}
