/** The marked block in resolv.conf, internal/meshdns/osdns_linux.go: put it in front,
    take it out again. */
module ResolvConf {
  import opened Prelude
  import opened Text

  const BEGIN_MARKER: string := "# BEGIN overmesh dns"
  const END_MARKER: string := "# END overmesh dns"

  // ---------------------------------------------------------------- searching

  predicate OccursAt(s: string, m: string, i: nat) { i + |m| <= |s| && s[i..i + |m|] == m }

  ghost predicate Has(s: string, m: string) { exists i: nat :: OccursAt(s, m, i) }

  predicate FirstAt(s: string, m: string, i: nat) {
    OccursAt(s, m, i) && forall k :: 0 <= k < i ==> !OccursAt(s, m, k)
  }

  lemma {:induction false} SomeFirst(s: string, m: string, i: nat) returns (j: nat)
    requires OccursAt(s, m, i)
    ensures FirstAt(s, m, j)
    decreases i
  {
    j := i;
    if k: nat :| k < i && OccursAt(s, m, k) { j := SomeFirst(s, m, k); }
  }

  lemma HasFirst(s: string, m: string)
    requires Has(s, m)
    ensures exists i: nat :: FirstAt(s, m, i)
  {
    var i: nat :| OccursAt(s, m, i);
    var j := SomeFirst(s, m, i);
  }

  /** strings.Index, where there is an occurrence. */
  ghost function Index(s: string, m: string): (i: nat)
    requires Has(s, m)
    ensures FirstAt(s, m, i)
  {
    HasFirst(s, m);
    var i: nat :| FirstAt(s, m, i);
    i
  }

  method Find(s: string, m: string) returns (r: Option<nat>)
    ensures r.Some? <==> Has(s, m)
    ensures r.Some? ==> FirstAt(s, m, r.value)
  {
    var i := 0;
    while i + |m| <= |s|
      invariant forall k :: 0 <= k < i ==> !OccursAt(s, m, k)
    {
      if OccursAt(s, m, i) { return Some(i); }
      i := i + 1;
    }
    return None;
  }

  lemma IndexIs(s: string, m: string, i: nat)
    requires FirstAt(s, m, i)
    ensures Has(s, m) && Index(s, m) == i
  {
  }

  lemma OccursFirst(s: string, m: string, i: nat)
    requires OccursAt(s, m, i)
    ensures Has(s, m) && Index(s, m) <= i
  {
  }

  lemma SliceOfPrefix(s: string, b: nat, k: nat, m: nat)
    requires k <= m <= b <= |s|
    ensures s[..b][k..m] == s[k..m]
  {
  }

  // ---------------------------------------------------------------- one round and all of them

  /** Behind the end marker and the newline after it. */
  ghost function AfterEnd(s: string): nat
    requires Has(s, END_MARKER)
    ensures AfterEnd(s) <= |s|
  {
    var e := Index(s, END_MARKER) + |END_MARKER|;
    if e < |s| && s[e] == '\n' then e + 1 else e
  }

  datatype Round = Done(result: string) | Again(rest: string)

  /** One turn of the stripping loop. */
  ghost function Turn(s: string): Round {
    if !Has(s, BEGIN_MARKER) then Done(s)
    else if !Has(s, END_MARKER) then Done(s[..Index(s, BEGIN_MARKER)])
    else Again(s[..Index(s, BEGIN_MARKER)] + s[AfterEnd(s)..])
  }

  /** Where the loop stands after n turns. */
  ghost function Turns(s: string, n: nat): Round {
    if n == 0 then Again(s)
    else
      match Turns(s, n - 1)
      case Done(r) => Done(r)
      case Again(t) => Turn(t)
  }

  /** Both markers have their only '#' in front, so no two occurrences overlap. */
  lemma HashInFront(s: string, m: string, i: nat)
    requires OccursAt(s, m, i) && (m == BEGIN_MARKER || m == END_MARKER)
    ensures s[i] == '#' && s[i + 2] == m[2] && forall k :: i < k < i + |m| ==> s[k] != '#'
  {
    var t := s[i..i + |m|];
    assert t[0] == '#' && t[2] == m[2];
    forall k | i < k < i + |m| ensures s[k] != '#' { assert s[k] == t[k - i] && m[k - i] != '#'; }
  }

  lemma MarkersApart(s: string, b: nat, e: nat)
    requires OccursAt(s, BEGIN_MARKER, b) && OccursAt(s, END_MARKER, e)
    ensures e + |END_MARKER| <= b || b + |BEGIN_MARKER| <= e
  {
    HashInFront(s, BEGIN_MARKER, b);
    HashInFront(s, END_MARKER, e);
  }

  // ---------------------------------------------------------------- when the loop stops

  /** In every round the first end marker follows the first begin marker. */
  ghost predicate GoodFile(s: string)
    decreases |s|
  {
    Turn(s).Done? || (Index(s, BEGIN_MARKER) < Index(s, END_MARKER) && GoodFile(Turn(s).rest))
  }

  ghost function Strip(s: string): string
    requires GoodFile(s)
    decreases |s|
  {
    match Turn(s)
    case Done(r) => r
    case Again(t) => Strip(t)
  }

  lemma {:induction false} TurnsShift(s: string, n: nat)
    ensures Turns(s, n + 1) == if Turn(s).Done? then Turn(s) else Turns(Turn(s).rest, n)
  {
    if n > 0 { TurnsShift(s, n - 1); } else { assert Turns(s, 0) == Again(s); }
  }

  /** The first end marker comes before the first begin marker. */
  ghost predicate Crossed(s: string) {
    Has(s, BEGIN_MARKER) && Has(s, END_MARKER) && Index(s, END_MARKER) < Index(s, BEGIN_MARKER)
  }

  lemma CutAfterEnd(s: string, t: string, b: nat, e: nat, a: nat)
    requires OccursAt(s, BEGIN_MARKER, b) && (forall k :: 0 <= k < b ==> !OccursAt(s, BEGIN_MARKER, k))
    requires OccursAt(s, END_MARKER, e) && e + |END_MARKER| <= a <= b && t == s[..b] + s[a..]
    ensures OccursAt(t, END_MARKER, e) && OccursAt(t, BEGIN_MARKER, b + (b - a))
  {
    assert t[e..e + |END_MARKER|] == s[e..e + |END_MARKER|];
    assert t[b + (b - a)..b + (b - a) + |BEGIN_MARKER|] == s[b..b + |BEGIN_MARKER|];
  }

  lemma NoBeginBefore(s: string, t: string, b: nat, e: nat, k: nat)
    requires (forall i :: 0 <= i < b ==> !OccursAt(s, BEGIN_MARKER, i)) && b <= |s| && b <= |t| && t[..b] == s[..b]
    requires OccursAt(t, END_MARKER, e) && e + |END_MARKER| <= b && k <= e
    ensures !OccursAt(t, BEGIN_MARKER, k)
  {
    var m := k + |BEGIN_MARKER|;
    if m <= b {
      SliceOfPrefix(t, b, k, m);
      SliceOfPrefix(s, b, k, m);
    }
    assert !OccursAt(s, BEGIN_MARKER, k);
    if OccursAt(t, BEGIN_MARKER, k) { MarkersApart(t, k, e); }
  }

  /** A crossed file stays crossed and does not get shorter. */
  lemma CrossedStays(s: string)
    requires Crossed(s)
    ensures Turn(s).Again? && Crossed(Turn(s).rest) && |Turn(s).rest| >= |s|
  {
    var b, e, a := Index(s, BEGIN_MARKER), Index(s, END_MARKER), AfterEnd(s);
    MarkersApart(s, b, e);
    HashInFront(s, BEGIN_MARKER, b);
    var t := s[..b] + s[a..];
    CutAfterEnd(s, t, b, e, a);
    OccursFirst(t, END_MARKER, e);
    OccursFirst(t, BEGIN_MARKER, b + (b - a));
    if Index(t, BEGIN_MARKER) <= e { NoBeginBefore(s, t, b, e, Index(t, BEGIN_MARKER)); }
  }

  lemma {:induction false} CrossedNeverStops(s: string, n: nat)
    requires Crossed(s)
    ensures Turns(s, n).Again? && Crossed(Turns(s, n).rest) && |Turns(s, n).rest| >= |s|
  {
    if n > 0 {
      CrossedNeverStops(s, n - 1);
      CrossedStays(Turns(s, n - 1).rest);
    }
  }

  lemma {:induction false} GoodStops(s: string) returns (n: nat)
    requires GoodFile(s)
    ensures Turns(s, n) == Done(Strip(s))
    decreases |s|
  {
    if Turn(s).Done? {
      n := 1;
      TurnsShift(s, 0);
    } else {
      n := GoodStops(Turn(s).rest);
      TurnsShift(s, n);
      n := n + 1;
    }
  }

  lemma NotGood(s: string)
    requires !GoodFile(s)
    ensures Turn(s).Again? && (Crossed(s) || !GoodFile(Turn(s).rest))
  {
    if Turn(s).Again? { MarkersApart(s, Index(s, BEGIN_MARKER), Index(s, END_MARKER)); }
  }

  lemma {:induction false} OthersNeverStop(s: string, n: nat)
    requires !GoodFile(s)
    ensures Turns(s, n).Again?
    decreases n
  {
    NotGood(s);
    if Crossed(s) {
      CrossedNeverStops(s, n);
    } else if n > 0 {
      OthersNeverStop(Turn(s).rest, n - 1);
      TurnsShift(s, n - 1);
    }
  }

  /** The stripping loop ends exactly on the good files. */
  lemma StopsIff(s: string)
    ensures GoodFile(s) <==> exists n: nat :: Turns(s, n).Done?
  {
    if GoodFile(s) { var n := GoodStops(s); }
    if !GoodFile(s) { forall n: nat ensures Turns(s, n).Again? { OthersNeverStop(s, n); } }
  }

  /** The loop itself; on other files it would run forever. */
  method StripMarkedBlock(file: string) returns (s: string)
    requires GoodFile(file)
    ensures s == Strip(file)
  {
    s := file;
    while true
      invariant GoodFile(s) && Strip(s) == Strip(file)
      decreases |s|
    {
      var start := Find(s, BEGIN_MARKER);
      if start.None? { return; }
      IndexIs(s, BEGIN_MARKER, start.value);
      var found := Find(s, END_MARKER);
      if found.None? { return s[..start.value]; }
      IndexIs(s, END_MARKER, found.value);
      var end := found.value + |END_MARKER|;
      if end < |s| && s[end] == '\n' { end := end + 1; }
      assert Turn(s) == Again(s[..start.value] + s[end..]);
      s := s[..start.value] + s[end..];
    }
  }

  // ---------------------------------------------------------------- the block in front

  function Lines(s: string): (r: seq<string>)
    ensures r != []
  {
    if s == "" then [""]
    else
      var rest := Lines(s[1..]);
      if s[0] == '\n' then [""] + rest else [[s[0]] + rest[0]] + rest[1..]
  }

  /** strings.Fields, with w the word being read. */
  function Words(w: string, s: string): seq<string>
    decreases |s|
  {
    if s == "" then (if w == "" then [] else [w])
    else if IsSpace(s[0]) then (if w == "" then [] else [w]) + Words("", s[1..])
    else Words(w + [s[0]], s[1..])
  }

  function Fields(s: string): seq<string> { Words("", s) }

  function DomainsOf(line: string): seq<string> {
    var f := Fields(line);
    if |f| > 1 && (f[0] == "search" || f[0] == "domain") then f[1..] else []
  }

  function Existing(lines: seq<string>): seq<string> {
    if lines == [] then [] else Existing(lines[..|lines| - 1]) + DomainsOf(lines[|lines| - 1])
  }

  function Joined(domain: string, existing: seq<string>): string {
    if existing == [] then domain
    else
      var e := existing[|existing| - 1];
      Joined(domain, existing[..|existing| - 1]) + if e != domain then " " + e else ""
  }

  /** Our domain first, then every other one the file names. */
  function Search(domain: string, content: string): string { Joined(domain, Existing(Lines(content))) }

  function Block(resolver: string, search: string, content: string): string {
    BEGIN_MARKER + "\n"
    + ("nameserver " + resolver + "\n" + ("search " + search + "\n" + (END_MARKER + "\n" + content)))
  }

  ghost function Configured(file: string, domain: string, resolver: string): string
    requires GoodFile(file)
  {
    Block(resolver, Search(domain, Strip(file)), Strip(file))
  }

  // ---------------------------------------------------------------- markers and lines

  /** A text without newlines lies on one side of a newline. */
  lemma OneSide(a: string, b: string, m: string, k: nat)
    requires m != "" && '\n' !in m && OccursAt(a + "\n" + b, m, k)
    ensures (k + |m| <= |a| && OccursAt(a, m, k)) || (k >= |a| + 1 && OccursAt(b, m, k - |a| - 1))
  {
    var s := a + "\n" + b;
    assert s[|a|] == '\n';
    forall j | k <= j < k + |m| ensures s[j] != '\n' { assert s[j] == s[k..k + |m|][j - k] && m[j - k] in m; }
    if k + |m| <= |a| {
      assert s[k..k + |m|] == a[k..k + |m|];
    } else {
      assert s[k..k + |m|] == b[k - |a| - 1..k - |a| - 1 + |m|];
    }
  }

  lemma OccursLater(a: string, b: string, m: string, k: nat)
    requires OccursAt(b, m, k)
    ensures OccursAt(a + "\n" + b, m, |a| + 1 + k)
  {
    assert (a + "\n" + b)[|a| + 1 + k..|a| + 1 + k + |m|] == b[k..k + |m|];
  }

  /** The first occurrence is found behind a line that has none. */
  lemma IndexBehind(a: string, b: string, m: string)
    requires m != "" && '\n' !in m && !Has(a, m) && Has(b, m)
    ensures Has(a + "\n" + b, m) && Index(a + "\n" + b, m) == |a| + 1 + Index(b, m)
  {
    var s, i := a + "\n" + b, Index(b, m);
    OccursLater(a, b, m, i);
    forall k | 0 <= k < |a| + 1 + i ensures !OccursAt(s, m, k) {
      if OccursAt(s, m, k) { OneSide(a, b, m, k); }
    }
    IndexIs(s, m, |a| + 1 + i);
  }

  lemma NoneIn(a: string, b: string, m: string)
    requires m != "" && '\n' !in m && !Has(a, m) && !Has(b, m)
    ensures !Has(a + "\n" + b, m)
  {
    var s := a + "\n" + b;
    forall k: nat ensures !OccursAt(s, m, k) {
      if OccursAt(s, m, k) { OneSide(a, b, m, k); }
    }
  }

  lemma NoHash(a: string, m: string)
    requires '#' !in a && (m == BEGIN_MARKER || m == END_MARKER)
    ensures !Has(a, m)
  {
    forall k: nat ensures !OccursAt(a, m, k) {
      if OccursAt(a, m, k) { HashInFront(a, m, k); }
    }
  }

  lemma HashlessFront(a: string, b: string, m: string)
    requires '#' !in a && (m == BEGIN_MARKER || m == END_MARKER)
    ensures Has(a + b, m) <==> Has(b, m)
    ensures Has(b, m) ==> Index(a + b, m) == |a| + Index(b, m)
  {
    var s := a + b;
    forall k | 0 <= k < |a| ensures s[k] != '#' { assert s[k] == a[k] && a[k] in a; }
    forall k | 0 <= k < |a| ensures !OccursAt(s, m, k) { if OccursAt(s, m, k) { HashInFront(s, m, k); } }
    forall k: nat | |a| <= k ensures OccursAt(s, m, k) <==> OccursAt(b, m, k - |a|) {
      if k + |m| <= |s| { assert s[k..k + |m|] == b[k - |a|..k - |a| + |m|]; }
    }
    if Has(b, m) { IndexIs(s, m, |a| + Index(b, m)); }
  }

  lemma MarkersDiffer()
    ensures !Has(BEGIN_MARKER, END_MARKER) && '\n' !in BEGIN_MARKER && '\n' !in END_MARKER
    ensures !Has(END_MARKER, BEGIN_MARKER)
  {
    forall k: nat ensures !OccursAt(BEGIN_MARKER, END_MARKER, k) {
      if OccursAt(BEGIN_MARKER, END_MARKER, k) { MarkersApart(BEGIN_MARKER, 0, k); }
    }
  }

  // ---------------------------------------------------------------- round trips

  /** The lines of the block behind the begin marker. */
  function Tail(resolver: string, search: string, content: string): string {
    "nameserver " + resolver + "\n" + ("search " + search + "\n" + (END_MARKER + "\n" + content))
  }

  /** The first end marker of the block is its own when the search list has none. */
  lemma OwnEndFirst(resolver: string, search: string, content: string)
    requires '#' !in resolver && !Has(search, END_MARKER)
    ensures var s := Block(resolver, search, content);
            Has(s, END_MARKER) && Index(s, END_MARKER) + |END_MARKER| + 1 + |content| == |s|
  {
    MarkersDiffer();
    var l3, l4 := "search " + search, END_MARKER + "\n" + content;
    assert OccursAt(l4, END_MARKER, 0) && Index(l4, END_MARKER) == 0;
    HashlessFront("search ", search, END_MARKER);
    IndexBehind(l3, l4, END_MARKER);
    NoHash("nameserver " + resolver, END_MARKER);
    IndexBehind("nameserver " + resolver, l3 + "\n" + l4, END_MARKER);
    IndexBehind(BEGIN_MARKER, Tail(resolver, search, content), END_MARKER);
  }

  lemma BeginsAtFront(resolver: string, search: string, content: string)
    ensures var s := Block(resolver, search, content); Has(s, BEGIN_MARKER) && Index(s, BEGIN_MARKER) == 0
  {
    var s := Block(resolver, search, content);
    assert s[0..|BEGIN_MARKER|] == BEGIN_MARKER;
    assert OccursAt(s, BEGIN_MARKER, 0);
  }

  /** Stripping a file with the block in front gives back what is behind it. */
  lemma BlockComesOff(resolver: string, search: string, content: string)
    requires '#' !in resolver && !Has(search, END_MARKER) && !Has(content, BEGIN_MARKER)
    ensures GoodFile(Block(resolver, search, content)) && Strip(Block(resolver, search, content)) == content
  {
    var s := Block(resolver, search, content);
    OwnEndFirst(resolver, search, content);
    BeginsAtFront(resolver, search, content);
    var e := Index(s, END_MARKER) + |END_MARKER|;
    assert s[e..] == "\n" + content;
    assert s[..0] + s[e + 1..] == content;
    assert Turn(s) == Again(content) && Turn(content) == Done(content);
  }

  lemma {:induction false} StrippedHasNoBegin(s: string)
    requires GoodFile(s)
    ensures !Has(Strip(s), BEGIN_MARKER)
    decreases |s|
  {
    if Turn(s).Again? {
      StrippedHasNoBegin(Turn(s).rest);
    } else if Has(s, BEGIN_MARKER) {
      var b := Index(s, BEGIN_MARKER);
      forall k: nat ensures !OccursAt(s[..b], BEGIN_MARKER, k) {
        assert k < b ==> !OccursAt(s, BEGIN_MARKER, k);
        assert k + |BEGIN_MARKER| <= b ==> s[..b][k..k + |BEGIN_MARKER|] == s[k..k + |BEGIN_MARKER|];
      }
    }
  }

  /** Configure, then restore: the original comes back exactly, without the marked
      blocks it may have had. */
  lemma RestoreUndoesConfigure(file: string, domain: string, resolver: string)
    requires GoodFile(file) && '#' !in resolver && !Has(Search(domain, Strip(file)), END_MARKER)
    ensures GoodFile(Configured(file, domain, resolver)) && Strip(Configured(file, domain, resolver)) == Strip(file)
    ensures !Has(file, BEGIN_MARKER) ==> Strip(file) == file
  {
    StrippedHasNoBegin(file);
    BlockComesOff(resolver, Search(domain, Strip(file)), Strip(file));
  }

  /** Configuring again changes nothing, whatever the file was. */
  lemma ConfigureTwice(file: string, domain: string, resolver: string)
    requires GoodFile(file) && '#' !in resolver && !Has(Search(domain, Strip(file)), END_MARKER)
    ensures GoodFile(Configured(file, domain, resolver))
    ensures Configured(Configured(file, domain, resolver), domain, resolver) == Configured(file, domain, resolver)
  {
    StrippedHasNoBegin(file);
    BlockComesOff(resolver, Search(domain, Strip(file)), Strip(file));
  }

  lemma SuffixHasNone(s: string, m: string, k: nat)
    requires !Has(s, m) && k <= |s|
    ensures !Has(s[k..], m)
  {
    forall i: nat ensures !OccursAt(s[k..], m, i) {
      assert i + |m| <= |s| - k ==> s[k..][i..i + |m|] == s[k + i..k + i + |m|];
      assert !OccursAt(s, m, k + i);
    }
  }

  lemma FoundInFront(a: string, b: string, m: string)
    requires Has(a, m)
    ensures Has(a + b, m) && Index(a + b, m) == Index(a, m)
  {
    var s, i := a + b, Index(a, m);
    assert s[i..i + |m|] == a[i..i + |m|];
    forall k | 0 <= k < i ensures !OccursAt(s, m, k) {
      assert !OccursAt(a, m, k);
      assert k + |m| <= |a| ==> s[k..k + |m|] == a[k..k + |m|];
    }
    IndexIs(s, m, i);
  }

  /** An end marker in the search list is found before the block's own. */
  lemma EarlyEnd(resolver: string, search: string, content: string)
    requires '#' !in resolver && Has(search, END_MARKER)
    ensures var s := Block(resolver, search, content);
            && Has(s, END_MARKER)
            && Index(s, END_MARKER)
               == |BEGIN_MARKER| + 1 + |"nameserver " + resolver| + 1 + 7 + Index(search, END_MARKER)
  {
    MarkersDiffer();
    var l4 := END_MARKER + "\n" + content;
    SearchLine(search, l4);
    NoHash("nameserver " + resolver, END_MARKER);
    IndexBehind("nameserver " + resolver, "search " + search + "\n" + l4, END_MARKER);
    IndexBehind(BEGIN_MARKER, Tail(resolver, search, content), END_MARKER);
  }

  lemma SearchLine(search: string, rest: string)
    requires Has(search, END_MARKER)
    ensures var t := "search " + search + "\n" + rest;
            Has(t, END_MARKER) && Index(t, END_MARKER) == 7 + Index(search, END_MARKER)
  {
    var t, u := "search " + search + "\n" + rest, search + ("\n" + rest);
    assert t == "search " + u;
    FoundInFront(search, "\n" + rest, END_MARKER);
    HashlessFront("search ", u, END_MARKER);
  }

  // ---------------------------------------------------------------- any search list at all

  /** From the search list on. */
  function FromSearch(search: string, content: string): string { search + "\n" + (END_MARKER + "\n" + content) }

  lemma FromSearchHasNoBegin(search: string, content: string)
    requires !Has(search, BEGIN_MARKER) && !Has(content, BEGIN_MARKER)
    ensures !Has(FromSearch(search, content), BEGIN_MARKER)
  {
    MarkersDiffer();
    NoneIn(END_MARKER, content, BEGIN_MARKER);
    NoneIn(search, END_MARKER + "\n" + content, BEGIN_MARKER);
  }

  lemma BlockFromSearch(resolver: string, search: string, content: string, k: nat)
    requires k <= |FromSearch(search, content)|
    ensures var s, n := Block(resolver, search, content), |BEGIN_MARKER| + 1 + |"nameserver " + resolver| + 1 + 7;
            |s| == n + |FromSearch(search, content)| && s[n + k..] == FromSearch(search, content)[k..]
  {
    var front := BEGIN_MARKER + "\n" + ("nameserver " + resolver + "\n") + "search ";
    assert Block(resolver, search, content) == front + FromSearch(search, content);
  }

  /** What becomes of configure then restore: the file is back, something of the block is
      left over, the loop runs forever, or `rest` is joined to the file and stripped. */
  datatype Fate = Restored | LeftOver | Forever | Joins(rest: string)

  /** Decided by t, the part of the search list that the first end marker leaves. */
  ghost function Outcome(t: string): Fate
    decreases |t|
  {
    if !Has(t, BEGIN_MARKER) then LeftOver
    else
      var b := Index(t, BEGIN_MARKER);
      if !Has(t, END_MARKER) then if b == 0 then Restored else Joins(t[..b])
      else if Index(t, END_MARKER) < b then Forever
      else if Index(t, END_MARKER) + |END_MARKER| == |t| then LeftOver
      else Outcome(Spliced(t))
  }

  /** One turn on the list alone. */
  ghost function Spliced(t: string): (r: string)
    requires Has(t, BEGIN_MARKER) && Has(t, END_MARKER) && Index(t, BEGIN_MARKER) <= Index(t, END_MARKER)
    ensures |r| < |t|
  {
    t[..Index(t, BEGIN_MARKER)] + t[AfterEnd(t)..]
  }

  ghost function FateOf(search: string): Fate {
    if !Has(search, END_MARKER) then Restored
    else if Index(search, END_MARKER) + |END_MARKER| == |search| then LeftOver
    else Outcome(search[AfterEnd(search)..])
  }

  /** The fate of the text s, for the file `content`. */
  ghost predicate Meets(s: string, content: string, f: Fate) {
    match f
    case Restored => GoodFile(s) && Strip(s) == content
    case LeftOver => GoodFile(s) && |Strip(s)| > |content|
    case Forever => !GoodFile(s)
    case Joins(u) => u != "" && GoodFile(s) && GoodFile(u + content) && Strip(s) == Strip(u + content)
  }

  lemma PrefixHasNone(s: string, m: string, j: nat)
    requires !Has(s, m) && j <= |s|
    ensures !Has(s[..j], m)
  {
    forall k: nat ensures !OccursAt(s[..j], m, k) {
      assert k + |m| <= j ==> s[..j][k..k + |m|] == s[k..k + |m|];
      assert !OccursAt(s, m, k);
    }
  }

  lemma NoneBeforeFirst(s: string, m: string)
    requires Has(s, m) && m != ""
    ensures !Has(s[..Index(s, m)], m)
  {
    var b := Index(s, m);
    forall k: nat ensures !OccursAt(s[..b], m, k) {
      assert k < b ==> !OccursAt(s, m, k);
      assert k + |m| <= b ==> s[..b][k..k + |m|] == s[k..k + |m|];
    }
  }

  lemma SideOfSeam(u: string, c: string, m: string, p: nat)
    requires OccursAt(u + c, m, p)
    ensures p + |m| <= |u| ==> OccursAt(u, m, p)
    ensures |u| <= p ==> OccursAt(c, m, p - |u|)
  {
    if p + |m| <= |u| { assert (u + c)[p..p + |m|] == u[p..p + |m|]; }
    if |u| <= p { assert (u + c)[p..p + |m|] == c[p - |u|..p - |u| + |m|]; }
  }

  /** A marker in u + c, when neither has one, lies across the seam. */
  lemma AcrossSeam(u: string, c: string, m: string, p: nat)
    requires !Has(u, m) && !Has(c, m) && OccursAt(u + c, m, p)
    ensures p < |u| < p + |m|
  {
    SideOfSeam(u, c, m, p);
  }

  /** A text joined to a file without begin marker always strips. */
  lemma {:induction false} JoinedIsGood(u: string, c: string)
    requires !Has(u, BEGIN_MARKER) && !Has(u, END_MARKER) && !Has(c, BEGIN_MARKER)
    ensures GoodFile(u + c)
    decreases |u + c|
  {
    var s := u + c;
    if Has(s, BEGIN_MARKER) && Has(s, END_MARKER) {
      var p, e, a := Index(s, BEGIN_MARKER), Index(s, END_MARKER), AfterEnd(s);
      AcrossSeam(u, c, BEGIN_MARKER, p);
      SideOfSeam(u, c, END_MARKER, e);
      MarkersApart(s, p, e);
      var u', c' := u[..p], c[a - |u|..];
      assert s[..p] + s[a..] == u' + c';
      PrefixHasNone(u, BEGIN_MARKER, p);
      PrefixHasNone(u, END_MARKER, p);
      SuffixHasNone(c, BEGIN_MARKER, a - |u|);
      JoinedIsGood(u', c');
    }
  }

  /** The block's own end marker is the first when t has none. */
  lemma OwnEnd(t: string, content: string)
    requires !Has(t, END_MARKER)
    ensures var s := FromSearch(t, content); Has(s, END_MARKER) && AfterEnd(s) == |t| + 1 + |END_MARKER| + 1
  {
    MarkersDiffer();
    var l := END_MARKER + "\n" + content;
    assert OccursAt(l, END_MARKER, 0) && Index(l, END_MARKER) == 0;
    IndexBehind(t, l, END_MARKER);
  }

  /** Otherwise it is that of t, and the newline behind it is that of t or the line's. */
  lemma EndInList(t: string, content: string)
    requires Has(t, END_MARKER)
    ensures var s, e := FromSearch(t, content), Index(t, END_MARKER) + |END_MARKER|;
            && Has(s, END_MARKER) && Index(s, END_MARKER) == Index(t, END_MARKER)
            && AfterEnd(s) == if e == |t| then |t| + 1 else AfterEnd(t)
  {
    assert FromSearch(t, content) == t + ("\n" + (END_MARKER + "\n" + content));
    FoundInFront(t, "\n" + (END_MARKER + "\n" + content), END_MARKER);
  }

  lemma BeginInList(t: string, content: string)
    requires Has(t, BEGIN_MARKER)
    ensures var s := FromSearch(t, content); Has(s, BEGIN_MARKER) && Index(s, BEGIN_MARKER) == Index(t, BEGIN_MARKER)
  {
    assert FromSearch(t, content) == t + ("\n" + (END_MARKER + "\n" + content));
    FoundInFront(t, "\n" + (END_MARKER + "\n" + content), BEGIN_MARKER);
  }

  /** A piece of the list straight before the block's end marker has no begin marker. */
  lemma PieceBeforeEnd(u: string, content: string)
    requires !Has(u, BEGIN_MARKER) && !Has(content, BEGIN_MARKER)
    ensures Meets(u + (END_MARKER + "\n" + content), content, LeftOver)
  {
    var l := END_MARKER + "\n" + content;
    MarkersDiffer();
    NoneIn(END_MARKER, content, BEGIN_MARKER);
    var s := u + l;
    forall p: nat ensures !OccursAt(s, BEGIN_MARKER, p) {
      if OccursAt(s, BEGIN_MARKER, p) {
        AcrossSeam(u, l, BEGIN_MARKER, p);
        assert s[|u|..|u| + |END_MARKER|] == END_MARKER;
        MarkersApart(s, p, |u|);
      }
    }
  }

  lemma OwnEndFate(t: string, content: string)
    requires !Has(content, BEGIN_MARKER) && Has(t, BEGIN_MARKER) && !Has(t, END_MARKER)
    ensures Meets(FromSearch(t, content), content, Outcome(t))
  {
    var s, b := FromSearch(t, content), Index(t, BEGIN_MARKER);
    OwnEnd(t, content);
    BeginInList(t, content);
    assert Index(s, BEGIN_MARKER) < Index(s, END_MARKER) by { MarkersApart(s, b, Index(s, END_MARKER)); }
    assert s[..b] + s[AfterEnd(s)..] == t[..b] + content;
    assert Turn(s) == Again(t[..b] + content);
    NoneBeforeFirst(t, BEGIN_MARKER);
    PrefixHasNone(t, END_MARKER, b);
    JoinedIsGood(t[..b], content);
    if b == 0 { assert t[..b] + content == content && Turn(content) == Done(content); }
  }

  lemma {:induction false} OutcomeHolds(t: string, content: string)
    requires !Has(content, BEGIN_MARKER)
    ensures Meets(FromSearch(t, content), content, Outcome(t))
    decreases |t|
  {
    var s := FromSearch(t, content);
    if !Has(t, BEGIN_MARKER) {
      FromSearchHasNoBegin(t, content);
    } else if !Has(t, END_MARKER) {
      OwnEndFate(t, content);
    } else {
      var b, e := Index(t, BEGIN_MARKER), Index(t, END_MARKER);
      BeginInList(t, content);
      EndInList(t, content);
      if b <= e {
        MarkersApart(t, b, e);
        ListTurn(t, content);
        if e + |END_MARKER| == |t| {
          NoneBeforeFirst(t, BEGIN_MARKER);
          PieceBeforeEnd(t[..b], content);
        } else {
          OutcomeHolds(Spliced(t), content);
        }
      }
    }
  }

  lemma ListTurn(t: string, content: string)
    requires Has(t, BEGIN_MARKER) && Has(t, END_MARKER) && Index(t, BEGIN_MARKER) <= Index(t, END_MARKER)
    ensures var s, b, e := FromSearch(t, content), Index(t, BEGIN_MARKER), Index(t, END_MARKER);
            Turn(s) == Again(if e + |END_MARKER| == |t| then t[..b] + (END_MARKER + "\n" + content)
                             else FromSearch(Spliced(t), content))
  {
    var s, b, e := FromSearch(t, content), Index(t, BEGIN_MARKER), Index(t, END_MARKER);
    BeginInList(t, content);
    ListRest(t, content);
    assert s[..b] == t[..b];
    if e + |END_MARKER| != |t| {
      assert t[..b] + FromSearch(t[AfterEnd(t)..], content) == FromSearch(Spliced(t), content);
    }
  }

  /** What the first turn on the whole block leaves, when the list has an end marker. */
  lemma BlockEnd(resolver: string, search: string, content: string)
    requires '#' !in resolver && Has(search, END_MARKER)
    ensures var s, t := Block(resolver, search, content), FromSearch(search, content);
            Has(s, END_MARKER) && Has(t, END_MARKER) && Index(s, END_MARKER) > 0 && s[AfterEnd(s)..] == t[AfterEnd(t)..]
  {
    var s, n := Block(resolver, search, content), |BEGIN_MARKER| + 1 + |"nameserver " + resolver| + 1 + 7;
    var t, e := FromSearch(search, content), Index(search, END_MARKER) + |END_MARKER|;
    EarlyEnd(resolver, search, content);
    EndInList(search, content);
    BlockFromSearch(resolver, search, content, 0);
    assert s[n..][e] == t[e] && AfterEnd(s) == n + AfterEnd(t);
    BlockFromSearch(resolver, search, content, AfterEnd(t));
  }

  lemma ListRest(search: string, content: string)
    requires Has(search, END_MARKER)
    ensures var t := FromSearch(search, content);
            && Has(t, END_MARKER)
            && t[AfterEnd(t)..] == if Index(search, END_MARKER) + |END_MARKER| == |search|
                                   then END_MARKER + "\n" + content
                                   else FromSearch(search[AfterEnd(search)..], content)
  {
    var t := FromSearch(search, content);
    EndInList(search, content);
    if Index(search, END_MARKER) + |END_MARKER| == |search| {
      assert t[|search| + 1..] == END_MARKER + "\n" + content;
    } else {
      assert t[AfterEnd(search)..] == FromSearch(search[AfterEnd(search)..], content);
    }
  }

  lemma BlockTurn(resolver: string, search: string, content: string)
    requires '#' !in resolver && Has(search, END_MARKER)
    ensures var s := Block(resolver, search, content);
            && Has(s, BEGIN_MARKER) && Has(s, END_MARKER) && Index(s, BEGIN_MARKER) < Index(s, END_MARKER)
            && Turn(s) == Again(if Index(search, END_MARKER) + |END_MARKER| == |search| then END_MARKER + "\n" + content
                                else FromSearch(search[AfterEnd(search)..], content))
  {
    var s := Block(resolver, search, content);
    BlockEnd(resolver, search, content);
    BeginsAtFront(resolver, search, content);
    ListRest(search, content);
    assert s[..0] + s[AfterEnd(s)..] == s[AfterEnd(s)..];
  }

  /** Configure then restore, for any search list whatever: its fate is decided by the
      list alone. */
  lemma RestoreFate(file: string, domain: string, resolver: string)
    requires GoodFile(file) && '#' !in resolver
    ensures Meets(Configured(file, domain, resolver), Strip(file), FateOf(Search(domain, Strip(file))))
  {
    var content := Strip(file);
    var search := Search(domain, content);
    StrippedHasNoBegin(file);
    if Has(search, END_MARKER) {
      BlockTurn(resolver, search, content);
      if Index(search, END_MARKER) + |END_MARKER| == |search| {
        NoHash("", BEGIN_MARKER);
        assert "" + (END_MARKER + "\n" + content) == END_MARKER + "\n" + content;
        PieceBeforeEnd("", content);
      } else {
        OutcomeHolds(search[AfterEnd(search)..], content);
      }
    } else {
      BlockComesOff(resolver, search, content);
    }
  }

  /** A joined text stays in front of the file, unless the two complete a marker. */
  lemma JoinedStays(u: string, file: string)
    requires u != "" && !Has(u + file, BEGIN_MARKER)
    ensures GoodFile(u + file) && Strip(u + file) == u + file && u + file != file
  {
    assert |u + file| > |file|;
  }

  /** The exact condition under which restoring undoes configuring. */
  lemma RestoredIff(file: string, domain: string, resolver: string)
    requires GoodFile(file) && '#' !in resolver
    ensures var content, conf := Strip(file), Configured(file, domain, resolver);
            var fate := FateOf(Search(domain, content));
            (GoodFile(conf) && Strip(conf) == content) <==>
              || fate.Restored?
              || (fate.Joins? && var t := fate.rest + content;
                                 Has(t, BEGIN_MARKER) && GoodFile(t) && Strip(t) == content)
  {
    RestoreFate(file, domain, resolver);
    var fate := FateOf(Search(domain, Strip(file)));
    if fate.Joins? && !Has(fate.rest + Strip(file), BEGIN_MARKER) { JoinedStays(fate.rest, Strip(file)); }
  }

  /** The content goes on where a begin marker breaks off. */
  ghost predicate ContinuesMarker(content: string) {
    exists n :: 0 < n < |BEGIN_MARKER| && BEGIN_MARKER[n..] <= content
  }

  lemma {:induction false} JoinedHasNoBegin(t: string)
    requires Outcome(t).Joins?
    ensures !Has(Outcome(t).rest, BEGIN_MARKER)
    decreases |t|
  {
    if !Has(t, END_MARKER) { NoneBeforeFirst(t, BEGIN_MARKER); } else { JoinedHasNoBegin(Spliced(t)); }
  }

  lemma SeamContinues(u: string, c: string)
    requires !Has(u, BEGIN_MARKER) && !Has(c, BEGIN_MARKER) && Has(u + c, BEGIN_MARKER)
    ensures ContinuesMarker(c)
  {
    var p := Index(u + c, BEGIN_MARKER);
    AcrossSeam(u, c, BEGIN_MARKER, p);
    var n := |u| - p;
    assert (u + c)[p..p + |BEGIN_MARKER|][n..] == c[..|BEGIN_MARKER| - n];
    assert BEGIN_MARKER[n..] <= c;
  }

  /** For a file that does not go on where a begin marker breaks off, which is seen from
      its first characters, the search list alone decides. */
  lemma PlainRestoredIff(file: string, domain: string, resolver: string)
    requires GoodFile(file) && '#' !in resolver && !ContinuesMarker(Strip(file))
    ensures var content, conf := Strip(file), Configured(file, domain, resolver);
            (GoodFile(conf) && Strip(conf) == content) <==> FateOf(Search(domain, content)).Restored?
  {
    var content := Strip(file);
    var search := Search(domain, content);
    RestoredIff(file, domain, resolver);
    StrippedHasNoBegin(file);
    if FateOf(search).Joins? {
      var t := search[AfterEnd(search)..];
      JoinedHasNoBegin(t);
      if Has(Outcome(t).rest + content, BEGIN_MARKER) { SeamContinues(Outcome(t).rest, content); }
    }
  }

  /** An end marker in the search list, with no begin marker beside it, always leaves
      part of the block behind. */
  lemma EarlyEndLeavesRest(file: string, domain: string, resolver: string)
    requires GoodFile(file) && '#' !in resolver
    requires Has(Search(domain, Strip(file)), END_MARKER) && !Has(Search(domain, Strip(file)), BEGIN_MARKER)
    ensures GoodFile(Configured(file, domain, resolver))
    ensures |Strip(Configured(file, domain, resolver))| > |Strip(file)|
  {
    var search := Search(domain, Strip(file));
    RestoreFate(file, domain, resolver);
    SuffixHasNone(search, BEGIN_MARKER, AfterEnd(search));
  }

  lemma OnlyDomain(domain: string)
    ensures GoodFile("") && Strip("") == "" && Search(domain, "") == domain
  {
    NoHash("", BEGIN_MARKER);
    assert Lines("") == [""] && DomainsOf("") == [] && Existing([""][..0]) == [];
  }

  lemma EndsInFront(t: string)
    ensures Has(END_MARKER + t, END_MARKER) && Index(END_MARKER + t, END_MARKER) == 0
  {
    assert (END_MARKER + t)[0..|END_MARKER|] == END_MARKER;
    assert OccursAt(END_MARKER + t, END_MARKER, 0);
  }

  lemma EarlyEndExample()
    ensures GoodFile("") && GoodFile(Configured("", END_MARKER, "100.96.0.1"))
    ensures Strip(Configured("", END_MARKER, "100.96.0.1")) != ""
  {
    MarkersDiffer();
    OnlyDomain(END_MARKER);
    assert OccursAt(END_MARKER, END_MARKER, 0);
    EarlyEndLeavesRest("", END_MARKER, "100.96.0.1");
  }

  /** With two end markers and a begin marker in the list, restoring never returns. */
  lemma ForeverExample(n: nat)
    ensures GoodFile("") && !GoodFile(Configured("", END_MARKER + (END_MARKER + BEGIN_MARKER), "100.96.0.1"))
    ensures Turns(Configured("", END_MARKER + (END_MARKER + BEGIN_MARKER), "100.96.0.1"), n).Again?
  {
    var t := END_MARKER + BEGIN_MARKER;
    OnlyDomain(END_MARKER + t);
    EndsInFront(t);
    assert (END_MARKER + t)[|END_MARKER|] == '#' && (END_MARKER + t)[|END_MARKER|..] == t;
    CrossedMarkers();
    RestoreFate("", END_MARKER + t, "100.96.0.1");
    OthersNeverStop(Configured("", END_MARKER + t, "100.96.0.1"), n);
  }

  /** With one of each, the end marker first, the file comes back all the same. */
  lemma RestoredExample()
    ensures GoodFile("") && GoodFile(Configured("", END_MARKER + BEGIN_MARKER, "100.96.0.1"))
    ensures Strip(Configured("", END_MARKER + BEGIN_MARKER, "100.96.0.1")) == ""
  {
    MarkersDiffer();
    var t := BEGIN_MARKER;
    OnlyDomain(END_MARKER + t);
    EndsInFront(t);
    assert (END_MARKER + t)[|END_MARKER|] == '#' && (END_MARKER + t)[|END_MARKER|..] == t;
    assert OccursAt(t, BEGIN_MARKER, 0);
    RestoreFate("", END_MARKER + t, "100.96.0.1");
  }

  lemma CrossedMarkers()
    ensures Crossed(END_MARKER + BEGIN_MARKER)
  {
    var s := END_MARKER + BEGIN_MARKER;
    assert s[0..|END_MARKER|] == END_MARKER && s[|END_MARKER|..|END_MARKER| + |BEGIN_MARKER|] == BEGIN_MARKER;
    OccursFirst(s, END_MARKER, 0);
    OccursFirst(s, BEGIN_MARKER, |END_MARKER|);
    assert s[2] == 'E' && !OccursAt(s, BEGIN_MARKER, 0);
  }

  lemma CrossedExample(n: nat)
    ensures Turns(END_MARKER + BEGIN_MARKER, n).Again?
  {
    CrossedMarkers();
    CrossedNeverStops(END_MARKER + BEGIN_MARKER, n);
  }

  // ---------------------------------------------------------------- the file

  method SearchList(domain: string, content: string) returns (search: string)
    ensures search == Search(domain, content)
  {
    var lines := Lines(content);
    var existing: seq<string> := [];
    for i := 0 to |lines|
      invariant existing == Existing(lines[..i])
    {
      assert lines[..i + 1][..i] == lines[..i];
      var f := Fields(lines[i]);
      if |f| > 1 && (f[0] == "search" || f[0] == "domain") { existing := existing + f[1..]; }
    }
    assert lines[..|lines|] == lines;
    search := JoinDomains(domain, existing);
  }

  method JoinDomains(domain: string, existing: seq<string>) returns (search: string)
    ensures search == Joined(domain, existing)
  {
    search := domain;
    for i := 0 to |existing|
      invariant search == Joined(domain, existing[..i])
    {
      assert existing[..i + 1][..i] == existing[..i];
      if existing[i] != domain { search := search + " " + existing[i]; }
    }
    assert existing[..|existing|] == existing;
  }

  class ResolvFile {
    var content: string

    constructor (c: string)
      ensures content == c
    {
      content := c;
    }

    method Configure(domain: string, resolver: string)
      requires GoodFile(content)
      modifies this
      ensures content == Configured(old(content), domain, resolver)
    {
      var rest := StripMarkedBlock(content);
      var search := SearchList(domain, rest);
      content := Block(resolver, search, rest);
    }

    method Restore()
      requires GoodFile(content)
      modifies this
      ensures content == Strip(old(content)) && !Has(content, BEGIN_MARKER)
    {
      StrippedHasNoBegin(content);
      var stripped := StripMarkedBlock(content);
      if stripped != content { content := stripped; }
    }
  }
}
