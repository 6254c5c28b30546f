/** What the block in front of resolv.conf says: our name server, and a search list that
    keeps every domain the file had. */
module ResolvSearch {
  import opened Text
  import opened ResolvConf

  // ---------------------------------------------------------------- lines

  /** The lines one after the other, with newlines between them. */
  function Unlines(lines: seq<string>): string
    requires lines != []
  {
    if |lines| == 1 then lines[0] else lines[0] + "\n" + Unlines(lines[1..])
  }

  /** Splitting at newlines: nothing is lost, and no newline is left in a line. */
  lemma {:induction false} LinesAre(s: string)
    ensures Unlines(Lines(s)) == s && forall l :: l in Lines(s) ==> '\n' !in l
  {
    if s != "" {
      LinesAre(s[1..]);
      var rest := Lines(s[1..]);
      assert s == [s[0]] + s[1..];
      if s[0] == '\n' {
        assert ([""] + rest)[1..] == rest && "" + "\n" + s[1..] == s;
      } else {
        var r := [[s[0]] + rest[0]] + rest[1..];
        assert rest[0] in rest && r[1..] == rest[1..];
        assert |rest| > 1 ==> s == [s[0]] + rest[0] + "\n" + Unlines(rest[1..]);
      }
    }
  }

  lemma {:induction false} LinesSplit(a: string, b: string)
    requires '\n' !in a
    ensures Lines(a + "\n" + b) == [a] + Lines(b)
  {
    var s := a + "\n" + b;
    if a == "" {
      assert s[0] == '\n' && s[1..] == b;
    } else {
      assert s[1..] == a[1..] + "\n" + b && s[0] == a[0] && a[0] in a;
      LinesSplit(a[1..], b);
      assert [a[0]] + a[1..] == a && ([a[1..]] + Lines(b))[1..] == Lines(b);
    }
  }

  // ---------------------------------------------------------------- words

  predicate IsWord(w: string) { w != "" && Spaceless(w) }

  predicate Spaceless(w: string) { forall c :: c in w ==> !IsSpace(c) }

  /** A text without space is one word. */
  lemma {:induction false} OneWord(w: string, s: string)
    requires Spaceless(s)
    ensures Words(w, s) == if w + s == "" then [] else [w + s]
    decreases |s|
  {
    if s == "" {
      assert w + s == w;
    } else {
      assert s[0] in s && w + s == (w + [s[0]]) + s[1..];
      OneWord(w + [s[0]], s[1..]);
    }
  }

  /** Words do not run across space. */
  lemma {:induction false} WordsSplit(w: string, a: string, c: char, b: string)
    requires IsSpace(c)
    ensures Words(w, a + [c] + b) == Words(w, a) + Words("", b)
    decreases |a|
  {
    var s := a + [c] + b;
    if a == "" {
      assert s[0] == c && s[1..] == b;
    } else {
      assert s[0] == a[0] && s[1..] == a[1..] + [c] + b;
      if IsSpace(a[0]) { WordsSplit("", a[1..], c, b); } else { WordsSplit(w + [a[0]], a[1..], c, b); }
    }
  }

  lemma {:induction false} WordsAreWords(w: string, s: string)
    requires Spaceless(w)
    ensures forall x :: x in Words(w, s) ==> IsWord(x)
    decreases |s|
  {
    if s != "" {
      if IsSpace(s[0]) { WordsAreWords("", s[1..]); } else { WordsAreWords(w + [s[0]], s[1..]); }
    }
  }

  // ---------------------------------------------------------------- the search list

  /** The line is a search or domain line that lists d. */
  predicate Lists(line: string, d: string) {
    var f := Fields(line);
    |f| > 1 && (f[0] == "search" || f[0] == "domain") && d in f[1..]
  }

  predicate AllWords(ds: seq<string>) { forall d :: d in ds ==> IsWord(d) }

  lemma {:induction false} ExistingIff(lines: seq<string>, d: string)
    ensures d in Existing(lines) <==> exists i :: 0 <= i < |lines| && Lists(lines[i], d)
  {
    if lines != [] {
      var n, front := |lines| - 1, lines[..|lines| - 1];
      ExistingIff(front, d);
      assert d in DomainsOf(lines[n]) <==> Lists(lines[n], d);
      if i :| 0 <= i < |front| && Lists(front[i], d) { assert lines[i] == front[i]; }
      if i :| 0 <= i < |lines| && Lists(lines[i], d) { assert i < n ==> front[i] == lines[i]; }
    }
  }

  lemma ExistingWords(lines: seq<string>)
    ensures AllWords(Existing(lines))
  {
    forall d | d in Existing(lines) ensures IsWord(d) {
      ExistingIff(lines, d);
      var i :| 0 <= i < |lines| && Lists(lines[i], d);
      WordsAreWords("", lines[i]);
      var f := Fields(lines[i]);
      assert d in f[1..] && d in f;
    }
  }

  /** The domains but ours, in their order. */
  function Others(domain: string, ds: seq<string>): seq<string> {
    if ds == [] then [] else (if ds[0] == domain then [] else [ds[0]]) + Others(domain, ds[1..])
  }

  lemma {:induction false} OthersLast(domain: string, ds: seq<string>, d: string)
    ensures Others(domain, ds + [d]) == Others(domain, ds) + if d == domain then [] else [d]
  {
    if ds == [] {
      assert ds + [d] == [d] && [d][1..] == [];
    } else {
      assert (ds + [d])[1..] == ds[1..] + [d] && (ds + [d])[0] == ds[0];
      OthersLast(domain, ds[1..], d);
      var h, m, t := if ds[0] == domain then [] else [ds[0]], Others(domain, ds[1..]), if d == domain then [] else [d];
      assert h + (m + t) == h + m + t;
    }
  }

  lemma {:induction false} OthersIff(domain: string, ds: seq<string>, d: string)
    ensures d in Others(domain, ds) <==> d in ds && d != domain
  {
    if ds != [] { OthersIff(domain, ds[1..], d); }
  }

  lemma {:induction false} JoinedWords(domain: string, ds: seq<string>)
    requires AllWords(ds)
    ensures Fields(Joined(domain, ds)) == Fields(domain) + Others(domain, ds)
  {
    if ds != [] {
      var n := |ds| - 1;
      var e, front := ds[n], ds[..n];
      assert ds == front + [e] && IsWord(e) && AllWords(front);
      JoinedWords(domain, front);
      OthersLast(domain, front, e);
      var j := Joined(domain, front);
      if e != domain {
        WithOneMore(j, e);
        assert Joined(domain, ds) == j + (" " + e);
        assert Fields(j) + [e] == Fields(domain) + (Others(domain, front) + [e]);
      } else {
        assert Joined(domain, ds) == j + "" == j;
      }
    }
  }

  lemma WithOneMore(s: string, e: string)
    requires IsWord(e)
    ensures Fields(s + (" " + e)) == Fields(s) + [e]
  {
    assert s + (" " + e) == s + [' '] + e;
    WordsSplit("", s, ' ', e);
    OneWord("", e);
    assert "" + e == e;
  }

  /** The search list starts with our domain and keeps every other domain the file names,
      in order. */
  lemma SearchKeepsDomains(domain: string, content: string)
    ensures Fields(Search(domain, content)) == Fields(domain) + Others(domain, Existing(Lines(content)))
  {
    ExistingWords(Lines(content));
    JoinedWords(domain, Existing(Lines(content)));
  }

  /** So a domain is searched exactly if it is ours or some line of the file lists it. */
  lemma SearchIff(domain: string, content: string, d: string)
    requires IsWord(domain)
    ensures d in Fields(Search(domain, content))
       <==> d == domain || exists i :: 0 <= i < |Lines(content)| && Lists(Lines(content)[i], d)
  {
    SearchKeepsDomains(domain, content);
    OneWord("", domain);
    assert "" + domain == domain;
    ExistingIff(Lines(content), d);
    OthersIff(domain, Existing(Lines(content)), d);
  }

  // ---------------------------------------------------------------- the file

  lemma {:induction false} JoinedHasNoNewline(domain: string, ds: seq<string>)
    requires '\n' !in domain && AllWords(ds)
    ensures '\n' !in Joined(domain, ds)
  {
    if ds != [] {
      JoinedHasNoNewline(domain, ds[..|ds| - 1]);
      assert IsWord(ds[|ds| - 1]);
    }
  }

  lemma BlockLines(resolver: string, search: string, content: string)
    requires '\n' !in resolver && '\n' !in search
    ensures Lines(Block(resolver, search, content))
         == [BEGIN_MARKER, "nameserver " + resolver, "search " + search, END_MARKER] + Lines(content)
  {
    MarkersDiffer();
    var l1, l2, l3, l4 := BEGIN_MARKER, "nameserver " + resolver, "search " + search, END_MARKER;
    FourLines(l1, l2, l3, l4, content);
  }

  lemma FourLines(l1: string, l2: string, l3: string, l4: string, rest: string)
    requires '\n' !in l1 && '\n' !in l2 && '\n' !in l3 && '\n' !in l4
    ensures Lines(l1 + "\n" + (l2 + "\n" + (l3 + "\n" + (l4 + "\n" + rest)))) == [l1, l2, l3, l4] + Lines(rest)
  {
    LinesSplit(l4, rest);
    LinesSplit(l3, l4 + "\n" + rest);
    LinesSplit(l2, l3 + "\n" + (l4 + "\n" + rest));
    LinesSplit(l1, l2 + "\n" + (l3 + "\n" + (l4 + "\n" + rest)));
  }

  lemma DomainsOfSearchLine(search: string)
    ensures DomainsOf("search " + search) == Fields(search)
  {
    assert "search " + search == "search" + [' '] + search;
    WordsSplit("", "search", ' ', search);
    OneWord("", "search");
    assert "" + "search" == "search" && (["search"] + Fields(search))[1..] == Fields(search);
  }

  /** The configured file: our name server and a search line in front of the file, line
      by line, and the search line lists our domain and all the others. */
  lemma ConfiguredFile(file: string, domain: string, resolver: string) returns (line: string)
    requires GoodFile(file) && '\n' !in domain && '\n' !in resolver
    ensures Lines(Configured(file, domain, resolver))
         == [BEGIN_MARKER, "nameserver " + resolver, line, END_MARKER] + Lines(Strip(file))
    ensures DomainsOf(line) == Fields(domain) + Others(domain, Existing(Lines(Strip(file))))
  {
    var search := Search(domain, Strip(file));
    line := "search " + search;
    ExistingWords(Lines(Strip(file)));
    JoinedHasNoNewline(domain, Existing(Lines(Strip(file))));
    BlockLines(resolver, search, Strip(file));
    DomainsOfSearchLine(search);
    SearchKeepsDomains(domain, Strip(file));
  }
}
