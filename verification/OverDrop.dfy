/** Resumable file transfer, internal/overdrop/overdrop.go: the directory of one sender,
    its staged and finished files, and the attempts in progress. */
module OverDrop {
  import opened Prelude
  import opened Numerals

  // ---------------------------------------------------------------- names

  /** The staging path of a transfer. */
  function Part(name: string, size: nat): string { name + "." + Decimal(size) + ".part" }

  /** Where the extension starts: the last dot, or the end. */
  function DotAt(s: string): (i: nat)
    ensures i <= |s| && (i < |s| ==> s[i] == '.')
    ensures forall k :: i < k < |s| ==> s[k] != '.'
    ensures i == |s| ==> '.' !in s
  {
    if s == "" then 0
    else if s[|s| - 1] == '.' then |s| - 1
    else
      var i := DotAt(s[..|s| - 1]);
      if i == |s| - 1 then (assert s == s[..|s| - 1] + [s[|s| - 1]]; |s|) else i
  }

  /** The i-th path dedupePath tries: name.ext, "name (2).ext", "name (3).ext", ... */
  function Variant(name: string, i: nat): string {
    if i == 1 then name else name[..DotAt(name)] + " (" + Decimal(i) + ")" + name[DotAt(name)..]
  }

  /** p is the first path in that order that does not exist. */
  ghost predicate IsPick(taken: set<string>, name: string, p: string) {
    exists i: nat :: i >= 1 && p == Variant(name, i) && p !in taken && AllTaken(taken, name, i)
  }

  predicate AllTaken(taken: set<string>, name: string, i: nat) {
    forall k :: 1 <= k < i ==> Variant(name, k) in taken
  }

  lemma VariantDigits(name: string, i: nat)
    requires i >= 2
    ensures var s, d, n := Variant(name, i), DotAt(name), |Decimal(i)|;
            |s| == |name| + 3 + n && s[d + 2..d + 2 + n] == Decimal(i)
  {
    var d := DotAt(name);
    assert Variant(name, i) == (name[..d] + " (") + (Decimal(i) + (")" + name[d..]));
  }

  lemma VariantsDiffer(name: string, i: nat, j: nat)
    requires 1 <= i < j
    ensures Variant(name, i) != Variant(name, j)
  {
    VariantDigits(name, j);
    if i > 1 && Variant(name, i) == Variant(name, j) {
      VariantDigits(name, i);
      DecimalInjective(i, j);
    }
  }

  /** The loop stops after at most one try more than there are files. */
  method DedupePath(taken: set<string>, name: string) returns (p: string, tries: nat)
    ensures IsPick(taken, name, p) && tries <= |taken| + 1
  {
    p, tries := name, 1;
    ghost var rest := taken;
    while p in taken
      invariant tries >= 1 && p == Variant(name, tries) && AllTaken(taken, name, tries)
      invariant rest <= taken && |rest| + tries == |taken| + 1
      invariant forall k :: tries <= k && Variant(name, k) in taken ==> Variant(name, k) in rest
      decreases |rest|
    {
      forall k | tries < k ensures Variant(name, k) != p { VariantsDiffer(name, tries, k); }
      rest := rest - {p};
      tries := tries + 1;
      p := Variant(name, tries);
    }
  }

  // ---------------------------------------------------------------- staging paths

  ghost predicate StagingForm(s: string) { exists n: string, z: nat :: s == Part(n, z) }

  /** Distinct (name, size) pairs never share a staging path. */
  lemma PartInjective(n: string, z: nat, n': string, z': nat)
    requires Part(n, z) == Part(n', z')
    ensures n == n' && z == z'
  {
    DecimalRoundTrip(z);
    DecimalRoundTrip(z');
    var s := Part(n, z);
    DotBeforeDigits(n, z);
    DotBeforeDigits(n', z');
    assert s[..|n|] == n && s[..|n'|] == n';
    assert s[|n| + 1..|s| - 5] == Decimal(z) && s[|n'| + 1..|s| - 5] == Decimal(z');
    DecimalInjective(z, z');
  }

  lemma DotBeforeDigits(n: string, z: nat)
    ensures var s := Part(n, z); |s| >= |n| + 7 && s[|n|] == '.' && forall k :: |n| < k < |s| - 5 ==> s[k] != '.'
  {
    DecimalRoundTrip(z);
    var s := Part(n, z);
    assert s[|n| + 1..|s| - 5] == Decimal(z);
    forall k | |n| < k < |s| - 5 ensures s[k] != '.' {
      assert s[k] == Decimal(z)[k - |n| - 1] && Decimal(z)[k - |n| - 1] in Decimal(z);
    }
  }

  /** A deduplicated name is never a staging path. */
  lemma VariantIsNotStaging(name: string, i: nat, n: string, z: nat)
    requires i >= 2
    ensures Variant(name, i) != Part(n, z)
  {
    var s, t, ext := Variant(name, i), Part(n, z), name[DotAt(name)..];
    DecimalRoundTrip(z);
    assert s == (name[..DotAt(name)] + " (" + Decimal(i) + ")") + ext;
    assert s[|s| - |ext| - 1] == ')' && s[|s| - |ext|..] == ext;
    assert forall j :: 0 < j < |ext| ==> ext[j] != '.';
    assert |ext| > 5 ==> s[|s| - 5] == ext[|ext| - 5];
    assert 0 < |ext| ==> s[|s| - |ext|] == '.';
    var digits := Decimal(z);
    assert t == (n + "." + digits) + ".part";
    assert t[|t| - 6] == digits[|digits| - 1] && digits[|digits| - 1] in digits;
    assert t[|t| - 5..] == ".part";
    assert t[|t| - 5] == '.' && t[|t| - 4] == 'p' && t[|t| - 3] == 'a' && t[|t| - 2] == 'r' && t[|t| - 1] == 't';
  }

  /** So a finished file can land on a staging path exactly when its own name has that form. */
  lemma PicksAreNotStaging(taken: set<string>, name: string, p: string)
    requires IsPick(taken, name, p)
    ensures StagingForm(p) ==> p == name
    ensures !StagingForm(name) ==> !StagingForm(p)
  {
    var i: nat :| i >= 1 && p == Variant(name, i) && p !in taken && AllTaken(taken, name, i);
    if StagingForm(p) {
      var n: string, z: nat :| p == Part(n, z);
      if i > 1 { VariantIsNotStaging(name, i, n, z); }
    }
  }

  // ---------------------------------------------------------------- the transfer

  /** An attempt holds the busy lock of its staging path; got is where it writes next. */
  datatype Attempt = Attempt(name: string, size: nat, got: nat)

  datatype Dir = Dir(files: map<string, seq<byte>>, busy: map<string, Attempt>)

  function Staged(d: Dir, p: string): seq<byte> { if p in d.files then d.files[p] else [] }

  function WriteAt(c: seq<byte>, at: nat, b: seq<byte>): seq<byte> {
    var c' := if at <= |c| then c else c + seq(at - |c|, _ => 0);
    c'[..at] + b + if at + |b| <= |c'| then c'[at + |b|..] else []
  }

  /** Bytes outside the piece stay, and a gap before it reads as zeros. */
  lemma WriteAtIs(c: seq<byte>, at: nat, b: seq<byte>, i: nat)
    requires i < |WriteAt(c, at, b)|
    ensures |WriteAt(c, at, b)| == if at + |b| <= |c| then |c| else at + |b|
    ensures WriteAt(c, at, b)[i] == if at <= i < at + |b| then b[i - at] else if i < |c| then c[i] else 0
  {
  }

  /** PUT up to the copy: refused unless the file is not busy and the client resumes
      exactly where the staged file ends.  Opening creates the file either way. */
  function Begin(d: Dir, name: string, size: nat, offset: nat): Dir {
    var p := Part(name, size);
    if offset > size || p in d.busy then d
    else
      var files := if p in d.files then d.files else d.files[p := []];
      if |files[p]| != offset then d.(files := files)
      else d.(files := files, busy := d.busy[p := Attempt(name, size, offset)])
  }

  /** A piece of the body is copied into the staged file. */
  function Receive(d: Dir, p: string, b: seq<byte>): Dir
    requires p in d.busy
  {
    var a := d.busy[p];
    Dir(if p in d.files then d.files[p := WriteAt(d.files[p], a.got, b)] else d.files,
        d.busy[p := a.(got := a.got + |b|)])
  }

  /** The attempt ends without success: what arrived is kept, unless it is too much. */
  function Stop(d: Dir, p: string): Dir
    requires p in d.busy
  {
    Dir(if d.busy[p].got > d.busy[p].size then d.files - {p} else d.files, d.busy - {p})
  }

  function Rename(files: map<string, seq<byte>>, p: string, dst: string): map<string, seq<byte>>
    requires p in files
  {
    (files - {p})[dst := files[p]]
  }

  function Finish(d: Dir, p: string, dst: string): Dir
    requires p in d.busy && p in d.files
  {
    Dir(Rename(d.files, p, dst), d.busy - {p})
  }

  datatype Event =
    | Begins(name: string, size: nat, offset: nat)
    | Receives(p: string, b: seq<byte>)
    | Stops(p: string)
    | Finishes(p: string, dst: string)
    | Crashes

  ghost predicate Enabled(d: Dir, e: Event) {
    match e
    case Begins(_, _, _) => true
    case Receives(p, _) => p in d.busy
    case Stops(p) => p in d.busy
    case Finishes(p, dst) =>
      p in d.busy && p in d.files && d.busy[p].got == d.busy[p].size && IsPick(d.files.Keys, d.busy[p].name, dst)
    case Crashes => true
  }

  ghost function Apply(d: Dir, e: Event): Dir
    requires Enabled(d, e)
  {
    match e
    case Begins(name, size, offset) => Begin(d, name, size, offset)
    case Receives(p, b) => Receive(d, p, b)
    case Stops(p) => Stop(d, p)
    case Finishes(p, dst) => Finish(d, p, dst)
    case Crashes => d.(busy := map[])
  }

  // ---------------------------------------------------------------- one honest transfer among any others

  /** Transfers go by the given names, and pieces of the transfer at path p are pieces of
      src; all other transfers may send anything. */
  ghost predicate Fair(d: Dir, e: Event, names: iset<string>, p: string, src: seq<byte>) {
    match e
    case Begins(name, _, _) => name in names
    case Receives(q, b) =>
      q == p && p in d.busy ==> d.busy[p].got + |b| <= |src| && b == src[d.busy[p].got..d.busy[p].got + |b|]
    case _ => true
  }

  ghost predicate AttemptOk(files: map<string, seq<byte>>, p: string, q: string, a: Attempt) {
    q == Part(a.name, a.size) && q in files && |files[q]| == a.got && a.name != p
  }

  ghost predicate Inv(d: Dir, p: string, src: seq<byte>) {
    && (forall q :: q in d.busy ==> AttemptOk(d.files, p, q, d.busy[q]))
    && Staged(d, p) <= src
  }

  lemma ReceiveKeeps(d: Dir, q: string, b: seq<byte>, names: iset<string>, p: string, src: seq<byte>)
    requires Inv(d, p, src) && q in d.busy && Fair(d, Receives(q, b), names, p, src)
    ensures Inv(Receive(d, q, b), p, src)
  {
    var d' := Receive(d, q, b);
    assert AttemptOk(d.files, p, q, d.busy[q]);
    assert WriteAt(d.files[q], d.busy[q].got, b) == d.files[q] + b;
    forall r | r in d'.busy ensures AttemptOk(d'.files, p, r, d'.busy[r]) {
      if r != q { assert AttemptOk(d.files, p, r, d.busy[r]); }
    }
  }

  lemma BeginKeeps(d: Dir, name: string, size: nat, offset: nat, p: string, src: seq<byte>)
    requires Inv(d, p, src) && name != p
    ensures Inv(Begin(d, name, size, offset), p, src)
  {
    var d' := Begin(d, name, size, offset);
    forall r | r in d'.busy ensures AttemptOk(d'.files, p, r, d'.busy[r]) {
      if r in d.busy { assert AttemptOk(d.files, p, r, d.busy[r]); }
    }
  }

  lemma StepKeeps(d: Dir, e: Event, names: iset<string>, p: string, src: seq<byte>)
    requires Inv(d, p, src) && Enabled(d, e) && Fair(d, e, names, p, src) && StagingForm(p) && p !in names
    ensures Inv(Apply(d, e), p, src)
  {
    match e
    case Begins(name, size, offset) => BeginKeeps(d, name, size, offset, p, src);
    case Receives(q, b) => ReceiveKeeps(d, q, b, names, p, src);
    case Stops(q) => OthersStay(d, p, q, Stop(d, q));
    case Finishes(q, dst) =>
      assert AttemptOk(d.files, p, q, d.busy[q]);
      PicksAreNotStaging(d.files.Keys, d.busy[q].name, dst);
      OthersStay(d, p, q, Finish(d, q, dst));
    case Crashes =>
  }

  lemma OthersStay(d: Dir, p: string, q: string, d': Dir)
    requires forall r :: r in d.busy ==> AttemptOk(d.files, p, r, d.busy[r])
    requires d'.busy == d.busy - {q}
    requires forall r :: r in d.files && r != q ==> r in d'.files && d'.files[r] == d.files[r]
    ensures forall r :: r in d'.busy ==> AttemptOk(d'.files, p, r, d'.busy[r])
  {
    forall r | r in d'.busy ensures AttemptOk(d'.files, p, r, d'.busy[r]) {
      assert AttemptOk(d.files, p, r, d.busy[r]);
    }
  }

  // ---------------------------------------------------------------- all runs

  ghost predicate IsRun(ds: seq<Dir>, es: seq<Event>, names: iset<string>, p: string, src: seq<byte>) {
    && |ds| == |es| + 1 && ds[0].busy == map[] && Staged(ds[0], p) <= src
    && forall i :: 0 <= i < |es| ==> FairStep(ds, es, names, p, src, i)
  }

  ghost predicate FairStep(ds: seq<Dir>, es: seq<Event>, names: iset<string>, p: string, src: seq<byte>, i: nat)
    requires |ds| == |es| + 1 && i < |es|
  {
    Enabled(ds[i], es[i]) && Fair(ds[i], es[i], names, p, src) && ds[i + 1] == Apply(ds[i], es[i])
  }

  /** Whatever is interrupted, retried or sent at the same time, the staged file is a
      prefix of the source, as long as no transfer is named like it. */
  lemma {:induction false} StagedIsPrefix(ds: seq<Dir>, es: seq<Event>, names: iset<string>, name: string,
                                          src: seq<byte>, k: nat)
    requires var p := Part(name, |src|); IsRun(ds, es, names, p, src) && k <= |es| && p !in names
    ensures Inv(ds[k], Part(name, |src|), src) && Staged(ds[k], Part(name, |src|)) <= src
  {
    var p := Part(name, |src|);
    assert StagingForm(p);
    if k > 0 {
      StagedIsPrefix(ds, es, names, name, src, k - 1);
      assert FairStep(ds, es, names, p, src, k - 1);
      StepKeeps(ds[k - 1], es[k - 1], names, p, src);
    }
  }

  /** Success leaves one new file that equals the source, frees the staging path and
      changes nothing else. */
  lemma SuccessDelivers(ds: seq<Dir>, es: seq<Event>, names: iset<string>, name: string, src: seq<byte>, k: nat)
    requires var p := Part(name, |src|);
             IsRun(ds, es, names, p, src) && k < |es| && p !in names && es[k].Finishes? && es[k].p == p
    ensures es[k].dst !in ds[k].files
    ensures ds[k + 1].files == (ds[k].files - {Part(name, |src|)})[es[k].dst := src]
  {
    var p := Part(name, |src|);
    StagedIsPrefix(ds, es, names, name, src, k);
    assert FairStep(ds, es, names, p, src, k) && AttemptOk(ds[k].files, p, p, ds[k].busy[p]);
    PartInjective(ds[k].busy[p].name, ds[k].busy[p].size, name, |src|);
    assert Staged(ds[k], p) == src;
  }

  /** Every piece that carries bytes brings the transfer closer to its end. */
  lemma PiecesMakeProgress(ds: seq<Dir>, es: seq<Event>, names: iset<string>, name: string, src: seq<byte>, k: nat)
    requires var p := Part(name, |src|);
             IsRun(ds, es, names, p, src) && k < |es| && p !in names && es[k].Receives? && es[k].p == p
    requires es[k].b != []
    ensures 0 <= |src| - |Staged(ds[k + 1], Part(name, |src|))| < |src| - |Staged(ds[k], Part(name, |src|))|
  {
    var p := Part(name, |src|);
    StagedIsPrefix(ds, es, names, name, src, k);
    StagedIsPrefix(ds, es, names, name, src, k + 1);
    assert FairStep(ds, es, names, p, src, k) && AttemptOk(ds[k].files, p, p, ds[k].busy[p]);
  }

  // ---------------------------------------------------------------- what arrived is kept

  /** The piece of the transfer at p that an event brings. */
  function Piece(e: Event, p: string): seq<byte> { if e.Receives? && e.p == p then e.b else [] }

  predicate Completes(e: Event, p: string) { e.Finishes? && e.p == p }

  /** One step changes the staged file of the transfer only by what it brings, whoever
      begins, stops, crashes or finishes meanwhile. */
  lemma StepAppends(d: Dir, e: Event, names: iset<string>, name: string, src: seq<byte>)
    requires var p := Part(name, |src|);
             Inv(d, p, src) && Enabled(d, e) && Fair(d, e, names, p, src) && p !in names && !Completes(e, p)
    ensures var p := Part(name, |src|); Staged(Apply(d, e), p) == Staged(d, p) + Piece(e, p)
  {
    var p := Part(name, |src|);
    match e
    case Begins(_, _, _) =>
    case Receives(q, b) =>
      assert AttemptOk(d.files, p, q, d.busy[q]);
      assert WriteAt(d.files[q], d.busy[q].got, b) == d.files[q] + b;
    case Stops(q) =>
      assert AttemptOk(d.files, p, q, d.busy[q]);
      if q == p { PartInjective(d.busy[p].name, d.busy[p].size, name, |src|); }
    case Finishes(q, dst) =>
      assert AttemptOk(d.files, p, q, d.busy[q]) && StagingForm(p);
      PicksAreNotStaging(d.files.Keys, d.busy[q].name, dst);
    case Crashes =>
  }

  /** Everything the transfer at p receives from event j up to event k. */
  function Received(es: seq<Event>, j: nat, k: nat, p: string): seq<byte>
    requires j <= k <= |es|
    decreases k
  {
    if j == k then [] else Received(es, j, k - 1, p) + Piece(es[k - 1], p)
  }

  /** Until the transfer completes, the staged file holds what it held at any earlier time
      and all that was received since, in order, over any number of interrupted attempts
      and restarts of the receiver. */
  lemma {:induction false} NothingIsLost(ds: seq<Dir>, es: seq<Event>, names: iset<string>, name: string,
                                         src: seq<byte>, j: nat, k: nat)
    requires var p := Part(name, |src|); IsRun(ds, es, names, p, src) && j <= k <= |es| && p !in names
    requires NotCompleted(es, Part(name, |src|), j, k)
    ensures var p := Part(name, |src|); Staged(ds[k], p) == Staged(ds[j], p) + Received(es, j, k, p)
    decreases k
  {
    if j < k {
      NothingIsLost(ds, es, names, name, src, j, k - 1);
      assert !Completes(es[k - 1], Part(name, |src|));
      StepKeepsAll(ds, es, names, name, src, k - 1);
      var p := Part(name, |src|);
      Regroup(Staged(ds[j], p), Received(es, j, k - 1, p), Piece(es[k - 1], p));
    }
  }

  lemma Regroup(a: seq<byte>, b: seq<byte>, c: seq<byte>)
    ensures (a + b) + c == a + (b + c)
  {
  }

  lemma StepKeepsAll(ds: seq<Dir>, es: seq<Event>, names: iset<string>, name: string, src: seq<byte>, k: nat)
    requires var p := Part(name, |src|); IsRun(ds, es, names, p, src) && k < |es| && p !in names
    requires !Completes(es[k], Part(name, |src|))
    ensures var p := Part(name, |src|); Staged(ds[k + 1], p) == Staged(ds[k], p) + Piece(es[k], p)
  {
    StagedIsPrefix(ds, es, names, name, src, k);
    assert FairStep(ds, es, names, Part(name, |src|), src, k);
    StepAppends(ds[k], es[k], names, name, src);
  }

  /** The attempt that event j began ends with event k: stopped, or cut off by a crash. */
  predicate IsAttempt(ds: seq<Dir>, es: seq<Event>, p: string, j: nat, k: nat) {
    && |ds| == |es| + 1 && j < k < |es| && es[j].Begins? && p !in ds[j].busy
    && Holds(ds, p, j + 1, k) && NotCompleted(es, p, j, k)
    && (es[k] == Stops(p) || es[k] == Crashes)
  }

  predicate Holds(ds: seq<Dir>, p: string, j: nat, k: nat)
    requires k < |ds|
  {
    forall i :: j <= i <= k ==> p in ds[i].busy
  }

  predicate NotCompleted(es: seq<Event>, p: string, j: nat, k: nat)
    requires k <= |es|
  {
    forall i :: j <= i < k ==> !Completes(es[i], p)
  }

  /** An attempt that fails keeps what it received, so the next one starts there: the part
      of the source still missing is smaller by exactly that. */
  lemma AttemptsMakeProgress(ds: seq<Dir>, es: seq<Event>, names: iset<string>, name: string, src: seq<byte>,
                             j: nat, k: nat)
    requires var p := Part(name, |src|); IsRun(ds, es, names, p, src) && p !in names && IsAttempt(ds, es, p, j, k)
    ensures var p := Part(name, |src|);
            && Staged(ds[k + 1], p) == Staged(ds[k], p) == Staged(ds[j], p) + Received(es, j, k, p)
            && p !in ds[k + 1].busy
            && |src| - |Staged(ds[k + 1], p)| == |src| - |Staged(ds[j], p)| - |Received(es, j, k, p)| >= 0
  {
    NothingIsLost(ds, es, names, name, src, j, k);
    InterruptionsKeep(ds, es, names, name, src, k);
    ShorterByPiece(src, Staged(ds[k + 1], Part(name, |src|)), Staged(ds[j], Part(name, |src|)),
                   Received(es, j, k, Part(name, |src|)));
  }

  lemma ShorterByPiece(src: seq<byte>, now: seq<byte>, before: seq<byte>, got: seq<byte>)
    requires now <= src && now == before + got
    ensures |src| - |now| == |src| - |before| - |got| >= 0
  {
  }

  /** An attempt that is stopped or cut off leaves the staged file as it is. */
  lemma InterruptionsKeep(ds: seq<Dir>, es: seq<Event>, names: iset<string>, name: string, src: seq<byte>, k: nat)
    requires var p := Part(name, |src|);
             IsRun(ds, es, names, p, src) && k < |es| && p !in names && (es[k] == Stops(p) || es[k] == Crashes)
    ensures var p := Part(name, |src|);
            Staged(ds[k + 1], p) == Staged(ds[k], p) && Staged(ds[k + 1], p) <= src && p !in ds[k + 1].busy
  {
    StepKeepsAll(ds, es, names, name, src, k);
    EndsUnlocked(ds, es, names, name, src, k);
    StagedIsPrefix(ds, es, names, name, src, k + 1);
  }

  lemma EndsUnlocked(ds: seq<Dir>, es: seq<Event>, names: iset<string>, name: string, src: seq<byte>, k: nat)
    requires var p := Part(name, |src|);
             IsRun(ds, es, names, p, src) && k < |es| && (es[k] == Stops(p) || es[k] == Crashes)
    ensures Part(name, |src|) !in ds[k + 1].busy
  {
    assert FairStep(ds, es, names, Part(name, |src|), src, k);
  }

  /** The offset the receiver reports is never past the end, and resuming from it is
      accepted whenever no other attempt holds the file. */
  lemma ResumeIsAccepted(ds: seq<Dir>, es: seq<Event>, names: iset<string>, name: string, src: seq<byte>, k: nat)
    requires var p := Part(name, |src|); IsRun(ds, es, names, p, src) && k <= |es| && p !in names && p !in ds[k].busy
    ensures var p, offset := Part(name, |src|), |Staged(ds[k], Part(name, |src|))|;
            var d := Begin(ds[k], name, |src|, offset);
            && offset <= |src| && p in d.busy && d.busy[p] == Attempt(name, |src|, offset)
            && Staged(d, p) == Staged(ds[k], p)
  {
    StagedIsPrefix(ds, es, names, name, src, k);
  }

  /** And whenever nobody else writes, sending the rest from there completes the transfer. */
  lemma ResumeCompletes(ds: seq<Dir>, es: seq<Event>, names: iset<string>, name: string, src: seq<byte>, k: nat,
                        dst: string)
    requires var p := Part(name, |src|); IsRun(ds, es, names, p, src) && k <= |es| && p !in names && p !in ds[k].busy
    ensures var p, have := Part(name, |src|), Staged(ds[k], Part(name, |src|));
            var d1 := Begin(ds[k], name, |src|, |have|);
            && |have| <= |src| && p in d1.busy
            && var d2 := Receive(d1, p, src[|have|..]);
               IsPick(d2.files.Keys, name, dst) ==>
                 Enabled(d2, Finishes(p, dst)) && Finish(d2, p, dst).files == (ds[k].files - {p})[dst := src]
  {
    StagedIsPrefix(ds, es, names, name, src, k);
    RestCompletes(ds[k], name, src, dst);
  }

  lemma RestCompletes(d: Dir, name: string, src: seq<byte>, dst: string)
    requires var p := Part(name, |src|); p !in d.busy && Staged(d, p) <= src
    ensures var p, have := Part(name, |src|), Staged(d, Part(name, |src|));
            var d1 := Begin(d, name, |src|, |have|);
            && p in d1.busy
            && var d2 := Receive(d1, p, src[|have|..]);
               IsPick(d2.files.Keys, name, dst) ==>
                 Enabled(d2, Finishes(p, dst)) && Finish(d2, p, dst).files == (d.files - {p})[dst := src]
  {
    var p, have := Part(name, |src|), Staged(d, Part(name, |src|));
    var d1 := Begin(d, name, |src|, |have|);
    assert d1 == Dir(d.files[p := have], d.busy[p := Attempt(name, |src|, |have|)]);
    assert WriteAt(have, |have|, src[|have|..]) == have + src[|have|..] == src;
    assert Receive(d1, p, src[|have|..]) == Dir(d.files[p := src], d.busy[p := Attempt(name, |src|, |src|)]);
    assert d.files[p := src] - {p} == d.files - {p};
  }

  // ---------------------------------------------------------------- finished files

  ghost predicate IsHistory(ds: seq<Dir>, es: seq<Event>) {
    && |ds| == |es| + 1 && ds[0].busy == map[]
    && forall i :: 0 <= i < |es| ==> Enabled(ds[i], es[i]) && ds[i + 1] == Apply(ds[i], es[i])
  }

  predicate BeginsAt(e: Event, f: string) { e.Begins? && Part(e.name, e.size) == f }

  /** A file on which no transfer stages is never touched, whatever its name and
      whatever the transfers send. */
  lemma {:induction false} FinishedFilesStay(ds: seq<Dir>, es: seq<Event>, j: nat, k: nat, f: string)
    requires IsHistory(ds, es) && j <= k <= |es| && f in ds[j].files && f !in ds[j].busy
    requires forall i :: j <= i < k ==> !BeginsAt(es[i], f)
    ensures f in ds[k].files && ds[k].files[f] == ds[j].files[f] && f !in ds[k].busy
    decreases k
  {
    if j < k {
      FinishedFilesStay(ds, es, j, k - 1, f);
      assert Enabled(ds[k - 1], es[k - 1]) && !BeginsAt(es[k - 1], f);
    }
  }

  lemma {:induction false} BusyAreParts(ds: seq<Dir>, es: seq<Event>, k: nat, f: string)
    requires IsHistory(ds, es) && k <= |es| && f in ds[k].busy
    ensures StagingForm(f)
    decreases k
  {
    if k > 0 && f in ds[k - 1].busy {
      BusyAreParts(ds, es, k - 1, f);
    } else {
      assert k > 0 && Enabled(ds[k - 1], es[k - 1]) && BeginsAt(es[k - 1], f);
    }
  }

  /** In particular every file whose name has no staging form stays for good. */
  lemma PlainFilesStay(ds: seq<Dir>, es: seq<Event>, j: nat, k: nat, f: string)
    requires IsHistory(ds, es) && j <= k <= |es| && f in ds[j].files && !StagingForm(f)
    ensures f in ds[k].files && ds[k].files[f] == ds[j].files[f]
  {
    if f in ds[j].busy { BusyAreParts(ds, es, j, f); }
    FinishedFilesStay(ds, es, j, k, f);
  }

  // ---------------------------------------------------------------- what the conditions exclude

  /** The staged file is a prefix of the source in every run over these names. */
  ghost predicate AlwaysPrefix(names: iset<string>, p: string, src: seq<byte>) {
    forall ds: seq<Dir>, es: seq<Event> :: IsRun(ds, es, names, p, src) ==> Staged(ds[|es|], p) <= src
  }

  /** From an empty directory, a transfer named like the staging path p finishes onto p
      with more bytes than p can hold. */
  lemma NamedLikeStaging(names: iset<string>, p: string, src: seq<byte>) returns (ds: seq<Dir>, es: seq<Event>)
    requires p in names
    ensures IsRun(ds, es, names, p, src) && ds[0] == Dir(map[], map[]) && |Staged(ds[|es|], p)| == |src| + 1
  {
    var z := |src| + 1;
    var q, b: seq<byte> := Part(p, z), seq(z, _ => 0);
    assert |q| > |p|;
    var d0 := Dir(map[], map[]);
    var d1 := Begin(d0, p, z, 0);
    var d2 := Receive(d1, q, b);
    assert WriteAt([], 0, b) == b;
    assert d2 == Dir(map[q := b], map[q := Attempt(p, z, z)]);
    assert p == Variant(p, 1) && p !in d2.files.Keys && AllTaken(d2.files.Keys, p, 1);
    var d3 := Finish(d2, q, p);
    ds, es := [d0, d1, d2, d3], [Begins(p, z, 0), Receives(q, b), Finishes(q, p)];
    assert Enabled(d2, es[2]);
  }

  /** The condition is exact: over a set of names the staged file is always a prefix of
      the source if and only if no transfer may be named like the staging path. */
  lemma PrefixIff(names: iset<string>, name: string, src: seq<byte>)
    ensures AlwaysPrefix(names, Part(name, |src|), src) <==> Part(name, |src|) !in names
  {
    var p := Part(name, |src|);
    if p in names {
      var ds, es := NamedLikeStaging(names, p, src);
      assert !(Staged(ds[|es|], p) <= src);
    } else {
      forall ds: seq<Dir>, es: seq<Event> | IsRun(ds, es, names, p, src) ensures Staged(ds[|es|], p) <= src {
        StagedIsPrefix(ds, es, names, name, src, |es|);
      }
    }
  }

  /** Picking the path and renaming are two steps in the source.  When two transfers
      pick before either renames, the first one's file survives exactly when the picks
      differ (or the files are equal anyway): two sizes of one name pick alike. */
  lemma SplitFinish(files: map<string, seq<byte>>, p1: string, n1: string, d1: string, p2: string, n2: string,
                    d2: string)
    requires p1 in files && p2 in files && p1 != p2
    requires IsPick(files.Keys, n1, d1) && IsPick(files.Keys, n2, d2)
    ensures var after := Rename(Rename(files, p1, d1), p2, d2);
            && (after[d1] == files[p1] <==> d1 != d2 || files[p1] == files[p2])
            && (n1 == n2 ==> d1 == d2)
  {
    if n1 == n2 { PickIsUnique(files.Keys, n1, d1, d2); }
  }

  lemma PickIsUnique(taken: set<string>, name: string, p: string, q: string)
    requires IsPick(taken, name, p) && IsPick(taken, name, q)
    ensures p == q
  {
    var i: nat :| i >= 1 && p == Variant(name, i) && p !in taken && AllTaken(taken, name, i);
    var j: nat :| j >= 1 && q == Variant(name, j) && q !in taken && AllTaken(taken, name, j);
  }

  // ---------------------------------------------------------------- the receiving server

  datatype Status = NoContent | BadRequest | Conflict | ServerError

  /** One sender's directory on disk and the busy locks; a PUT is a Start, a Copy for
      each piece that arrives, and an End. */
  class Inbox {
    var files: map<string, seq<byte>>
    var busy: map<string, Attempt>

    ghost function View(): Dir
      reads this
    {
      Dir(files, busy)
    }

    constructor ()
      ensures View() == Dir(map[], map[])
    {
      files, busy := map[], map[];
    }

    method Offset(name: string, size: nat) returns (n: nat)
      ensures n == |Staged(View(), Part(name, size))|
    {
      var part := Part(name, size);
      n := 0;
      if part in files { n := |files[part]|; }
    }

    method Start(name: string, size: nat, offset: nat) returns (refused: Option<Status>)
      modifies this
      ensures View() == Begin(old(View()), name, size, offset)
      ensures refused.None? <==> Part(name, size) !in old(busy) && Part(name, size) in busy
      ensures refused == Some(BadRequest) <==> offset > size
      ensures refused.Some? ==> refused.value.BadRequest? || refused.value.Conflict?
      ensures refused.None? <==>
                && offset <= size && Part(name, size) !in old(busy)
                && offset == if Part(name, size) in old(files) then |old(files)[Part(name, size)]| else 0
      ensures forall f :: f in old(files) ==> f in files && files[f] == old(files)[f]
      ensures forall f :: f in files && f !in old(files) ==> f == Part(name, size) && files[f] == []
    {
      if offset > size { return Some(BadRequest); }
      var part := Part(name, size);
      if part in busy { return Some(Conflict); }
      busy := busy[part := Attempt(name, size, offset)];
      if part !in files { files := files[part := []]; }
      if |files[part]| != offset {
        busy := busy - {part};
        return Some(Conflict);
      }
      return None;
    }

    method Copy(part: string, b: seq<byte>)
      requires part in busy
      modifies this
      ensures View() == Receive(old(View()), part, b)
      ensures part in old(files) && |old(files)[part]| == old(busy)[part].got ==>
                files == old(files)[part := old(files)[part] + b] && busy[part].got == |files[part]|
    {
      var at := busy[part].got;
      if part in files && |files[part]| == at { assert WriteAt(files[part], at, b) == files[part] + b; }
      if part in files { files := files[part := WriteAt(files[part], at, b)]; }
      busy := busy[part := busy[part].(got := at + |b|)];
    }

    /** failed: the body ended with an error, or the staged file could not be synced. */
    method End(part: string, failed: bool) returns (status: Status, dst: string)
      requires part in busy && part in files
      modifies this
      ensures status == NoContent <==> !failed && old(busy)[part].got == old(busy)[part].size
      ensures status == NoContent ==>
                && IsPick(old(files).Keys, old(busy)[part].name, dst) && View() == Finish(old(View()), part, dst)
      ensures status != NoContent ==> View() == Stop(old(View()), part)
      ensures busy == old(busy) - {part}
      ensures var a := old(busy)[part];
              && (status == NoContent ==> files == (old(files) - {part})[dst := old(files)[part]])
              && (status != NoContent && a.got <= a.size ==> files == old(files))
              && (a.got > a.size ==> files == old(files) - {part})
              && status == if a.got > a.size then BadRequest else if failed then ServerError
                           else if a.got < a.size then BadRequest else NoContent
    {
      var a := busy[part];
      dst := "";
      if failed || a.got > a.size {
        status := ServerError;
        if a.got > a.size {
          files := files - {part};
          status := BadRequest;
        }
      } else if a.got < a.size {
        status := BadRequest;
      } else {
        var tries;
        dst, tries := DedupePath(files.Keys, a.name);
        files := (files - {part})[dst := files[part]];
        status := NoContent;
      }
      busy := busy - {part};
    }
  }
}
