/** internal/ipam/ipam.go: the overlay address allocator of one network. */
module Ipam {
  import opened Prelude
  import opened Arith
  import opened Numerals
  import opened Net

  /** The value of an allocator: masked prefixes, taken addresses, scan cursor. */
  datatype Alloc = Alloc(v4: Prefix, v6: Prefix, used: set<Addr>, next: Addr)

  /** The overlay defaults, 100.96.0.0/11 and fdab:3f19::/48. */
  const DEFAULT_V4: Prefix := Prefix(V4(0x6460_0000), 11)
  const DEFAULT_V6: Prefix := Prefix(V6(0xfdab_3f19_0000_0000_0000_0000_0000_0000), 48)

  predicate GoodV4(p: Prefix) {
    p.addr.V4? && p.bits <= 30 && IsMasked(p) && p.addr.n + Size(p) <= 0x1_0000_0000
  }

  predicate ValidAlloc(a: Alloc) {
    && GoodV4(a.v4) && a.v6.addr.V6? && IsMasked(a.v6)
    && a.next.V4? && a.v4.addr.n < a.next.n < a.v4.addr.n + Size(a.v4)
  }

  /** Neither the network nor the broadcast address of the prefix. */
  predicate Usable(p: Prefix, c: Addr)
    requires p.bits <= Width(p.addr)
  {
    c.V4? && p.addr.V4? && p.addr.n < c.n < p.addr.n + Size(p) - 1
  }

  /** A prefix of at most 30 bits spans at least four addresses. */
  lemma SizeAtLeastFour(p: Prefix)
    requires p.addr.V4? && p.bits <= 30
    ensures Size(p) >= 4
  {
    Pow2Monotone(2, 32 - p.bits);
    assert Pow2(2) == 4;
  }

  // ---------------------------------------------------------------- construction

  function NewAlloc(v4: Option<Prefix>, v6: Option<Prefix>): Result<Alloc>
    requires v4.Some? ==> ValidPrefix(v4.value)
    requires v6.Some? ==> ValidPrefix(v6.value)
  {
    var p4 := if v4.None? then DEFAULT_V4 else v4.value;
    var p6 := if v6.None? then DEFAULT_V6 else v6.value;
    if !p4.addr.V4? then Err("not an IPv4 prefix")
    else if !p6.addr.V6? || Is4In6(p6.addr) then Err("not an IPv6 prefix")
    else if p4.bits > 30 then Err("IPv4 prefix too small")
    else Ok(Alloc(Masked(p4), Masked(p6), {}, V4(Masked(p4).addr.n + 1)))
  }

  lemma NewAllocValid(v4: Option<Prefix>, v6: Option<Prefix>)
    requires v4.Some? ==> ValidPrefix(v4.value)
    requires v6.Some? ==> ValidPrefix(v6.value)
    ensures NewAlloc(v4, v6).Ok? ==> ValidAlloc(NewAlloc(v4, v6).value) && NewAlloc(v4, v6).value.used == {}
  {
    var p4 := if v4.None? then DEFAULT_V4 else v4.value;
    var p6 := if v6.None? then DEFAULT_V6 else v6.value;
    if NewAlloc(v4, v6).Ok? {
      Pow2Is32();
      assert ValidPrefix(p4);
      MaskedIsMasked(p4);
      MaskedFits(p4);
      MaskedIsMasked(p6);
      SizeAtLeastFour(Masked(p4));
    }
  }

  lemma Pow2Is32()
    ensures Pow2(32) == 0x1_0000_0000
  {
    Pow2OfBytes(4);
  }

  // ---------------------------------------------------------------- broadcast address

  /** b |= 1 << j on a byte. */
  function SetBit(b: byte, j: nat): int
    requires j < 8
  {
    if b / Pow2(j) % 2 == 1 then b else b + Pow2(j)
  }

  /** With the bits below j all set and bit j clear, setting bit j extends the run of ones. */
  lemma SetBitExtends(b: byte, j: nat)
    requires j < 8 && b % Pow2(j + 1) == 0
    ensures b + Pow2(j) - 1 < 256
    ensures SetBit(b + Pow2(j) - 1, j) == b + Pow2(j + 1) - 1 < 256
  {
    Pow2Add(j + 1, 7 - j);
    assert Pow2(8) == 256;
    RoomAbove(b, 2 * Pow2(j), Pow2(7 - j));
    EvenQuotient(b, Pow2(j));
  }

  /** A multiple of d below c * d leaves room for d more. */
  lemma RoomAbove(b: nat, d: nat, c: nat)
    requires d > 0 && b % d == 0 && b < d * c
    ensures b + d <= d * c
  {
    Division(b, d);
    QuotientBelow(b, d, c);
  }

  lemma EvenQuotient(b: nat, p: nat)
    requires p > 0 && b % (2 * p) == 0
    ensures (b + p - 1) / p % 2 == 0
  {
    var u := b / (2 * p);
    Division(b, 2 * p);
    MulAssoc(u, 2, p);
    DivMod(b + p - 1, p, u * 2, p - 1);
  }

  lemma Rearrange(u: nat, a: nat, b: nat, c: nat)
    ensures u * (a * b * c) == b * (u * c) * a
  {
  }

  lemma Pow2Split(h: nat, m: nat, c: nat)
    requires 8 * m + c <= h
    ensures Pow2(h) == Pow256(m) * Pow2(c) * Pow2(h - 8 * m - c)
  {
    Pow2OfBytes(m);
    Pow2Add(8 * m, c);
    Pow2Add(8 * m + c, h - 8 * m - c);
  }

  /** Byte m (from the low end) of a multiple of 2^h is a multiple of 2^c, if 8m + c <= h. */
  lemma MaskedByte(n: nat, u: nat, h: nat, m: nat, c: nat)
    requires c <= 8 && 8 * m + c <= h && n == u * Pow2(h)
    ensures n / Pow256(m) % 256 % Pow2(c) == 0
  {
    var t := ByteFactor(n, u, h, m, c);
    MultipleOfByte(n / Pow256(m), t, c);
  }

  lemma ByteFactor(n: nat, u: nat, h: nat, m: nat, c: nat) returns (t: nat)
    requires 8 * m + c <= h && n == u * Pow2(h)
    ensures n / Pow256(m) == Pow2(c) * t
  {
    var e := Pow2(h - 8 * m - c);
    Pow2Split(h, m, c);
    t := FactorOut(n, u, Pow2(h), Pow256(m), Pow2(c), e);
  }

  lemma FactorOut(n: nat, u: nat, x: nat, a: nat, b: nat, e: nat) returns (t: nat)
    requires a > 0 && x == a * b * e && n == u * x
    ensures n / a == b * t
  {
    t := u * e;
    Rearrange(u, a, b, e);
    DivideOut(n, b * t, a);
  }

  lemma MultipleOfByte(y: nat, t: nat, c: nat)
    requires c <= 8 && y == Pow2(c) * t
    ensures y % 256 % Pow2(c) == 0
  {
    assert Pow2(c) * Pow2(8 - c) == 256 by { Pow2Add(c, 8 - c); assert Pow2(8) == 256; }
    ModOfMultiple(Pow2(c), t, Pow2(8 - c));
    MultipleMod(t % Pow2(8 - c), Pow2(c));
  }

  lemma {:induction false} ToBytesAt(n: nat, k: nat, i: nat)
    requires i < k
    ensures ToBytes(n, k)[k - 1 - i] == n / Pow256(i) % 256
  {
    if i > 0 {
      ToBytesAt(n / 256, k - 1, i - 1);
      DivDiv(n, 256, Pow256(i - 1));
    }
  }

  /** What the bit loop has done to the bytes of a masked address after i turns. */
  ghost predicate Filled(orig: seq<byte>, n: nat, i: nat, b: seq<byte>)
    requires |orig| == 4
  {
    && |b| == 4
    && BigEndian(b) == n + Pow2(i) - 1
    && (forall k :: 0 <= k < 4 && k < 3 - i / 8 ==> b[k] == orig[k])
    && (i < 32 ==> b[3 - i / 8] == orig[3 - i / 8] + Pow2(i % 8) - 1)
  }

  lemma BitIsClear(n: nat, h: nat, i: nat)
    requires n % Pow2(h) == 0 && i < h <= 32
    ensures ToBytes(n, 4)[3 - i / 8] % Pow2(i % 8 + 1) == 0
  {
    ToBytesAt(n, 4, i / 8);
    Division(n, Pow2(h));
    MaskedByte(n, n / Pow2(h), h, i / 8, i % 8 + 1);
  }

  lemma FillValue(i: nat, b: seq<byte>, v: byte)
    requires |b| == 4 && i < 32 && v == b[3 - i / 8] + Pow2(i % 8)
    ensures BigEndian(b[3 - i / 8 := v]) == BigEndian(b) + Pow2(i)
  {
    BigEndianUpdate(b, 3 - i / 8, v);
    Pow2OfBytes(i / 8);
    Pow2Add(i % 8, 8 * (i / 8));
  }

  lemma FillOneMore(orig: seq<byte>, n: nat, i: nat, b: seq<byte>)
    requires |orig| == 4 && i < 32 && orig[3 - i / 8] % Pow2(i % 8 + 1) == 0 && Filled(orig, n, i, b)
    ensures SetBit(b[3 - i / 8], i % 8) < 256
    ensures Filled(orig, n, i + 1, b[3 - i / 8 := SetBit(b[3 - i / 8], i % 8)])
  {
    var m, j := i / 8, i % 8;
    SetBitExtends(orig[3 - m], j);
    FillValue(i, b, SetBit(b[3 - m], j));
    assert if j < 7 then (i + 1) / 8 == m && (i + 1) % 8 == j + 1 else (i + 1) / 8 == m + 1 && (i + 1) % 8 == 0;
  }

  /** lastAddr: the bit loop computes the highest address of the prefix. */
  method LastAddr(p: Prefix) returns (r: Addr)
    requires GoodV4(p)
    ensures r == V4(p.addr.n + Size(p) - 1)
  {
    var b := new byte[4];
    var orig := ToBytes(p.addr.n, 4);
    forall k | 0 <= k < 4 { b[k] := orig[k]; }
    assert b[..] == orig;
    BigEndianRoundTrip(p.addr.n, 4);
    var hostBits := 32 - p.bits;
    var i := 0;
    while i < hostBits
      invariant 0 <= i <= hostBits && Filled(orig, p.addr.n, i, b[..])
    {
      BitIsClear(p.addr.n, hostBits, i);
      FillOneMore(orig, p.addr.n, i, b[..]);
      ghost var before := b[..];
      b[3 - i / 8] := SetBit(b[3 - i / 8], i % 8);
      assert b[..] == before[3 - i / 8 := b[3 - i / 8]];
      i := i + 1;
    }
    r := V4(BigEndian(b[..]));
  }

  // ---------------------------------------------------------------- IPv4 scan

  /** netip.Addr.Next on IPv4: no successor past 255.255.255.255. */
  function Successor(c: Addr): Option<Addr> {
    if c.n + 1 < 0x1_0000_0000 then Some(V4(c.n + 1)) else None
  }

  /** The next candidate, wrapping past the end to the first host address. */
  function Advance(p: Prefix, c: Addr): Addr
    requires p.bits <= Width(p.addr)
  {
    var n := Successor(c);
    if n.None? || !Contains(p, n.value) then V4(p.addr.n + 1) else n.value
  }

  /** How many candidates lie from `from` up to c in scan order. */
  function Ahead(p: Prefix, from: Addr, c: Addr): int
    requires p.bits <= Width(p.addr)
  {
    if from.n <= c.n then c.n - from.n else c.n - from.n + Size(p) - 1
  }

  /** Every address the cursor may rest on: all but the network address. */
  predicate Candidate(p: Prefix, c: Addr)
    requires p.bits <= Width(p.addr)
  {
    c.V4? && p.addr.n < c.n < p.addr.n + Size(p)
  }

  lemma AdvanceStays(p: Prefix, c: Addr)
    requires GoodV4(p) && Candidate(p, c)
    ensures Advance(p, c) == if c.n + 1 < p.addr.n + Size(p) then V4(c.n + 1) else V4(p.addr.n + 1)
    ensures Candidate(p, Advance(p, c))
  {
    SizeAtLeastFour(p);
    ContainsIsRange(p, V4(c.n + 1));
  }

  /** Advancing the origin brings every other candidate one closer. */
  lemma AheadAdvances(p: Prefix, c: Addr, d: Addr)
    requires GoodV4(p) && Candidate(p, c) && Candidate(p, d)
    ensures 0 <= Ahead(p, c, d) < Size(p) - 1
    ensures d != c ==> Ahead(p, Advance(p, c), d) == Ahead(p, c, d) - 1
    ensures Ahead(p, c, d) == 0 <==> d == c
  {
    AdvanceStays(p, c);
  }

  /** The scan of AllocateV4 with `left` candidates still to look at. */
  function Scan(a: Alloc, c: Addr, left: nat): Option<Addr>
    requires ValidAlloc(a) && Candidate(a.v4, c)
    decreases left
  {
    if left == 0 then None
    else if c !in a.used && Usable(a.v4, c) then Some(c)
    else
      AdvanceStays(a.v4, c);
      Scan(a, Advance(a.v4, c), left - 1)
  }

  /** What a scan finds is the first free usable address from c on; a scan that finds
      nothing has seen every address it was allowed to look at taken. */
  lemma {:induction false} ScanFindsFirst(a: Alloc, c: Addr, left: nat)
    requires ValidAlloc(a) && Candidate(a.v4, c) && left <= Size(a.v4) - 1
    ensures var r := Scan(a, c, left);
            && (r.Some? ==>
                  && Usable(a.v4, r.value) && r.value !in a.used && Ahead(a.v4, c, r.value) < left
                  && forall d :: Usable(a.v4, d) && Ahead(a.v4, c, d) < Ahead(a.v4, c, r.value) ==> d in a.used)
            && (r.None? ==> forall d :: Usable(a.v4, d) && Ahead(a.v4, c, d) < left ==> d in a.used)
    decreases left
  {
    forall d | Usable(a.v4, d) ensures 0 <= Ahead(a.v4, c, d) && (Ahead(a.v4, c, d) == 0 <==> d == c) {
      AheadAdvances(a.v4, c, d);
    }
    if left > 0 && !(c !in a.used && Usable(a.v4, c)) {
      AdvanceStays(a.v4, c);
      ScanFindsFirst(a, Advance(a.v4, c), left - 1);
      forall d | Usable(a.v4, d) && d != c
        ensures Ahead(a.v4, Advance(a.v4, c), d) == Ahead(a.v4, c, d) - 1
      {
        AheadAdvances(a.v4, c, d);
      }
    }
  }

  function Allocate(a: Alloc): Option<Addr>
    requires ValidAlloc(a)
  {
    Scan(a, a.next, Size(a.v4) - 1)
  }

  /** The allocator after a successful AllocateV4 that returned c. */
  function Take(a: Alloc, c: Addr): Alloc
    requires ValidAlloc(a)
  {
    a.(used := a.used + {c}, next := Advance(a.v4, c))
  }

  /** AllocateV4 hands out the first free usable address in cyclic order from the
      cursor, and fails exactly when every usable address is taken. */
  lemma AllocateIsFirstFree(a: Alloc)
    requires ValidAlloc(a)
    ensures Allocate(a).None? <==> forall d :: Usable(a.v4, d) ==> d in a.used
    ensures var r := Allocate(a);
            r.Some? ==>
              && Usable(a.v4, r.value) && r.value !in a.used && ValidAlloc(Take(a, r.value))
              && forall d :: Usable(a.v4, d) && Ahead(a.v4, a.next, d) < Ahead(a.v4, a.next, r.value) ==> d in a.used
  {
    SizeAtLeastFour(a.v4);
    ScanFindsFirst(a, a.next, Size(a.v4) - 1);
    forall d | Usable(a.v4, d) ensures Ahead(a.v4, a.next, d) < Size(a.v4) - 1 {
      AheadAdvances(a.v4, a.next, d);
    }
    var r := Allocate(a);
    if r.Some? { AdvanceStays(a.v4, r.value); }
  }

  /** New takes an IPv4 prefix with room for hosts and a proper IPv6 prefix. */
  lemma NewAllocIff(v4: Prefix, v6: Prefix)
    requires ValidPrefix(v4) && ValidPrefix(v6)
    ensures NewAlloc(Some(v4), Some(v6)).Ok?
       <==> v4.addr.V4? && v4.bits <= 30 && v6.addr.V6? && v6.addr.n / 0x1_0000_0000 != 0xffff
  {
  }

  /** A new allocator hands out the first host address of its prefix first. */
  lemma FirstAddress(v4: Prefix, v6: Prefix)
    requires ValidPrefix(v4) && ValidPrefix(v6) && NewAlloc(Some(v4), Some(v6)).Ok?
    ensures ValidAlloc(NewAlloc(Some(v4), Some(v6)).value)
    ensures Allocate(NewAlloc(Some(v4), Some(v6)).value) == Some(V4(Masked(v4).addr.n + 1))
  {
    var a := NewAlloc(Some(v4), Some(v6)).value;
    NewAllocValid(Some(v4), Some(v6));
    SizeAtLeastFour(a.v4);
    AllocateIsFirstFree(a);
    assert Usable(a.v4, a.next) && Ahead(a.v4, a.next, a.next) == 0;
    AheadAdvances(a.v4, a.next, Allocate(a).value);
  }

  function HostRange(base: nat, count: nat): set<Addr> {
    set n: nat | base < n <= base + count :: V4(n)
  }

  lemma {:induction false} HostRangeSize(base: nat, count: nat)
    ensures |HostRange(base, count)| == count
  {
    if count > 0 {
      HostRangeSize(base, count - 1);
      assert HostRange(base, count) == HostRange(base, count - 1) + {V4(base + count)};
    }
  }

  /** A prefix with h host bits has exactly 2^h - 2 usable addresses. */
  lemma UsableCount(p: Prefix)
    requires GoodV4(p)
    ensures |HostRange(p.addr.n, Size(p) - 2)| == Pow2(32 - p.bits) - 2
    ensures forall c :: Usable(p, c) <==> c in HostRange(p.addr.n, Size(p) - 2)
  {
    SizeAtLeastFour(p);
    HostRangeSize(p.addr.n, Size(p) - 2);
  }

  // ---------------------------------------------------------------- IPv6 derivation

  /** 2^64. */
  const TWO_TO_64: nat := 0x1_0000_0000_0000_0000

  lemma Pow256Is64()
    ensures Pow256(8) == TWO_TO_64
  {
  }

  /** The 16 bytes of the prefix address with the minimal bytes of the ID copied
      over the low ones. */
  function Overlay(v6: Prefix, id: nat): (b: seq<byte>)
    requires id < TWO_TO_64
    ensures |b| == 16
  {
    var low := MinimalBytes(id);
    Pow256Is64();
    MinimalBytesValue(id, 8);
    ToBytes(v6.addr.n, 16)[..16 - |low|] + low
  }

  function DeriveV6(v6: Prefix, id: nat): Result<Addr>
    requires v6.addr.V6? && v6.bits <= 128 && id < TWO_TO_64
  {
    if id == 0 then Err("node ID must be nonzero")
    else
      var addr := V6(BigEndian(Overlay(v6, id)));
      if !Contains(v6, addr) then Err("node ID overflows prefix") else Ok(addr)
  }

  lemma {:induction false} ToBytesPrefix(n: nat, k: nat, m: nat)
    requires m <= k
    ensures ToBytes(n, k)[..k - m] == ToBytes(n / Pow256(m), k - m)
  {
    if m > 0 {
      ToBytesPrefix(n / 256, k - 1, m - 1);
      DivDiv(n, 256, Pow256(m - 1));
      assert ToBytes(n, k)[..k - m] == ToBytes(n / 256, k - 1)[..k - m];
    }
  }

  lemma HighBytes(n: nat, k: nat, m: nat)
    requires m <= k && n < Pow256(k)
    ensures BigEndian(ToBytes(n, k)[..k - m]) == n / Pow256(m)
  {
    Division(n, Pow256(m));
    assert n / Pow256(m) < Pow256(k - m) by {
      Pow256Add(k - m, m);
      QuotientBelow(n, Pow256(m), Pow256(k - m));
    }
    ToBytesPrefix(n, k, m);
    BigEndianRoundTrip(n / Pow256(m), k - m);
  }

  /** Replacing the low bytes of a multiple of 256^m, m of them, adds the new value. */
  lemma CopyAdds(n: nat, k: nat, low: seq<byte>)
    requires |low| <= k && n < Pow256(k) && n % Pow256(|low|) == 0
    ensures BigEndian(ToBytes(n, k)[..k - |low|] + low) == n + BigEndian(low)
  {
    var hi, d := ToBytes(n, k)[..k - |low|], Pow256(|low|);
    var q := n / d;
    assert BigEndian(hi) == q by { HighBytes(n, k, |low|); }
    assert n == q * d by { Division(n, d); }
    assert BigEndian(hi + low) == q * d + BigEndian(low) by { BigEndianConcat(hi, low); }
  }

  lemma MultipleOfSmallerPower(n: nat, a: nat, b: nat)
    requires a <= b && n % Pow2(b) == 0
    ensures n % Pow2(a) == 0
  {
    var u, c := n / Pow2(b), Pow2(b - a);
    assert n == u * Pow2(b);
    Pow2Add(b - a, a);
    MulAssoc(u, c, Pow2(a));
    MultipleMod(u * c, Pow2(a));
  }

  /** For a masked prefix of at most 64 bits, every nonzero 64-bit ID gets an address
      inside the prefix: the prefix address plus the ID. */
  lemma DeriveV6Correct(v6: Prefix, id: nat)
    requires v6.addr.V6? && v6.bits <= 64 && IsMasked(v6) && v6.addr.n < Pow256(16) && 0 < id < TWO_TO_64
    ensures DeriveV6(v6, id) == Ok(V6(v6.addr.n + id)) && Contains(v6, V6(v6.addr.n + id))
  {
    OverlayAdds(v6, id);
    DerivesTo(v6, id, V6(v6.addr.n + id));
  }

  lemma DerivesTo(v6: Prefix, id: nat, a: Addr)
    requires v6.addr.V6? && v6.bits <= 64 && IsMasked(v6) && 0 < id < TWO_TO_64
    requires a == V6(v6.addr.n + id) && BigEndian(Overlay(v6, id)) == a.n
    ensures DeriveV6(v6, id) == Ok(a) && Contains(v6, a)
  {
    DerivedInside(v6, id);
  }

  lemma DerivedInside(v6: Prefix, id: nat)
    requires v6.addr.V6? && v6.bits <= 64 && IsMasked(v6) && id < TWO_TO_64
    ensures Contains(v6, V6(v6.addr.n + id))
  {
    IdFits(v6, id);
    ContainsIsRange(v6, V6(v6.addr.n + id));
  }

  lemma IdFits(v6: Prefix, id: nat)
    requires v6.addr.V6? && v6.bits <= 64 && IsMasked(v6) && id < TWO_TO_64
    ensures id < Size(v6)
  {
    Pow2OfBytes(8);
    Pow256Is64();
    Pow2Monotone(64, 128 - v6.bits);
  }

  /** The low 64 bits of the address are the ID. */
  lemma LowBitsAreId(v6: Prefix, id: nat)
    requires v6.addr.V6? && v6.bits <= 64 && IsMasked(v6) && id < TWO_TO_64
    ensures (v6.addr.n + id) % TWO_TO_64 == id
  {
    Pow2OfBytes(8);
    Pow256Is64();
    LowBits(v6.addr.n, id, 64, 128 - v6.bits);
  }

  lemma LowBits(n: nat, id: nat, m: nat, h: nat)
    requires m <= h && n % Pow2(h) == 0 && id < Pow2(m)
    ensures id < Pow2(h) && (n + id) % Pow2(m) == id
  {
    Pow2Monotone(m, h);
    MultipleOfSmallerPower(n, m, h);
    var q := n / Pow2(m);
    assert n == q * Pow2(m);
    DivMod(n + id, Pow2(m), q, id);
  }

  lemma OverlayAdds(v6: Prefix, id: nat)
    requires v6.addr.V6? && v6.bits <= 64 && IsMasked(v6) && v6.addr.n < Pow256(16) && id < TWO_TO_64
    ensures BigEndian(Overlay(v6, id)) == v6.addr.n + id
  {
    var low := MinimalBytes(id);
    Pow256Is64();
    MinimalBytesValue(id, 8);
    Pow2OfBytes(|low|);
    MultipleOfSmallerPower(v6.addr.n, 8 * |low|, 128 - v6.bits);
    CopyAdds(v6.addr.n, 16, low);
  }

  /** Hence distinct nodes never share an IPv6 address. */
  lemma DeriveV6Injective(v6: Prefix, a: nat, b: nat)
    requires v6.addr.V6? && v6.bits <= 64 && IsMasked(v6) && v6.addr.n < Pow256(16)
    requires 0 < a < TWO_TO_64 && 0 < b < TWO_TO_64 && DeriveV6(v6, a) == DeriveV6(v6, b)
    ensures a == b
  {
    DeriveV6Correct(v6, a);
    DeriveV6Correct(v6, b);
  }

  // ---------------------------------------------------------------- the allocator object

  class Allocator {
    const v4: Prefix
    const v6: Prefix
    var used: set<Addr>
    var next: Addr

    ghost function View(): Alloc
      reads this
    {
      Alloc(v4, v6, used, next)
    }

    ghost predicate Valid()
      reads this
    {
      ValidAlloc(View())
    }

    constructor (a: Alloc)
      requires ValidAlloc(a)
      ensures Valid() && View() == a
    {
      v4, v6, used, next := a.v4, a.v6, a.used, a.next;
    }

    method MarkUsed(addrs: seq<Addr>)
      requires Valid()
      modifies this`used
      ensures Valid() && used == old(used) + (set i | 0 <= i < |addrs| :: Unmap(addrs[i]))
    {
      var i := 0;
      while i < |addrs|
        invariant 0 <= i <= |addrs| && Valid()
        invariant used == old(used) + (set j | 0 <= j < i :: Unmap(addrs[j]))
      {
        used := used + {Unmap(addrs[i])};
        i := i + 1;
      }
    }

    method IsReservedV4(c: Addr) returns (b: bool)
      requires Valid() && Candidate(v4, c)
      ensures b <==> !Usable(v4, c)
    {
      if c == v4.addr { return true; }
      var last := LastAddr(v4);
      return c == last;
    }

    /** The scan loop: on success only the returned address and the cursor change,
        on failure nothing does. */
    method AllocateV4() returns (r: Option<Addr>)
      requires Valid()
      modifies this
      ensures Valid() && r == Allocate(old(View()))
      ensures View() == if r.Some? then Take(old(View()), r.value) else old(View())
    {
      ghost var a := View();
      var start := next;
      ghost var left := Size(v4) - 1;
      AllocateIsFirstFree(a);
      SizeAtLeastFour(v4);
      while true
        invariant Valid() && used == old(used) && 0 < left <= Size(v4) - 1
        invariant Scan(a, next, left) == Allocate(a)
        invariant Ahead(v4, start, next) == Size(v4) - 1 - left
        decreases left
      {
        var c := next;
        AdvanceStays(v4, c);
        AheadAdvances(v4, start, c);
        next := Advance(v4, c);
        var reserved := IsReservedV4(c);
        if c !in used && !reserved {
          used := used + {c};
          return Some(c);
        }
        left := left - 1;
        if next == start { return None; }
      }
    }

    method Release(addr: Addr)
      requires Valid()
      modifies this`used
      ensures Valid() && used == old(used) - {Unmap(addr)}
    {
      used := used - {Unmap(addr)};
    }

    /** The 16 address bytes with the ID copied over the low ones. */
    method AllocateV6For(nodeID: nat) returns (r: Result<Addr>)
      requires Valid() && nodeID < TWO_TO_64
      ensures r == DeriveV6(v6, nodeID)
    {
      if nodeID == 0 { return Err("node ID must be nonzero"); }
      var base := CopyId(v6, nodeID);
      var addr := V6(BigEndian(base[..]));
      if !Contains(v6, addr) { return Err("node ID overflows prefix"); }
      return Ok(addr);
    }
  }

  method CopyId(v6: Prefix, nodeID: nat) returns (base: array<byte>)
    requires nodeID < TWO_TO_64
    ensures fresh(base) && base[..] == Overlay(v6, nodeID)
  {
    var prefix, id := ToBytes(v6.addr.n, 16), MinimalBytes(nodeID);
    base := new byte[16];
    forall k | 0 <= k < 16 { base[k] := prefix[k]; }
    Pow256Is64();
    MinimalBytesValue(nodeID, 8);
    var at := 16 - |id|;
    var i := 0;
    while i < |id|
      invariant 0 <= i <= |id|
      invariant forall k :: 0 <= k < at ==> base[k] == prefix[k]
      invariant forall k :: 0 <= k < i ==> base[at + k] == id[k]
    {
      base[at + i] := id[i];
      i := i + 1;
    }
    assert base[..] == prefix[..at] + id;
  }
}
