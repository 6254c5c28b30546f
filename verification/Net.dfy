/** IP addresses and prefixes as net/netip gives them, over integers. */
module Net {
  import opened Arith
  import opened Numerals

  function Pow2(n: nat): (r: nat)
    ensures r > 0
  {
    if n == 0 then 1 else 2 * Pow2(n - 1)
  }

  lemma {:induction false} Pow2Add(a: nat, b: nat)
    ensures Pow2(a + b) == Pow2(a) * Pow2(b)
  {
    if a > 0 { Pow2Add(a - 1, b); }
  }

  lemma {:induction false} Pow2Monotone(a: nat, b: nat)
    requires a <= b
    ensures Pow2(a) <= Pow2(b)
  {
    if a < b { Pow2Monotone(a, b - 1); }
  }

  lemma {:induction false} Pow2OfBytes(k: nat)
    ensures Pow2(8 * k) == Pow256(k)
  {
    if k > 0 {
      Pow2OfBytes(k - 1);
      Pow2Add(8, 8 * (k - 1));
      assert Pow2(8) == 256;
    }
  }

  lemma Pow256Add(a: nat, b: nat)
    ensures Pow256(a + b) == Pow256(a) * Pow256(b)
  {
    Pow2OfBytes(a + b);
    Pow2OfBytes(a);
    Pow2OfBytes(b);
    Pow2Add(8 * a, 8 * b);
  }

  /** Writing one byte changes the big-endian value by that byte's weight. */
  lemma {:induction false} BigEndianUpdate(s: seq<byte>, k: nat, v: byte)
    requires k < |s|
    ensures BigEndian(s[k := v]) == BigEndian(s) + (v - s[k]) * Pow256(|s| - 1 - k)
  {
    var t, m := s[k := v], |s| - 1;
    if k == m {
      assert t[..m] == s[..m];
    } else {
      assert t[..m] == s[..m][k := v];
      BigEndianUpdate(s[..m], k, v);
      var d: int, w := v - s[k], Pow256(m - 1 - k);
      assert d * w * 256 == d * (256 * w);
    }
  }

  datatype Addr = V4(n: nat) | V6(n: nat)

  function Width(a: Addr): nat { if a.V4? then 32 else 128 }

  predicate ValidAddr(a: Addr) { a.n < Pow2(Width(a)) }

  /** ::ffff:a.b.c.d */
  predicate Is4In6(a: Addr) { a.V6? && a.n / 0x1_0000_0000 == 0xffff }

  function Unmap(a: Addr): Addr {
    if Is4In6(a) then V4(a.n % 0x1_0000_0000) else a
  }

  datatype Prefix = Prefix(addr: Addr, bits: nat)

  predicate ValidPrefix(p: Prefix) { ValidAddr(p.addr) && p.bits <= Width(p.addr) }

  /** How many addresses a prefix spans. */
  function Size(p: Prefix): (r: nat)
    requires p.bits <= Width(p.addr)
    ensures r > 0
  {
    Pow2(Width(p.addr) - p.bits)
  }

  function WithValue(a: Addr, n: nat): Addr { if a.V4? then V4(n) else V6(n) }

  function Masked(p: Prefix): Prefix
    requires p.bits <= Width(p.addr)
  {
    Division(p.addr.n, Size(p));
    Prefix(WithValue(p.addr, p.addr.n / Size(p) * Size(p)), p.bits)
  }

  predicate IsMasked(p: Prefix) {
    p.bits <= Width(p.addr) && p.addr.n % Size(p) == 0
  }

  /** Same family and same leading bits. */
  predicate Contains(p: Prefix, a: Addr)
    requires p.bits <= Width(p.addr)
  {
    p.addr.V4? == a.V4? && p.addr.n / Size(p) == a.n / Size(p)
  }

  /** A masked prefix contains exactly the Size(p) addresses from its own on. */
  lemma ContainsIsRange(p: Prefix, a: Addr)
    requires IsMasked(p)
    ensures Contains(p, a) <==> p.addr.V4? == a.V4? && p.addr.n <= a.n < p.addr.n + Size(p)
  {
    var d := Size(p);
    var q := p.addr.n / d;
    assert p.addr.n == q * d;
    if q * d <= a.n < q * d + d { DivMod(a.n, d, q, a.n - q * d); }
    if a.n / d == q { assert a.n == q * d + a.n % d; }
  }

  lemma MaskedIsMasked(p: Prefix)
    requires p.bits <= Width(p.addr)
    ensures IsMasked(Masked(p)) && Contains(Masked(p), p.addr)
  {
    var d := Size(p);
    assert Size(Masked(p)) == d;
    MultipleMod(p.addr.n / d, d);
  }

  /** A valid prefix ends inside the address space. */
  lemma MaskedFits(p: Prefix)
    requires ValidPrefix(p)
    ensures Masked(p).addr.n + Size(p) <= Pow2(Width(p.addr))
  {
    var d, w := Size(p), Width(p.addr);
    assert Pow2(w) == Pow2(p.bits) * d by { Pow2Add(p.bits, w - p.bits); }
    QuotientBelow(p.addr.n, d, Pow2(p.bits));
  }

  /** A full-length prefix contains its own address and nothing else. */
  lemma HostPrefix(p: Prefix, a: Addr)
    requires p.bits == Width(p.addr)
    ensures Contains(p, a) <==> p.addr == a
  {
    assert Pow2(0) == 1;
  }
}
