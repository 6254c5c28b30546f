/** Decimal text, hexadecimal text and big-endian bytes, each with its inverse. */
module Numerals {
  import opened Arith
  import opened Prelude

  type byte = n: int | 0 <= n < 256

  // ---------------------------------------------------------------- decimal text

  predicate IsDigit(c: char) { '0' <= c <= '9' }

  predicate IsDigits(s: string) { forall c :: c in s ==> IsDigit(c) }

  function Digit(d: nat): char
    requires d < 10
  {
    '0' + d as char
  }

  function DigitValue(c: char): nat
    requires IsDigit(c)
  {
    (c - '0') as nat
  }

  /** Canonical decimal rendering, as %d prints a non-negative integer. */
  function Decimal(n: nat): string {
    if n < 10 then [Digit(n)] else Decimal(n / 10) + [Digit(n % 10)]
  }

  function DecimalValue(s: string): nat
    requires IsDigits(s)
  {
    if s == [] then 0
    else
      assert s[|s| - 1] in s && IsDigits(s[..|s| - 1]);
      DecimalValue(s[..|s| - 1]) * 10 + DigitValue(s[|s| - 1])
  }

  lemma {:induction false} DecimalRoundTrip(n: nat)
    ensures Decimal(n) != [] && IsDigits(Decimal(n)) && DecimalValue(Decimal(n)) == n
  {
    if n >= 10 {
      DecimalRoundTrip(n / 10);
      var s := Decimal(n);
      assert s[..|s| - 1] == Decimal(n / 10);
    }
  }

  lemma DecimalInjective(a: nat, b: nat)
    requires Decimal(a) == Decimal(b)
    ensures a == b
  {
    DecimalRoundTrip(a);
    DecimalRoundTrip(b);
  }

  // ---------------------------------------------------------------- big-endian bytes

  function Pow256(k: nat): (r: nat)
    ensures r > 0
  {
    if k == 0 then 1 else 256 * Pow256(k - 1)
  }

  function BigEndian(s: seq<byte>): nat {
    if s == [] then 0 else BigEndian(s[..|s| - 1]) * 256 + s[|s| - 1]
  }

  /** The k low bytes of n, most significant first. */
  function ToBytes(n: nat, k: nat): (s: seq<byte>)
    ensures |s| == k
  {
    if k == 0 then [] else ToBytes(n / 256, k - 1) + [n % 256]
  }

  /** n without leading zero bytes, as big.Int.Bytes returns it. */
  function MinimalBytes(n: nat): seq<byte> {
    if n == 0 then [] else MinimalBytes(n / 256) + [n % 256]
  }

  lemma {:induction false} BigEndianRoundTrip(n: nat, k: nat)
    requires n < Pow256(k)
    ensures BigEndian(ToBytes(n, k)) == n
  {
    if k > 0 {
      BigEndianRoundTrip(n / 256, k - 1);
      var s := ToBytes(n, k);
      assert s[..k - 1] == ToBytes(n / 256, k - 1);
    }
  }

  lemma {:induction false} BigEndianConcat(a: seq<byte>, b: seq<byte>)
    ensures BigEndian(a + b) == BigEndian(a) * Pow256(|b|) + BigEndian(b)
  {
    if b == [] {
      assert a + b == a;
    } else {
      var b' := b[..|b| - 1];
      assert (a + b)[..|a + b| - 1] == a + b';
      BigEndianConcat(a, b');
      MulSwap(BigEndian(a), 256, Pow256(|b'|));
    }
  }

  lemma {:induction false} MinimalBytesValue(n: nat, k: nat)
    requires n < Pow256(k)
    ensures |MinimalBytes(n)| <= k && BigEndian(MinimalBytes(n)) == n
  {
    if n > 0 {
      MinimalBytesValue(n / 256, k - 1);
      var s := MinimalBytes(n);
      assert s[..|s| - 1] == MinimalBytes(n / 256);
    }
  }

  // ---------------------------------------------------------------- hexadecimal text

  function HexDigit(d: nat): char
    requires d < 16
  {
    if d < 10 then '0' + d as char else 'a' + (d - 10) as char
  }

  /** hex.DecodeString accepts both cases. */
  function HexValue(c: char): (r: Option<nat>)
    ensures r.Some? ==> r.value < 16
  {
    if '0' <= c <= '9' then Some((c - '0') as nat)
    else if 'a' <= c <= 'f' then Some((c - 'a') as nat + 10)
    else if 'A' <= c <= 'F' then Some((c - 'A') as nat + 10)
    else None
  }

  function HexEncode(s: seq<byte>): string {
    if s == [] then "" else [HexDigit(s[0] / 16), HexDigit(s[0] % 16)] + HexEncode(s[1..])
  }

  function HexDecode(t: string): Option<seq<byte>> {
    if t == "" then Some([])
    else if |t| == 1 then None
    else
      var hi, lo, rest := HexValue(t[0]), HexValue(t[1]), HexDecode(t[2..]);
      if hi.None? || lo.None? || rest.None? then None
      else Some([hi.value * 16 + lo.value] + rest.value)
  }

  lemma {:induction false} HexRoundTrip(s: seq<byte>)
    ensures |HexEncode(s)| == 2 * |s| && HexDecode(HexEncode(s)) == Some(s)
  {
    if s != [] {
      HexRoundTrip(s[1..]);
      var t := HexEncode(s);
      assert t[2..] == HexEncode(s[1..]);
      assert [s[0]] + s[1..] == s;
    }
  }

  lemma {:induction false} HexLength(t: string)
    requires HexDecode(t).Some?
    ensures |t| == 2 * |HexDecode(t).value|
  {
    if t != "" { HexLength(t[2..]); }
  }
}
