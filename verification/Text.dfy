/** Text helpers the Go standard library supplies. */
module Text {
  /** unicode.IsSpace. */
  predicate IsSpace(c: char) {
    || '\t' <= c <= '\r' || c == ' ' || c == '\U{85}' || c == '\U{A0}' || c == '\U{1680}'
    || '\U{2000}' <= c <= '\U{200A}' || c == '\U{2028}' || c == '\U{2029}' || c == '\U{202F}'
    || c == '\U{205F}' || c == '\U{3000}'
  }

  function TrimSpace(s: string): string {
    if s == "" then ""
    else if IsSpace(s[0]) then TrimSpace(s[1..])
    else if IsSpace(s[|s| - 1]) then TrimSpace(s[..|s| - 1])
    else s
  }

  predicate AllSpace(s: string) { forall c :: c in s ==> IsSpace(c) }

  /** The text without the space at its two ends. */
  predicate IsTrimmed(s: string, t: string, a: string, b: string) {
    && s == a + t + b && AllSpace(a) && AllSpace(b)
    && (t != "" ==> !IsSpace(t[0]) && !IsSpace(t[|t| - 1]))
  }

  lemma {:induction false} TrimSpaceIs(s: string) returns (a: string, b: string)
    ensures IsTrimmed(s, TrimSpace(s), a, b)
  {
    a, b := "", "";
    if s != "" && IsSpace(s[0]) {
      a, b := TrimSpaceIs(s[1..]);
      a := [s[0]] + a;
      assert s == [s[0]] + s[1..];
    } else if s != "" && IsSpace(s[|s| - 1]) {
      a, b := TrimSpaceIs(s[..|s| - 1]);
      b := b + [s[|s| - 1]];
      assert s == s[..|s| - 1] + [s[|s| - 1]];
    }
  }
}
