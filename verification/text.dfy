/** Letter case, decimal text and hexadecimal text. */
module Text {

  function LowerChar(c: char): char {
    if 'A' <= c <= 'Z' then c - 'A' + 'a' else c
  }

  function UpperChar(c: char): char {
    if 'a' <= c <= 'z' then c - 'a' + 'A' else c
  }

  function Lower(s: string): (r: string)
    ensures |r| == |s|
  {
    seq(|s|, i requires 0 <= i < |s| => LowerChar(s[i]))
  }

  /** Twenty-six letters have two cases, and nothing else has. */
  lemma LettersHaveTwoCases(k: nat, c: char)
    requires k < 26 && !('A' <= c <= 'Z')
    ensures LowerChar((65 + k) as char) == (97 + k) as char && UpperChar((97 + k) as char) == (65 + k) as char
    ensures LowerChar(c) == c && (UpperChar(c) != c ==> 'a' <= c <= 'z')
  {
  }

  predicate SameLetters(s: string, t: string) {
    Lower(s) == Lower(t)
  }

  /** Membership up to letter case, the comparison every allowlist uses. */
  predicate Listed(list: seq<string>, s: string) {
    exists i | 0 <= i < |list| :: SameLetters(list[i], s)
  }

  // ---- decimal ----

  predicate IsDigit(c: char) { '0' <= c <= '9' }

  predicate AllDigits(s: string) {
    forall i | 0 <= i < |s| :: IsDigit(s[i])
  }

  function DigitValue(c: char): nat {
    if IsDigit(c) then (c - '0') as nat else 0
  }

  /** BigInt of a decimal text. */
  function BigIntOf(s: string): nat {
    if s == "" then 0 else 10 * BigIntOf(s[..|s| - 1]) + DigitValue(s[|s| - 1])
  }

  function Decimal(n: nat): (r: string)
    ensures r != "" && AllDigits(r) && (|r| > 1 ==> r[0] != '0') && (r[0] == '0' ==> n == 0)
    ensures BigIntOf(r) == n
  {
    var last := '0' + (n % 10) as char;
    if n < 10 then [last] else Decimal(n / 10) + [last]
  }

  /** One more digit. */
  lemma DecimalDigit(s: string, d: nat)
    requires d < 10
    ensures BigIntOf(s + ["0123456789"[d]]) == 10 * BigIntOf(s) + d
  {
    assert (s + ["0123456789"[d]])[..|s|] == s;
  }

  /** toString of a BigInt. */
  function SignedDecimal(n: int): string {
    if n < 0 then "-" + Decimal(-n) else Decimal(n)
  }

  lemma SignShows(n: int)
    ensures SignedDecimal(n) != ""
    ensures n < 0 <==> SignedDecimal(n)[0] == '-'
  {
    if n >= 0 { assert IsDigit(Decimal(n)[0]); }
  }

  lemma SignedDecimalInjective(m: int, n: int)
    requires SignedDecimal(m) == SignedDecimal(n)
    ensures m == n
  {
    SignShows(m);
    SignShows(n);
    if m < 0 {
      assert Decimal(-m) == SignedDecimal(m)[1..] == SignedDecimal(n)[1..] == Decimal(-n);
    }
  }

  // ---- hexadecimal ----

  predicate IsHexDigit(c: char) {
    IsDigit(c) || 'a' <= c <= 'f' || 'A' <= c <= 'F'
  }

  predicate AllHex(s: string) {
    forall i | 0 <= i < |s| :: IsHexDigit(s[i])
  }

  function HexValue(c: char): (v: nat)
    ensures v < 16
  {
    if IsDigit(c) then (c - '0') as nat
    else if 'a' <= c <= 'f' then (c - 'a') as nat + 10
    else if 'A' <= c <= 'F' then (c - 'A') as nat + 10
    else 0
  }

  function HexChar(v: nat): (c: char)
    requires v < 16
    ensures HexValue(c) == v && IsHexDigit(c) && LowerChar(c) == c
  {
    if v < 10 then '0' + v as char else 'a' + (v - 10) as char
  }

  function ParseHex(s: string): nat {
    if s == "" then 0 else 16 * ParseHex(s[..|s| - 1]) + HexValue(s[|s| - 1])
  }

  lemma HexDigits(c: char)
    ensures IsHexDigit(c) <==> c in "0123456789abcdefABCDEF"
  {
  }

  /** One more digit, in either case. */
  lemma HexDigit(s: string, d: nat)
    requires d < 16
    ensures ParseHex(s + ["0123456789abcdef"[d]]) == ParseHex(s + ["0123456789ABCDEF"[d]]) == 16 * ParseHex(s) + d
  {
    assert (s + ["0123456789abcdef"[d]])[..|s|] == s;
    assert (s + ["0123456789ABCDEF"[d]])[..|s|] == s;
  }

  function Pow16(w: nat): (p: nat)
    ensures p > 0
  {
    if w == 0 then 1 else 16 * Pow16(w - 1)
  }

  /** n as exactly w lower-case hexadecimal digits. */
  function FixedHex(n: nat, w: nat): (r: string)
    requires n < Pow16(w)
    ensures |r| == w && AllHex(r)
    ensures ParseHex(r) == n
  {
    if w == 0 then "" else FixedHex(n / 16, w - 1) + [HexChar(n % 16)]
  }

  lemma {:induction false} ParseHexBound(s: string)
    ensures ParseHex(s) < Pow16(|s|)
  {
    if s != "" { ParseHexBound(s[..|s| - 1]); }
  }

  /** Two hexadecimal texts of equal length have equal values exactly when they
      agree up to letter case. */
  lemma {:induction false} SameValueIffSameLetters(s: string, t: string)
    requires |s| == |t| && AllHex(s) && AllHex(t)
    ensures ParseHex(s) == ParseHex(t) <==> SameLetters(s, t)
  {
    if s != "" {
      var n := |s| - 1;
      SameValueIffSameLetters(s[..n], t[..n]);
      assert HexValue(s[n]) == HexValue(t[n]) <==> LowerChar(s[n]) == LowerChar(t[n]);
      if SameLetters(s, t) {
        forall i | 0 <= i < n ensures Lower(s[..n])[i] == Lower(t[..n])[i] {
          assert Lower(s)[i] == Lower(t)[i];
        }
        assert Lower(s)[n] == Lower(t)[n];
      } else if SameLetters(s[..n], t[..n]) && LowerChar(s[n]) == LowerChar(t[n]) {
        forall i | 0 <= i <= n ensures Lower(s)[i] == Lower(t)[i] {
          if i < n { assert Lower(s[..n])[i] == Lower(t[..n])[i]; }
        }
      }
    }
  }

  // ---- addresses ----

  predicate IsAddress(s: string) {
    |s| == 42 && s[0] == '0' && s[1] == 'x' && AllHex(s[2..])
  }

  /** The 160-bit number an address text names. */
  function AddressValue(s: string): nat {
    if |s| < 2 then 0 else ParseHex(s[2..])
  }

  lemma AddressValueIffSameLetters(s: string, t: string)
    requires IsAddress(s) && IsAddress(t)
    ensures AddressValue(s) == AddressValue(t) <==> SameLetters(s, t)
  {
    SameValueIffSameLetters(s[2..], t[2..]);
    if SameLetters(s, t) {
      forall i | 0 <= i < 40 ensures Lower(s[2..])[i] == Lower(t[2..])[i] {
        assert Lower(s)[i + 2] == Lower(t)[i + 2];
      }
      assert Lower(s[2..]) == Lower(t[2..]);
    }
    if SameLetters(s[2..], t[2..]) {
      forall i | 0 <= i < 42 ensures Lower(s)[i] == Lower(t)[i] {
        if i >= 2 { assert Lower(s[2..])[i - 2] == Lower(t[2..])[i - 2]; }
      }
      assert Lower(s) == Lower(t);
    }
  }
}
