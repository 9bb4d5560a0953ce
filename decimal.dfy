/** Decimal formatting of natural numbers, as Go's `fmt.Sprintf("%d", n)`
    produces it for a non-negative int, together with its inverse.
    The broker allocates its public keys with this formatting, so the
    uniqueness of keys rests on the injectivity proved here. */
module Decimal {

  predicate IsDigit(c: char) {
    '0' <= c <= '9'
  }

  predicate AllDigits(s: string) {
    forall i :: 0 <= i < |s| ==> IsDigit(s[i])
  }

  /** The strings `%d` can print for a natural: non-empty, digits only,
      and no leading zero unless the number is zero itself. */
  predicate Canonical(s: string) {
    |s| >= 1 && AllDigits(s) && (s[0] == '0' ==> |s| == 1)
  }

  function DigitChar(d: nat): (c: char)
    requires d < 10
    ensures IsDigit(c)
  {
    ('0' as int + d) as char
  }

  function DigitValue(c: char): (d: nat)
    requires IsDigit(c)
    ensures d < 10
  {
    c as int - '0' as int
  }

  /** `fmt.Sprintf("%d", n)` for n >= 0. */
  function Format(n: nat): string {
    if n < 10 then [DigitChar(n)]
    else Format(n / 10) + [DigitChar(n % 10)]
  }

  /** What `%d` prints is canonical, and starts with '0' only for zero. */
  lemma {:induction false} FormatCanonical(n: nat)
    ensures Canonical(Format(n))
    ensures Format(n)[0] == '0' <==> n == 0
  {
    if n >= 10 {
      FormatCanonical(n / 10);
      var s := Format(n);
      assert s[0] == Format(n / 10)[0];
      forall i | 0 <= i < |s| ensures IsDigit(s[i]) {
        if i < |s| - 1 {
          assert s[i] == Format(n / 10)[i];
        }
      }
    }
  }

  /** Reads a string of digits as a natural number (most significant first). */
  function Parse(s: string): nat
    requires AllDigits(s)
  {
    if s == [] then 0
    else Parse(s[..|s| - 1]) * 10 + DigitValue(s[|s| - 1])
  }

  /** Parsing undoes formatting. */
  lemma {:induction false} ParseFormat(n: nat)
    ensures AllDigits(Format(n)) && Parse(Format(n)) == n
  {
    FormatCanonical(n);
    var s := Format(n);
    if n < 10 {
      assert s[..|s| - 1] == [];
    } else {
      assert s[..|s| - 1] == Format(n / 10);
      ParseFormat(n / 10);
    }
  }

  /** Two naturals print the same exactly when they are equal. */
  lemma FormatInjective(a: nat, b: nat)
    ensures Format(a) == Format(b) <==> a == b
  {
    if Format(a) == Format(b) {
      ParseFormat(a);
      ParseFormat(b);
    }
  }

  /** A digit string without a leading zero denotes a positive number. */
  lemma {:induction false} ParsePositive(s: string)
    requires |s| >= 1 && AllDigits(s) && s[0] != '0'
    ensures Parse(s) >= 1
  {
    if |s| > 1 {
      ParsePositive(s[..|s| - 1]);
    }
  }

  /** Formatting undoes parsing on canonical strings, so the canonical
      strings are exactly the ones `%d` prints. */
  lemma {:induction false} FormatParse(s: string)
    requires Canonical(s)
    ensures Format(Parse(s)) == s
  {
    var p := s[..|s| - 1];
    var d := DigitValue(s[|s| - 1]);
    if |s| == 1 {
      assert p == [];
      assert Parse(s) == d;
    } else {
      assert p[0] == s[0];
      ParsePositive(p);
      FormatParse(p);
      var n := Parse(s);
      assert n == Parse(p) * 10 + d;
      assert n / 10 == Parse(p) && n % 10 == d;
      assert s == p + [s[|s| - 1]];
    }
  }
}
