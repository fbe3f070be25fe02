/**
 * Character classes and string helpers: ASCII `\d`, `\s`, `\w`, case folding
 * for ASCII letters, `str.join`, and `str(n)` for natural numbers.
 */
module Text {

  /** `\d` restricted to ASCII. */
  predicate IsDigit(c: char) { '0' <= c <= '9' }

  /** `\s` restricted to ASCII: space, tab, newline, carriage return, vertical tab, form feed. */
  predicate IsSpace(c: char) {
    c == ' ' || c == '\t' || c == '\n' || c == '\r' || c == '\U{B}' || c == '\U{C}'
  }

  /** `\w` restricted to ASCII: letters, digits and the underscore. */
  predicate IsWord(c: char) {
    IsDigit(c) || ('a' <= c <= 'z') || ('A' <= c <= 'Z') || c == '_'
  }

  /** ASCII lower-casing, as used for case-insensitive matching. */
  function Lower(c: char): (r: char)
    ensures 'A' <= c <= 'Z' ==> 'a' <= r <= 'z'
    ensures !('A' <= c <= 'Z') ==> r == c
  {
    if 'A' <= c <= 'Z' then (c as int + 32) as char else c
  }

  function DigitValue(c: char): (d: int)
    requires IsDigit(c)
    ensures 0 <= d <= 9
  {
    c as int - '0' as int
  }

  function DigitChar(d: nat): (c: char)
    requires d <= 9
    ensures IsDigit(c) && DigitValue(c) == d
  {
    ('0' as int + d) as char
  }

  /** `sep.join(xs)`. */
  function Join(sep: string, xs: seq<string>): string
  {
    if |xs| == 0 then ""
    else if |xs| == 1 then xs[0]
    else Join(sep, xs[..|xs| - 1]) + sep + xs[|xs| - 1]
  }

  /** Joining one more element appends the separator and the element. */
  lemma JoinSnoc(sep: string, xs: seq<string>, x: string)
    requires xs != []
    ensures Join(sep, xs + [x]) == Join(sep, xs) + sep + x
  {
    assert (xs + [x])[..|xs|] == xs;
  }

  /** Total width of `xs` when every element is followed by `sep`: the offset at which
      the element after `xs` starts inside a join. */
  function Width(sep: string, xs: seq<string>): nat
  {
    if xs == [] then 0 else Width(sep, xs[..|xs| - 1]) + |xs[|xs| - 1]| + |sep|
  }

  lemma {:induction false} JoinLength(sep: string, xs: seq<string>)
    requires xs != []
    ensures |Join(sep, xs)| + |sep| == Width(sep, xs)
  {
    if |xs| > 1 {
      JoinLength(sep, xs[..|xs| - 1]);
    }
  }

  /** Every element of a join stands verbatim at its offset. */
  lemma {:induction false} JoinSection(sep: string, xs: seq<string>, k: nat)
    requires k < |xs|
    ensures Width(sep, xs[..k]) + |xs[k]| <= |Join(sep, xs)|
    ensures Join(sep, xs)[Width(sep, xs[..k])..Width(sep, xs[..k]) + |xs[k]|] == xs[k]
  {
    var n := |xs|;
    var init := xs[..n - 1];
    if n == 1 {
      assert xs[..k] == [];
    } else if k == n - 1 {
      assert xs[..k] == init;
      JoinLength(sep, init);
    } else {
      JoinSection(sep, init, k);
      assert init[..k] == xs[..k];
      assert init[k] == xs[k];
      var j := Join(sep, init);
      assert Join(sep, xs) == j + sep + xs[n - 1];
      assert Join(sep, xs)[..|j|] == j;
    }
  }

  /** Offsets of later elements lie strictly after the end of earlier ones. */
  lemma {:induction false} WidthMonotone(sep: string, xs: seq<string>, j: nat, k: nat)
    requires j < k <= |xs|
    ensures Width(sep, xs[..j]) + |xs[j]| + |sep| <= Width(sep, xs[..k])
  {
    if k == j + 1 {
      assert xs[..k][..j] == xs[..j];
    } else {
      WidthMonotone(sep, xs, j, k - 1);
      assert xs[..k][..k - 1] == xs[..k - 1];
    }
  }

  /** `str(n)` for a natural number: decimal, no leading zeros. */
  function NatToString(n: nat): (s: string)
    ensures s != []
    ensures forall i :: 0 <= i < |s| ==> IsDigit(s[i])
  {
    if n < 10 then [DigitChar(n)] else NatToString(n / 10) + [DigitChar(n % 10)]
  }

  /** Decimal value of a digit string (the inverse of `NatToString`). */
  function DecimalValue(s: string): int
    requires forall i :: 0 <= i < |s| ==> IsDigit(s[i])
  {
    if s == [] then 0 else DecimalValue(s[..|s| - 1]) * 10 + DigitValue(s[|s| - 1])
  }

  lemma {:induction false} NatToStringRoundTrip(n: nat)
    ensures DecimalValue(NatToString(n)) == n
    ensures n > 0 ==> NatToString(n)[0] != '0'
  {
    var s := NatToString(n);
    if n < 10 {
      assert s[..0] == [];
    } else {
      NatToStringRoundTrip(n / 10);
      assert s[..|s| - 1] == NatToString(n / 10);
    }
  }

  /** Number of occurrences of `c` in `s`. */
  function Occurrences(s: string, c: char): nat
  {
    if s == [] then 0 else Occurrences(s[..|s| - 1], c) + (if s[|s| - 1] == c then 1 else 0)
  }

  lemma {:induction false} OccurrencesAppend(a: string, b: string, c: char)
    ensures Occurrences(a + b, c) == Occurrences(a, c) + Occurrences(b, c)
  {
    if b != [] {
      OccurrencesAppend(a, b[..|b| - 1], c);
      assert (a + b)[..|a + b| - 1] == a + b[..|b| - 1];
    } else {
      assert a + b == a;
    }
  }

  /** `sub` stands in `s` at offset `i`. */
  predicate OccursAt(s: string, sub: string, i: nat)
  {
    i + |sub| <= |s| && s[i..i + |sub|] == sub
  }

  /** `sub in s` for strings. */
  ghost predicate Contains(s: string, sub: string)
  {
    exists i: nat :: OccursAt(s, sub, i)
  }
}
