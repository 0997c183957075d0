/** The string operations the screens rely on: `Number.prototype.toString`
    for non-negative integers, `String.prototype.padStart`, `IndexOf` (the
    first position of a character, from which `split(' ')[0]` is computed),
    and the inverse of the decimal rendering that the round-trip proofs use. */
module Text {

  predicate IsDigit(c: char) { '0' <= c <= '9' }

  predicate AllDigits(s: string) { forall i :: 0 <= i < |s| ==> IsDigit(s[i]) }

  function DigitChar(d: nat): (c: char)
    requires d < 10
    ensures IsDigit(c) && DigitValue(c) == d
  {
    ('0' as int + d) as char
  }

  /** The value of a decimal digit; other characters count as 0 and are
      ruled out by the callers. */
  function DigitValue(c: char): (d: nat)
    ensures d < 10
  {
    if IsDigit(c) then c as int - '0' as int else 0
  }

  /** `n.toString()`: decimal digits, most significant first, no leading zero. */
  function Digits(n: nat): (s: string)
    ensures AllDigits(s)
    ensures n < 10 ==> |s| == 1
    ensures 10 <= n < 100 ==> |s| == 2
    ensures n >= 10 ==> |s| >= 2 && s[0] != '0'
    ensures n >= 100 ==> |s| >= 3
  {
    if n < 10 then [DigitChar(n)] else Digits(n / 10) + [DigitChar(n % 10)]
  }

  /** Reads a string of decimal digits back as a number; leading zeros are allowed. */
  function ParseNat(s: string): nat
  {
    if s == [] then 0 else ParseNat(s[..|s| - 1]) * 10 + DigitValue(s[|s| - 1])
  }

  lemma {:induction false} ParseDigits(n: nat)
    ensures ParseNat(Digits(n)) == n
  {
    if n >= 10 {
      var s := Digits(n);
      assert s[..|s| - 1] == Digits(n / 10);
      ParseDigits(n / 10);
    }
  }

  /** A leading zero does not change the value read back. */
  lemma {:induction false} ParseLeadingZero(s: string)
    ensures ParseNat("0" + s) == ParseNat(s)
  {
    if s != [] {
      assert ("0" + s)[..|"0" + s| - 1] == "0" + s[..|s| - 1];
      ParseLeadingZero(s[..|s| - 1]);
    }
  }

  /** `n` copies of `c`. */
  function Repeat(c: char, n: nat): (r: string)
    ensures |r| == n && forall i :: 0 <= i < n ==> r[i] == c
  {
    if n == 0 then [] else Repeat(c, n - 1) + [c]
  }

  /** `s.padStart(width, fill)`: `fill` characters are prepended until the
      string is `width` long; a string already that long is left alone. */
  function PadStart(s: string, width: nat, fill: char): (r: string)
    ensures |r| == if |s| >= width then |s| else width
    ensures r[|r| - |s|..] == s
    ensures forall i :: 0 <= i < |r| - |s| ==> r[i] == fill
  {
    if |s| >= width then s
    else
      var pad := Repeat(fill, width - |s|);
      assert (pad + s)[|pad|..] == s;
      pad + s
  }

  /** `s.indexOf(c)`, with `|s|` standing for JavaScript's -1 (not found). */
  function IndexOf(s: string, c: char): (r: nat)
    ensures r <= |s|
    ensures r < |s| ==> s[r] == c
    ensures forall j :: 0 <= j < r ==> s[j] != c
  {
    if s == [] then 0
    else if s[0] == c then 0
    else 1 + IndexOf(s[1..], c)
  }

  /** The first non-digit after a run of digits is found right after the run. */
  lemma {:induction false} IndexOfAfterDigits(x: string, c: char, y: string)
    requires AllDigits(x) && !IsDigit(c)
    ensures IndexOf(x + [c] + y, c) == |x|
  {
    if x != [] {
      assert (x + [c] + y)[1..] == x[1..] + [c] + y;
      IndexOfAfterDigits(x[1..], c, y);
    }
  }
}
