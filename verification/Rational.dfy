/**
 Canonical cost strings: `Cost.exact` parses the string as a fraction and accepts it only when
 printing that fraction gives the same string back.
*/
module Rational {
  import opened Basics

  const LENGTH_LIMIT := 81
  const BOUND: nat := 0x1_0000_0000_0000_0000_0000_0000_0000_0000

  datatype Fraction = Fraction(num: int, den: nat)

  function Digit(n: nat): (c: char)
    requires n < 10
    ensures '0' <= c <= '9' && c as int - '0' as int == n
  {
    (n + '0' as int) as char
  }

  function PrintNat(n: nat): (s: string)
    ensures |s| > 0
  {
    if n < 10 then [Digit(n)] else PrintNat(n / 10) + [Digit(n % 10)]
  }

  predicate Digits(s: string) {
    |s| > 0 && forall i :: 0 <= i < |s| ==> '0' <= s[i] <= '9'
  }

  function ParseNat(s: string): nat
    requires forall i :: 0 <= i < |s| ==> '0' <= s[i] <= '9'
  {
    if s == "" then 0
    else 10 * ParseNat(s[..|s| - 1]) + (s[|s| - 1] as int - '0' as int)
  }

  function Gcd(a: nat, b: nat): (g: nat)
    ensures a > 0 || b > 0 ==> g > 0
    decreases b
  {
    if b == 0 then a else Gcd(b, a % b)
  }

  /** The fraction in lowest terms; `den` is positive. */
  function Reduce(num: int, den: nat): (f: Fraction)
    requires den > 0
  {
    var g := Gcd(if num < 0 then -num else num, den);
    Fraction(if num < 0 then -(-num / g) else num / g, den / g)
  }

  predicate Reduced(f: Fraction) {
    f.den > 0 && Gcd(if f.num < 0 then -f.num else f.num, f.den) == 1
  }

  /** `str(Fraction)`: no denominator when it is one. */
  function Print(f: Fraction): string {
    if f.num < 0 then "-" + PrintUnsigned(-f.num, f.den) else PrintUnsigned(f.num, f.den)
  }

  function PrintUnsigned(num: nat, den: nat): string {
    if den == 1 then PrintNat(num) else PrintNat(num) + "/" + PrintNat(den)
  }

  function SlashAt(s: string): (n: nat)
    ensures n <= |s| && (n < |s| ==> s[n] == '/')
    ensures forall i :: 0 <= i < n ==> s[i] != '/'
  {
    if s == "" || s[0] == '/' then 0 else 1 + SlashAt(s[1..])
  }

  /**
   `Fraction(s)` on the plain forms `[-]digits` and `[-]digits/digits`; a zero denominator raises.
   The further spellings Python reads (blanks, plus signs, underscores, points, exponents) print
   differently from how they are spelled, so the check below rejects them whatever they denote.
  */
  function Parse(s: string): Option<Fraction> {
    if s != "" && s[0] == '-' then ParseUnsigned(s[1..], true) else ParseUnsigned(s, false)
  }

  function ParseUnsigned(t: string, minus: bool): Option<Fraction> {
    var n := SlashAt(t);
    if !Digits(t[..n]) then None
    else if n == |t| then Some(Signed(ParseNat(t[..n]), 1, minus))
    else if !Digits(t[n + 1..]) || ParseNat(t[n + 1..]) == 0 then None
    else Some(Signed(ParseNat(t[..n]), ParseNat(t[n + 1..]), minus))
  }

  function Signed(num: nat, den: nat, minus: bool): Fraction
    requires den > 0
  {
    Reduce(if minus then -(num as int) else num, den)
  }

  /** `Cost.exact`: length first, then the parse, the sign, the print, the size of both parts. */
  predicate Exact(value: string) {
    && |value| <= LENGTH_LIMIT
    && Parse(value).Some?
    && var f := Parse(value).value;
      && 0 <= f.num
      && Print(f) == value
      && f.num < BOUND
      && f.den < BOUND
  }

  /** A non-negative fraction in lowest terms with 128-bit parts. */
  predicate Canonical(f: Fraction) {
    Reduced(f) && 0 <= f.num < BOUND && f.den < BOUND
  }

  // ---- Printing and parsing natural numbers.

  lemma {:induction false} ParsePrintNat(n: nat)
    ensures Digits(PrintNat(n)) && ParseNat(PrintNat(n)) == n
  {
    if n >= 10 {
      ParsePrintNat(n / 10);
      var s := PrintNat(n);
      assert s[..|s| - 1] == PrintNat(n / 10);
    } else {
      assert PrintNat(n)[..0] == "";
    }
  }

  lemma {:induction false} PrintNatLength(n: nat, digits: nat, bound: nat)
    requires digits >= 1 && bound == Power10(digits) && n < bound
    ensures |PrintNat(n)| <= digits
    decreases digits
  {
    assert Power10(1) == 10 * Power10(0);
    if n >= 10 {
      PrintNatLength(n / 10, digits - 1, Power10(digits - 1));
    }
  }

  function Power10(k: nat): (p: nat)
    ensures p > 0
  {
    if k == 0 then 1 else 10 * Power10(k - 1)
  }

  lemma BoundHas39Digits()
    ensures BOUND <= Power10(39)
  {
    Power10Add(13, 13);
    Power10Add(26, 13);
    assert Power10(4) == 10000;
    Power10Add(4, 4);
    Power10Add(8, 4);
    assert Power10(1) == 10;
    Power10Add(12, 1);
    assert Power10(13) == 1_0000_0000_0000_0;
  }

  lemma {:induction false} Power10Add(a: nat, b: nat)
    ensures Power10(a + b) == Power10(a) * Power10(b)
  {
    if b > 0 { Power10Add(a, b - 1); }
  }

  // ---- Lowest terms.

  lemma ModScaled(k: nat, a: nat, b: nat)
    requires k > 0 && b > 0
    ensures k * b > 0 && (k * a) % (k * b) == k * (a % b)
  {
    var q, r := a / b, a % b;
    assert k * a == q * (k * b) + k * r by {
      assert a == q * b + r;
      assert k * (q * b + r) == k * (q * b) + k * r;
      assert k * (q * b) == q * (k * b);
    }
    assert 0 <= k * r < k * b;
    RemainderUnique(k * a, k * b, q, k * r);
  }

  lemma RemainderUnique(n: nat, d: nat, q: nat, r: nat)
    requires d > 0 && n == q * d + r && r < d
    ensures n / d == q && n % d == r
  {
    var x := n / d - q;
    assert x * d == r - n % d by {
      assert n == (n / d) * d + n % d;
      assert (n / d - q) * d == (n / d) * d - q * d;
    }
    SmallMultiple(x, d);
  }

  lemma SmallMultiple(x: int, d: int)
    requires -d < x * d < d
    ensures x == 0
  {
  }

  lemma {:induction false} GcdScale(k: nat, a: nat, b: nat)
    requires k > 0
    ensures Gcd(k * a, k * b) == k * Gcd(a, b)
    decreases b
  {
    if b > 0 {
      ModScaled(k, a, b);
      GcdScale(k, b, a % b);
    }
  }

  /** Both numbers are multiples of their greatest common divisor. */
  lemma {:induction false} GcdDivides(a: nat, b: nat) returns (x: nat, y: nat)
    ensures a == x * Gcd(a, b) && b == y * Gcd(a, b)
    decreases b
  {
    if b == 0 {
      x, y := 1, 0;
    } else {
      var u, v := GcdDivides(b, a % b);
      x, y := (a / b) * u + v, u;
      SumOfMultiples(a, b, a / b, u, v, Gcd(a, b));
    }
  }

  lemma SumOfMultiples(a: nat, b: nat, q: nat, u: nat, v: nat, g: nat)
    requires b == u * g && a == q * b + v * g
    ensures a == (q * u + v) * g
  {
    assert q * (u * g) == (q * u) * g;
  }

  lemma ReduceReduced(num: int, den: nat)
    requires den > 0
    ensures Reduced(Reduce(num, den))
  {
    var n: nat := if num < 0 then -num else num;
    var g := Gcd(n, den);
    var x, y := GcdDivides(n, den);
    RemainderUnique(n, g, x, 0);
    RemainderUnique(den, g, y, 0);
    GcdScale(g, x, y);
    CancelFactor(Gcd(x, y), g);
    assert y > 0;
  }

  lemma CancelFactor(k: nat, g: nat)
    requires g > 0 && g == g * k
    ensures k == 1
  {
  }

  /** Fractions in lowest terms that cross-multiply alike have the same parts. */
  lemma LowestTermsUnique(p: nat, q: nat, r: nat, s: nat)
    requires q > 0 && s > 0 && Gcd(p, q) == 1 && Gcd(r, s) == 1
    requires p * s == r * q
    ensures p == r && q == s
  {
    GcdScale(s, p, q);
    GcdScale(q, r, s);
    assert q == s;
    SameFactor(p, r, q);
  }

  lemma SameFactor(p: nat, r: nat, q: nat)
    requires q > 0 && p * q == r * q
    ensures p == r
  {
  }

  lemma ReduceKeepsReduced(f: Fraction)
    requires Reduced(f)
    ensures Reduce(f.num, f.den) == f
  {
  }

  // ---- What accepted strings are.

  lemma SlashAfterDigits(top: string, rest: string)
    requires Digits(top)
    ensures SlashAt(top) == |top| && SlashAt(top + "/" + rest) == |top|
  {
    var s := top + "/" + rest;
    assert s[|top|] == '/';
    assert forall i :: 0 <= i < |top| ==> s[i] == top[i];
  }

  lemma ParsePrintUnsigned(num: nat, den: nat, minus: bool)
    requires den > 0
    ensures ParseUnsigned(PrintUnsigned(num, den), minus) == Some(Signed(num, den, minus))
    ensures PrintUnsigned(num, den) != "" && PrintUnsigned(num, den)[0] != '-'
  {
    var top, bottom := PrintNat(num), PrintNat(den);
    ParsePrintNat(num);
    ParsePrintNat(den);
    SlashAfterDigits(top, bottom);
    if den == 1 {
      assert top[..|top|] == top;
    } else {
      var t := top + "/" + bottom;
      assert t[..|top|] == top && t[|top| + 1..] == bottom;
    }
  }

  /** Parsing undoes printing. */
  lemma ParsePrint(f: Fraction)
    requires Reduced(f)
    ensures Parse(Print(f)) == Some(f)
  {
    ReduceKeepsReduced(f);
    if f.num < 0 {
      ParsePrintUnsigned(-f.num, f.den, true);
      assert Print(f)[1..] == PrintUnsigned(-f.num, f.den);
    } else {
      ParsePrintUnsigned(f.num, f.den, false);
    }
  }

  /** The 81-character limit never rejects the print of a canonical fraction. */
  lemma PrintFitsLimit(f: Fraction)
    requires Canonical(f)
    ensures |Print(f)| <= 39 + 1 + 39 <= LENGTH_LIMIT
  {
    BoundHas39Digits();
    PrintNatLength(f.num, 39, Power10(39));
    PrintNatLength(f.den, 39, Power10(39));
  }

  lemma ParseReduced(s: string)
    ensures Parse(s).Some? ==> Reduced(Parse(s).value)
  {
    forall num: nat, den: nat, minus: bool | den > 0 ensures Reduced(Signed(num, den, minus)) {
      ReduceReduced(if minus then -(num as int) else num, den);
    }
  }

  /** Accepted strings are exactly the prints of canonical fractions. */
  lemma ExactIffCanonicalPrint(value: string)
    ensures Exact(value) <==> exists f :: Canonical(f) && value == Print(f)
  {
    if Exact(value) {
      ParseReduced(value);
      assert Canonical(Parse(value).value);
    }
    if f :| Canonical(f) && value == Print(f) {
      ParsePrint(f);
      PrintFitsLimit(f);
    }
  }

  /** Equal rationals have equal strings, and different ones different strings. */
  lemma EqualRationalsEqualStrings(v: string, w: string)
    requires Exact(v) && Exact(w)
    ensures var (a, b) := (Parse(v).value, Parse(w).value);
      v == w <==> a.num * b.den == b.num * a.den
  {
    var a, b := Parse(v).value, Parse(w).value;
    ParseReduced(v);
    ParseReduced(w);
    if a.num * b.den == b.num * a.den {
      LowestTermsUnique(a.num, a.den, b.num, b.den);
    }
  }
}
