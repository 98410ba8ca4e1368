/** Decimal digit strings, their values, and printing of whole numbers.
    Every amount the transaction assembly commits on-chain reduces to these. */
module Digits {

  /** 10 raised to n. */
  function Pow10(n: nat): (r: nat)
    ensures r >= 1
  {
    if n == 0 then 1 else 10 * Pow10(n - 1)
  }

  lemma {:induction false} Pow10Add(a: nat, b: nat)
    ensures Pow10(a + b) == Pow10(a) * Pow10(b)
  {
    if b > 0 {
      Pow10Add(a, b - 1);
      assert Pow10(a + b) == 10 * Pow10(a + (b - 1));
      assert Pow10(b) == 10 * Pow10(b - 1);
    }
  }

  predicate IsDigit(c: char) {
    '0' <= c <= '9'
  }

  predicate AllDigits(s: string) {
    forall k :: 0 <= k < |s| ==> IsDigit(s[k])
  }

  function DigitValue(c: char): (v: nat)
    requires IsDigit(c)
    ensures v < 10
  {
    c as int - '0' as int
  }

  function DigitChar(v: nat): (c: char)
    requires v < 10
    ensures IsDigit(c) && DigitValue(c) == v
  {
    ('0' as int + v) as char
  }

  /** The value of a digit string read in base 10; the empty string reads as 0. */
  function Value(s: string): (v: nat)
    requires AllDigits(s)
    ensures v < Pow10(|s|)
  {
    if s == [] then 0 else Value(s[..|s| - 1]) * 10 + DigitValue(s[|s| - 1])
  }

  /** A digit string contains no other character. */
  lemma DigitsExclude(s: string, c: char)
    requires AllDigits(s) && !IsDigit(c)
    ensures c !in s
  {
  }

  /** n copies of the character '0'. */
  function Zeros(n: nat): (z: string)
    ensures |z| == n && AllDigits(z)
  {
    seq(n, _ => '0')
  }

  lemma {:induction false} ZerosValue(n: nat)
    ensures Value(Zeros(n)) == 0
  {
    if n > 0 {
      assert Zeros(n)[..n - 1] == Zeros(n - 1);
      ZerosValue(n - 1);
    }
  }

  /** Reading a concatenation: the left part is shifted by the length of the right part. */
  lemma {:induction false} ValueConcat(a: string, b: string)
    requires AllDigits(a) && AllDigits(b)
    ensures AllDigits(a + b)
    ensures Value(a + b) == Value(a) * Pow10(|b|) + Value(b)
  {
    if b == [] {
      assert a + b == a;
    } else {
      var b' := b[..|b| - 1];
      assert (a + b)[..|a + b| - 1] == a + b';
      ValueConcat(a, b');
      var va: int, vb': int, p': int, d: int := Value(a), Value(b'), Pow10(|b'|), DigitValue(b[|b| - 1]);
      assert Value(a + b) == Value(a + b') * 10 + d;
      assert Value(a + b') == va * p' + vb';
      assert Pow10(|b|) == p' * 10;
      assert Value(b) == vb' * 10 + d;
      Regroup(va, p', vb', d);
    }
  }

  lemma Regroup(a: int, p: int, b: int, d: int)
    ensures (a * p + b) * 10 + d == a * (p * 10) + (b * 10 + d)
  {
  }

  /** Quotient and remainder are unique. */
  lemma DivModUnique(q: nat, p: nat, r: nat)
    requires p > 0 && r < p
    ensures (q * p + r) / p == q && (q * p + r) % p == r
  {
    var x := q * p + r;
    var q', r' := x / p, x % p;
    assert x == q' * p + r' && r' < p;
    if q' > q {
      MulMono(q + 1, q', p);
      assert false;
    } else if q' < q {
      MulMono(q' + 1, q, p);
      assert false;
    }
  }

  lemma MulMono(a: nat, b: nat, p: nat)
    requires a <= b
    ensures a * p <= b * p
  {
  }

  /** Dividing a scaled value by a larger scale is dividing the unscaled value. */
  lemma DivCancel(x: nat, q: nat, m: nat)
    requires q > 0 && m > 0
    ensures (x * m) / (q * m) == x / q
  {
    var a, r := x / q, x % q;
    assert x == a * q + r;
    assert x * m == a * (q * m) + r * m;
    assert r * m < q * m;
    DivModUnique(a, q * m, r * m);
  }

  /** Dropping the last k digits of a string divides its value by 10^k: truncation, never rounding. */
  lemma {:induction false} ValuePrefix(f: string, k: nat)
    requires AllDigits(f) && k <= |f|
    ensures AllDigits(f[..k])
    ensures Value(f[..k]) == Value(f) / Pow10(|f| - k)
  {
    assert f == f[..k] + f[k..];
    ValueConcat(f[..k], f[k..]);
    DivModUnique(Value(f[..k]), Pow10(|f| - k), Value(f[k..]));
  }

  /** The base-10 text of a whole number, without leading zeros. */
  function NatText(n: nat): (s: string)
    ensures |s| >= 1 && AllDigits(s) && Value(s) == n
    ensures |s| > 1 ==> s[0] != '0'
  {
    if n < 10 then [DigitChar(n)]
    else
      var prefix := NatText(n / 10);
      var s := prefix + [DigitChar(n % 10)];
      assert s[..|s| - 1] == prefix;
      s
  }
}
