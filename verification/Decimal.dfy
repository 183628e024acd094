/** Decimal numerals, as printf writes them and scanf reads them. */
module Decimal {
  predicate IsDigit(c: char) { '0' <= c <= '9' }

  predicate AllDigits(s: string) { forall c :: c in s ==> IsDigit(c) }

  function Digit(n: nat): (c: char)
    requires n < 10
    ensures IsDigit(c) && c as int - '0' as int == n
  {
    '0' + n as char
  }

  /** "%d" of a number that is not negative. */
  function Dec(n: nat): (s: string)
    ensures |s| > 0
  {
    (if n < 10 then [] else Dec(n / 10)) + [Digit(n % 10)]
  }

  /** The number a string of digits stands for. */
  function Val(s: string): nat
    requires AllDigits(s)
  {
    if s == [] then 0
    else assert s[|s| - 1] in s; Val(s[..|s| - 1]) * 10 + (s[|s| - 1] as int - '0' as int)
  }

  function Zeros(n: nat): (s: string)
    ensures |s| == n && AllDigits(s)
  {
    if n == 0 then [] else Zeros(n - 1) + ['0']
  }

  /** "%0wd" of a number that is not negative. */
  function Pad(n: nat, w: nat): string {
    var s := Dec(n); (if |s| < w then Zeros(w - |s|) else []) + s
  }

  function Pow10(k: nat): (r: nat)
    ensures r > 0
  {
    if k == 0 then 1 else 10 * Pow10(k - 1)
  }

  lemma {:induction false} DecVal(n: nat)
    ensures AllDigits(Dec(n)) && Val(Dec(n)) == n
  {
    var s := Dec(n);
    if n >= 10 { DecVal(n / 10); }
    assert s[..|s| - 1] == if n < 10 then [] else Dec(n / 10);
  }

  lemma {:induction false} ValSplit(a: string, b: string)
    requires AllDigits(a) && AllDigits(b)
    ensures AllDigits(a + b) && Val(a + b) == Val(a) * Pow10(|b|) + Val(b)
  {
    if b == [] { assert a + b == a; }
    else {
      var c := b[..|b| - 1];
      assert (a + b)[..|a + b| - 1] == a + c;
      ValSplit(a, c);
      assert b[|b| - 1] in b && Pow10(|b|) == 10 * Pow10(|c|);
      TenTimes(Val(a), Pow10(|c|), Val(c));
    }
  }

  lemma TenTimes(a: nat, p: nat, c: nat)
    ensures (a * p + c) * 10 == a * (10 * p) + c * 10
  {}

  lemma {:induction false} ZerosVal(n: nat)
    ensures Val(Zeros(n)) == 0
  {
    if n > 0 {
      ZerosVal(n - 1);
      assert Zeros(n)[..n - 1] == Zeros(n - 1);
    }
  }

  lemma PadVal(n: nat, w: nat)
    ensures AllDigits(Pad(n, w)) && Val(Pad(n, w)) == n
  {
    DecVal(n);
    var s := Dec(n);
    if |s| < w {
      ZerosVal(w - |s|);
      ValSplit(Zeros(w - |s|), s);
      assert 0 * Pow10(|s|) == 0;
    } else {
      assert [] + s == s;
    }
  }

  /** A number below 10^k needs at most k digits. */
  lemma {:induction false} DecShort(n: nat, k: nat)
    requires k > 0 && n < Pow10(k)
    ensures |Dec(n)| <= k
  {
    if n >= 10 {
      assert k > 1 by { assert Pow10(1) == 10 * Pow10(0); }
      DecShort(n / 10, k - 1);
    }
  }

  lemma PadLength(n: nat, k: nat)
    requires k > 0 && n < Pow10(k)
    ensures |Pad(n, k)| == k
  {
    DecShort(n, k);
  }

  /** Numerals of different numbers differ. */
  lemma PadInjective(a: nat, b: nat, w: nat)
    requires Pad(a, w) == Pad(b, w)
    ensures a == b
  {
    PadVal(a, w);
    PadVal(b, w);
  }

  /** The number of leading digits. */
  function Span(s: string): (i: nat)
    ensures i <= |s| && AllDigits(s[..i]) && (i < |s| ==> !IsDigit(s[i]))
  {
    if s == [] || !IsDigit(s[0]) then 0
    else
      var j := Span(s[1..]);
      assert s[..1 + j] == [s[0]] + s[1..][..j];
      1 + j
  }

  lemma {:induction false} SpanIs(a: string, b: string)
    requires AllDigits(a) && b != [] && !IsDigit(b[0])
    ensures Span(a + b) == |a|
  {
    if a != [] {
      assert a[0] in a && (a + b)[1..] == a[1..] + b;
      SpanIs(a[1..], b);
    } else { assert a + b == b; }
  }
}
