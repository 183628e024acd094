/** How fbird_result.c prints scaled integers. */
module Scaled {
  import opened Decimal

  const MIN64: int := -0x8000_0000_0000_0000

  type Int64 = n: int | -0x8000_0000_0000_0000 <= n < 0x8000_0000_0000_0000

  // ------------------------------------------------------------ C arithmetic

  /** C's `/` and `%` cut towards zero. */
  function CDiv(a: int, b: int): int
    requires b > 0
  {
    if a >= 0 then a / b else -(-a / b)
  }

  function CMod(a: int, b: int): int
    requires b > 0
  {
    if a >= 0 then a % b else -(-a % b)
  }

  /** Unary minus on 64 bits, where the smallest number is its own negative. */
  function CNeg(n: Int64): Int64 { if n == MIN64 then n else -n }

  /** "%ld" */
  function Plain(n: int): string { if n < 0 then "-" + Dec(-n) else Dec(n) }

  /** "%0*ld": a minus sign counts towards the width. */
  function Padded(n: int, w: nat): string {
    if n < 0 then "-" + Pad(-n, if w > 0 then w - 1 else 0) else Pad(n, w)
  }

  // ------------------------------------------------------------ printing

  /** The `_sql_long` code of _php_fbird_var_zval for a scale of -k. */
  function Print(n: Int64, k: nat): string
    requires 1 <= k <= 18
  {
    var f: int := Pow10(k);
    if n >= 0 then Plain(CDiv(n, f)) + "." + Padded(CMod(n, f), k)
    else if n <= -f then Plain(CDiv(n, f)) + "." + Padded(CMod(CNeg(n), f), k)
    else "-0." + Padded(CMod(CNeg(n), f), k)
  }

  // ------------------------------------------------------------ reading

  datatype Reading = Fixed(units: int, digits: nat) | NotANumber

  /** A number with a fractional part: its value in units of 10^-digits. */
  function Read(s: string): Reading {
    if s != [] && s[0] == '-' then
      match ReadNatural(s[1..])
      case Fixed(u, d) => Fixed(-u, d)
      case NotANumber => NotANumber
    else ReadNatural(s)
  }

  function ReadNatural(s: string): Reading {
    var i := Span(s);
    if i == 0 || i + 1 >= |s| || s[i] != '.' || !AllDigits(s[i + 1..]) then NotANumber
    else Fixed(Val(s[..i]) * Pow10(|s| - i - 1) + Val(s[i + 1..]), |s| - i - 1)
  }

  lemma ReadsText(a: string, b: string)
    requires a != [] && b != [] && AllDigits(a) && AllDigits(b)
    ensures ReadNatural(a + ("." + b)) == Fixed(Val(a) * Pow10(|b|) + Val(b), |b|)
  {
    hide ReadNatural, Val, Pow10, AllDigits, Span;
    SpanIs(a, "." + b);
    AtPoint(a, b);
    ReadAt(a + ("." + b), |a|);
  }

  lemma ReadAt(s: string, i: nat)
    requires Span(s) == i && 0 < i && i + 1 < |s| && s[i] == '.' && AllDigits(s[i + 1..])
    ensures ReadNatural(s) == Fixed(Val(s[..i]) * Pow10(|s| - i - 1) + Val(s[i + 1..]), |s| - i - 1)
  {}

  lemma AtPoint(a: string, b: string)
    ensures var s := a + ("." + b); |s| == |a| + 1 + |b| && s[..|a|] == a && s[|a|] == '.' && s[|a| + 1..] == b
  {}

  function Parts(w: nat, r: nat, k: nat): string { Dec(w) + ("." + Pad(r, k)) }

  lemma ReadsParts(w: nat, r: nat, k: nat)
    requires 1 <= k && r < Pow10(k)
    ensures ReadNatural(Parts(w, r, k)) == Fixed(w * Pow10(k) + r, k) && Parts(w, r, k) != [] &&
            Parts(w, r, k)[0] != '-'
  {
    hide Dec, Pad, Val, Pow10;
    DecVal(w);
    PadVal(r, k);
    PadLength(r, k);
    ReadsText(Dec(w), Pad(r, k));
    assert Dec(w)[0] in Dec(w);
  }

  /** Whole part, point, and k digits of fraction. */
  function Text(m: nat, k: nat): string { Parts(Quot(m, Pow10(k)), Rem(m, Pow10(k)), k) }

  function Quot(m: nat, f: nat): nat
    requires f > 0
  {
    m / f
  }

  function Rem(m: nat, f: nat): nat
    requires f > 0
  {
    m % f
  }

  lemma DivMod(m: nat, f: nat)
    requires f > 0
    ensures m == Quot(m, f) * f + Rem(m, f) && 0 <= Rem(m, f) < f
  {}

  lemma ReadsBack(m: nat, k: nat)
    requires 1 <= k
    ensures ReadNatural(Text(m, k)) == Fixed(m, k) && Text(m, k) != [] && Text(m, k)[0] != '-'
  {
    hide Parts, Pow10, ReadNatural, Quot, Rem;
    DivMod(m, Pow10(k));
    ReadsParts(Quot(m, Pow10(k)), Rem(m, Pow10(k)), k);
  }

  /** The text of every 64-bit number but the smallest has its exact value, with exactly k digits after the
      point, in all three branches. */
  lemma PrintsExactly(n: Int64, k: nat)
    requires 1 <= k <= 18 && n != MIN64
    ensures Read(Print(n, k)) == Fixed(n, k)
  {
    var m := if n < 0 then -n else n;
    ReadsBack(m, k);
    BranchIs(n, k);
    hide Text, Print;
    if n < 0 { assert ("-" + Text(m, k))[1..] == Text(m, k); }
  }

  /** The three branches write the same text. */
  lemma BranchIs(n: Int64, k: nat)
    requires 1 <= k <= 18 && n != MIN64
    ensures Print(n, k) == if n < 0 then "-" + Text(-n, k) else Text(n, k)
  {
    hide Pow10, Pad, Dec, Print, Text;
    if n >= 0 { NotNegative(n, k); } else if n <= -(Pow10(k) as int) { FarBelow(n, k); } else { JustBelow(n, k); }
  }

  lemma NotNegative(n: Int64, k: nat)
    requires 1 <= k <= 18 && n >= 0
    ensures Print(n, k) == Text(n, k)
  {
    hide Pow10, Pad, Dec;
    Glue([], Dec(n / Pow10(k)), Pad(n % Pow10(k), k));
  }

  lemma FarBelow(n: Int64, k: nat)
    requires 1 <= k <= 18 && n != MIN64 && n <= -(Pow10(k) as int)
    ensures Print(n, k) == "-" + Text(-n, k)
  {
    hide Pow10, Pad, Dec;
    Quotient(-n, Pow10(k));
    Glue("-", Dec(-n / Pow10(k)), Pad(-n % Pow10(k), k));
  }

  lemma JustBelow(n: Int64, k: nat)
    requires 1 <= k <= 18 && n != MIN64 && -(Pow10(k) as int) < n < 0
    ensures Print(n, k) == "-" + Text(-n, k)
  {
    hide Pow10, Pad, Dec;
    Below(-n, Pow10(k));
    Glue("-", "0", Pad(-n, k));
  }

  lemma Glue(sign: string, a: string, b: string)
    ensures (sign + a) + "." + b == sign + (a + ("." + b)) && [] + a == a
    ensures a == "0" ==> "-0." + b == "-" + (a + ("." + b))
  {}

  lemma Quotient(m: nat, f: nat)
    requires 0 < f <= m
    ensures m / f > 0
  {}

  lemma Below(m: nat, f: nat)
    requires m < f
    ensures m / f == 0 && m % f == m && Dec(0) == "0"
  {}

  /** So a number is printed exactly if and only if it is not the smallest. */
  lemma ExactUnlessSmallest(n: Int64, k: nat)
    requires 1 <= k <= 18
    ensures Read(Print(n, k)) == Fixed(n, k) <==> n != MIN64
  {
    hide Read, Print;
    if n == MIN64 { SmallestIsMangled(k); } else { PrintsExactly(n, k); }
  }

  /** The smallest number comes out with a minus sign among its decimals, which is no number. */
  lemma SmallestIsMangled(k: nat)
    requires 1 <= k <= 18
    ensures Read(Print(MIN64, k)) == NotANumber
  {
    hide Dec, Pad, Print, Pow10;
    SmallestIs(k);
    var m := 0x8000_0000_0000_0000;
    DecVal(Quot(m, Pow10(k)));
    SignInside(Dec(Quot(m, Pow10(k))), Pad(Rem(m, Pow10(k)), k - 1));
  }

  lemma SignInside(whole: string, tail: string)
    requires AllDigits(whole)
    ensures Read("-" + (whole + ("." + ("-" + tail)))) == NotANumber
  {
    var b := "-" + tail;
    assert b[0] == '-' && b[0] in b && !AllDigits(b);
    var s := whole + ("." + b);
    SpanIs(whole, "." + b);
    assert s[..|whole|] == whole && s[|whole|] == '.' && s[|whole| + 1..] == b;
    assert ("-" + s)[1..] == s;
  }

  lemma SmallestIs(k: nat)
    requires 1 <= k <= 18
    ensures var (m, f) := (0x8000_0000_0000_0000, Pow10(k));
            Print(MIN64, k) == "-" + (Dec(Quot(m, f)) + ("." + ("-" + Pad(Rem(m, f), k - 1))))
  {
    var m := 0x8000_0000_0000_0000;
    PowBound(k);
    NotDivisible(k, m);
    Quotient(m, Pow10(k));
    hide Pow10, Pad, Dec;
    Glue("-", Dec(m / Pow10(k)), "-" + Pad(m % Pow10(k), k - 1));
  }

  lemma PowBound(k: nat)
    requires k <= 18
    ensures Pow10(k) <= 1_000_000_000_000_000_000
  {
    PowGrows(k, 18);
    assert Pow10(2) == 100 && Pow10(4) == 100 * Pow10(2) && Pow10(6) == 100 * Pow10(4);
    assert Pow10(8) == 100 * Pow10(6) && Pow10(10) == 100 * Pow10(8) && Pow10(12) == 100 * Pow10(10);
    assert Pow10(14) == 100 * Pow10(12) && Pow10(16) == 100 * Pow10(14) && Pow10(18) == 100 * Pow10(16);
  }

  lemma {:induction false} PowGrows(j: nat, k: nat)
    requires j <= k
    ensures Pow10(j) <= Pow10(k)
    decreases k - j
  {
    if j < k { PowGrows(j, k - 1); }
  }

  /** A number that ends in 8 is no multiple of a power of ten. */
  lemma NotDivisible(k: nat, m: nat)
    requires k >= 1 && m % 10 == 8
    ensures m % Pow10(k) != 0
  {
    var q := m / Pow10(k);
    assert m == q * Pow10(k) + m % Pow10(k);
    assert q * Pow10(k) == 10 * (q * Pow10(k - 1));
  }
}
