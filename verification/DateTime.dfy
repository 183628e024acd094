/** Parsing of dates, times and timestamps (fbird_datetime.c). */
module DateTime {
  import opened State
  import opened Decimal
  import opened Arithmetic

  // ------------------------------------------------------------ calendar

  function IsLeap(year: nat): bool { (year % 4 == 0 && year % 100 != 0) || year % 400 == 0 }

  /** get_days_in_month */
  function DaysInMonth(year: nat, month: nat): nat {
    if month < 1 || month > 12 then 0
    else if month == 2 && IsLeap(year) then 29
    else [0, 31, 28, 31, 30, 31, 30, 31, 31, 30, 31, 30, 31][month]
  }

  /** A calendar date of the years 0001 to 9999 (sections 3.2.1 and 4.1.2.2 of ISO 8601:2004). */
  predicate RealDate(year: nat, month: nat, day: nat) {
    && 1 <= year <= 9999 && 1 <= month <= 12 && 1 <= day <= 31
    && (month in {4, 6, 9, 11} ==> day <= 30)
    && (month == 2 ==> day <= 29 && (day == 29 ==> year % 4 == 0 && (year % 100 == 0 ==> year % 400 == 0)))
  }

  predicate RealTime(hours: nat, minutes: nat, seconds: nat, fractions: nat) {
    hours <= 23 && minutes <= 59 && seconds <= 59 && fractions <= 9999
  }

  /** fbird_validate_date */
  predicate ValidDate(year: nat, month: nat, day: nat) {
    1 <= year <= 9999 && 1 <= month <= 12 && 1 <= day <= DaysInMonth(year, month)
  }

  lemma ValidDateIsReal(year: nat, month: nat, day: nat)
    ensures ValidDate(year, month, day) <==> RealDate(year, month, day)
  {}

  // ------------------------------------------------------------ fractions

  function NumDigits(n: nat): nat { if n == 0 then 0 else 1 + NumDigits(n / 10) }

  /** The four leading digits of a fraction: short ones are filled up, long ones cut. */
  function FourDigits(n: nat): nat {
    hide NumDigits, Pow10;
    var d := NumDigits(n);
    if d <= 4 then n * Pow10(4 - d) else n / Pow10(d - 4)
  }

  lemma {:induction false} NumDigitsBounds(n: nat)
    requires n > 0
    ensures NumDigits(n) > 0 && Pow10(NumDigits(n) - 1) <= n < Pow10(NumDigits(n))
  {
    if n >= 10 { NumDigitsBounds(n / 10); }
  }

  /** Fractions end up in 0..9999, and are unchanged exactly when they have four digits or are 0. */
  lemma FourDigitsIs(n: nat)
    ensures FourDigits(n) <= 9999
    ensures n <= 9999 ==> (FourDigits(n) == n <==> n == 0 || n >= 1000)
  {
    if n > 0 {
      NumDigitsBounds(n);
      var d := NumDigits(n);
      assert Pow10(4) == 10000 by { assert Pow10(2) == 100; }
      assert Pow10(3) == 1000 by { assert Pow10(1) == 10; }
      if d <= 4 {
        PowSum(d, 4 - d);
        PowSum(d - 1, 4 - d);
        ScaleBounds(Pow10(d - 1), n, Pow10(d), Pow10(4 - d));
        if d < 4 { PowPositive(4 - d); Grows(n, Pow10(4 - d)); if n >= 1000 { PowMonotone(d, 3); } }
      } else {
        PowSum(d - 4, 4);
        DivBound(n, Pow10(d - 4), Pow10(4));
        PowMonotone(4, d - 1);
      }
    }
  }

  lemma {:induction false} PowSum(a: nat, b: nat)
    ensures Pow10(a + b) == Pow10(a) * Pow10(b)
  {
    if a > 0 {
      PowSum(a - 1, b);
      assert 10 * (Pow10(a - 1) * Pow10(b)) == (10 * Pow10(a - 1)) * Pow10(b);
    }
  }

  lemma {:induction false} PowMonotone(a: nat, b: nat)
    requires a <= b
    ensures Pow10(a) <= Pow10(b)
  {
    if a < b { PowMonotone(a, b - 1); }
  }

  lemma PowPositive(k: nat)
    requires k > 0
    ensures Pow10(k) >= 10
  {}

  lemma Grows(n: nat, f: nat)
    requires n > 0 && f >= 10
    ensures n * f > n
  {}

  lemma ScaleBounds(lo: nat, n: nat, hi: nat, f: nat)
    requires lo <= n < hi && f > 0
    ensures lo * f <= n * f < hi * f
  {}

  lemma DivBound(n: nat, f: nat, g: nat)
    requires f > 0 && n < f * g
    ensures n / f < g
  {
    assert n == f * (n / f) + n % f;
    if n / f >= g { Times(f, g, n / f); }
  }

  /** The three loops that bring a fraction to four digits. */
  method NormalizeFraction(frac: nat) returns (r: nat)
    requires frac > 0
    ensures r == FourDigits(frac) && r <= 9999
  {
    var temp, digits := frac, 0;
    while temp > 0
      invariant digits + NumDigits(temp) == NumDigits(frac)
      decreases temp
    {
      temp := temp / 10;
      digits := digits + 1;
    }
    r := frac;
    ghost var d := digits;
    while digits < 4
      invariant d <= 4 ==> digits <= 4 && r * Pow10(4 - digits) == FourDigits(frac)
      invariant d > 4 ==> digits == d && r == frac
    {
      Shift(r, 4 - digits);
      r := r * 10;
      digits := digits + 1;
    }
    while digits > 4
      invariant d <= 4 ==> digits == 4 && r == FourDigits(frac)
      invariant d > 4 ==> 4 <= digits <= d && r / Pow10(digits - 4) == FourDigits(frac)
    {
      Unshift(r, digits - 4);
      r := r / 10;
      digits := digits - 1;
    }
    assert Pow10(0) == 1;
    FourDigitsIs(frac);
  }

  lemma Shift(r: nat, k: nat)
    requires k > 0
    ensures r * Pow10(k) == (r * 10) * Pow10(k - 1)
  {
    assert r * (10 * Pow10(k - 1)) == (r * 10) * Pow10(k - 1);
  }

  lemma Unshift(r: nat, k: nat)
    requires k > 0
    ensures r / Pow10(k) == (r / 10) / Pow10(k - 1)
  {
    DivDiv(r, 10, Pow10(k - 1));
  }

  // ------------------------------------------------------------ scanf

  /** isspace */
  predicate IsBlank(c: char) { c == ' ' || '\t' <= c <= '\r' }

  function SkipBlanks(s: string): (r: string)
    ensures |r| <= |s| && (r != "" ==> !IsBlank(r[0]))
  {
    if s != "" && IsBlank(s[0]) then SkipBlanks(s[1..]) else s
  }

  function SkipWord(s: string): string { if s != "" && !IsBlank(s[0]) then SkipWord(s[1..]) else s }

  datatype Item = Num | Lit(c: char) | Blank

  /** "%d": blanks, an optional sign and digits; the number and what follows it. */
  function ReadInt(s: string): Option<(int, string)> {
    var t := SkipBlanks(s);
    var signed := t != "" && (t[0] == '-' || t[0] == '+');
    var u := if signed then t[1..] else t;
    var i := Span(u);
    if i == 0 then None else Some((if signed && t[0] == '-' then -(Val(u[..i]) as int) else Val(u[..i]), u[i..]))
  }

  /** sscanf: the numbers converted before the first mismatch. */
  function Scan(fmt: seq<Item>, s: string): seq<int>
    decreases |fmt|
  {
    if fmt == [] then []
    else
      match fmt[0]
      case Num => (match ReadInt(s) case None => [] case Some((v, rest)) => [v] + Scan(fmt[1..], rest))
      case Lit(c) => if s != "" && s[0] == c then Scan(fmt[1..], s[1..]) else []
      case Blank => Scan(fmt[1..], SkipBlanks(s))
  }

  /** The format with a number before, between and after the given separators. */
  function Fmt(seps: string): seq<Item> {
    [Num] + if seps == "" then [] else [if seps[0] == ' ' then Blank else Lit(seps[0])] + Fmt(seps[1..])
  }

  // ------------------------------------------------------------ the result struct

  type Word = n: nat | n < 0x1_0000_0000

  /** (unsigned) of an int. */
  function U(n: int): Word { n % 0x1_0000_0000 }

  datatype Fields = Fields(year: Word, month: Word, day: Word, hours: Word, minutes: Word, seconds: Word,
                           fractions: Word,
                           timezone: string, hasDate: bool, hasTime: bool, hasTimezone: bool)

  const NO_FIELDS: Fields := Fields(0, 0, 0, 0, 0, 0, 0, "", false, false, false)

  function SetDate(f: Fields, y: int, mo: int, d: int): Fields { f.(year := U(y), month := U(mo), day := U(d)) }

  function SetTime(f: Fields, h: int, mi: int, s: int): Fields { f.(hours := U(h), minutes := U(mi), seconds := U(s)) }

  /** Two-digit years: 51..99 are in the 20th century, 0..50 in the 21st. */
  function Pivot(f: Fields): Fields {
    if f.year < 100 then f.(year := f.year + if f.year > 50 then 1900 else 2000) else f
  }

  predicate DateOk(f: Fields) { ValidDate(f.year, f.month, f.day) }

  predicate TimeOk(f: Fields) { RealTime(f.hours, f.minutes, f.seconds, f.fractions) }

  /** What a caller may rely on. */
  predicate Sound(f: Fields) {
    RealDate(f.year, f.month, f.day) && f.hasDate &&
    (f.hasTime ==> RealTime(f.hours, f.minutes, f.seconds, f.fractions))
  }

  /** Both halves valid: the flags are set. */
  function Accept(f: Fields): (r: (bool, Fields))
    ensures r.0 ==> Sound(r.1)
  {
    ValidDateIsReal(f.year, f.month, f.day);
    if DateOk(f) && TimeOk(f) then (true, f.(hasDate := true, hasTime := true)) else (false, f)
  }

  /** fbird_extract_timezone: what follows the last blank, if it looks like an offset or a zone name. */
  function Zone(f: Fields, s: string): Fields {
    var at := LastBlank(s);
    var tz := s[at..];
    if at <= 1 || |tz| >= 64 || !ZoneLike(tz) then f else f.(timezone := tz, hasTimezone := true)
  }

  /** The position after the last ' ', or 0. */
  function LastBlank(s: string): (i: nat)
    ensures i <= |s|
  {
    if s == "" then 0 else if s[|s| - 1] == ' ' then |s| else LastBlank(s[..|s| - 1])
  }

  predicate ZoneLike(tz: string) {
    tz != "" &&
    if tz[0] == '+' || tz[0] == '-' then |tz| >= 5
    else IsLetter(tz[0]) && |tz| >= 2 && forall c :: c in tz ==> IsLetter(c) || IsDigit(c) || c in "/_-"
  }

  predicate IsLetter(c: char) { 'A' <= c <= 'Z' || 'a' <= c <= 'z' }

  // ------------------------------------------------------------ what the parsers compute

  /** YYYY-MM-DD HH:MM:SS.FFFF */
  function IsoFormat(f: Fields, s: string): (r: (bool, Fields))
    ensures r.0 ==> Sound(r.1)
  {
    IsoNumbers(f, Scan(Fmt("-- ::."), s))
  }

  function IsoNumbers(f: Fields, v: seq<int>): (r: (bool, Fields))
    ensures r.0 ==> Sound(r.1)
  {
    if |v| < 6 || v[0] <= 100 then (false, f)
    else
      var g := SetTime(SetDate(f, v[0], v[1], v[2]), v[3], v[4], v[5]);
      Accept(if |v| == 7 && v[6] > 0 then g.(fractions := FractionWord(v[6])) else g)
  }

  function FractionWord(n: nat): (r: Word)
    ensures r <= 9999
  {
    FourDigitsIs(n);
    FourDigits(n)
  }

  /** YYYY-MM-DDTHH:MM:SS */
  function IsoTFormat(f: Fields, s: string): (r: (bool, Fields))
    ensures r.0 ==> Sound(r.1)
  {
    var v := Scan(Fmt("--T::"), s);
    if |v| < 6 || v[0] <= 100 then (false, f) else Accept(SetTime(SetDate(f, v[0], v[1], v[2]), v[3], v[4], v[5]))
  }

  /** DD.MM.YYYY HH:MM:SS */
  function EuroFormat(f: Fields, s: string): (r: (bool, Fields))
    ensures r.0 ==> Sound(r.1)
  {
    var v := Scan(Fmt(".. ::"), s);
    if |v| < 6 then (false, f) else Accept(SetTime(Pivot(SetDate(f, v[2], v[1], v[0])), v[3], v[4], v[5]))
  }

  /** MM/DD/YYYY HH:MM:SS */
  function UsFormat(f: Fields, s: string): (r: (bool, Fields))
    ensures r.0 ==> Sound(r.1)
  {
    var v := Scan(Fmt("// ::"), s);
    if |v| < 6 then (false, f) else Accept(SetTime(Pivot(SetDate(f, v[2], v[0], v[1])), v[3], v[4], v[5]))
  }

  function AcceptDate(f: Fields): (bool, Fields) { if DateOk(f) then (true, f.(hasDate := true)) else (false, f) }

  /** fbird_parse_date */
  function Date(str: string): (bool, Fields) {
    var s := SkipBlanks(str);
    if s == "" then (false, NO_FIELDS)
    else
      var a := Scan(Fmt("--"), s);
      var (ok1, f1) := if |a| == 3 && a[0] > 100 then AcceptDate(SetDate(NO_FIELDS, a[0], a[1], a[2]))
      else (false, NO_FIELDS);
      if ok1 then (true, f1)
      else
        var b := Scan(Fmt(".."), s);
        var (ok2, f2) := if |b| == 3 then AcceptDate(Pivot(SetDate(f1, b[2], b[1], b[0]))) else (false, f1);
        if ok2 then (true, f2)
        else
          var c := Scan(Fmt("//"), s);
          if |c| == 3 then AcceptDate(Pivot(SetDate(f2, c[2], c[0], c[1]))) else (false, f2)
  }

  /** fbird_parse_time: date and zone are left as they are. */
  function Time(f: Fields, str: string): (bool, Fields) {
    var g := f.(hours := 0, minutes := 0, seconds := 0, fractions := 0, hasTime := false);
    var s := SkipBlanks(str);
    if s == "" then (false, g)
    else
      var z := Zone(g, s);
      var v := Scan(Fmt("::."), s);
      if |v| < 3 then (false, z)
      else
        var h := SetTime(z, v[0], v[1], v[2]);
        var k := if |v| == 4 && v[3] > 0 then h.(fractions := FractionWord(v[3])) else h;
        if TimeOk(k) then (true, k.(hasTime := true)) else (false, k)
  }

  /** The four formats with date and time, each on what the ones before it left in the struct. */
  function Combined(s: string): (bool, Fields) {
    var (ok1, f1) := IsoFormat(Zone(NO_FIELDS, s), s);
    if ok1 then (true, f1)
    else
      var (ok2, f2) := IsoTFormat(f1, s);
      if ok2 then (true, f2)
      else
        var (ok3, f3) := EuroFormat(f2, s);
        if ok3 then (true, f3) else UsFormat(f3, s)
  }

  /** fbird_parse_timestamp */
  function Timestamp(str: string): (bool, Fields) {
    var s := SkipBlanks(str);
    if s == "" then (false, NO_FIELDS)
    else
      var (ok, f) := Combined(s);
      if ok then (true, f) else DateThenTime(s)
  }

  /** The fallback: a date, and a time after the first word if there is one; a bad time is no failure. */
  function DateThenTime(s: string): (bool, Fields) {
    var (ok, f) := Date(s);
    if !ok then (false, f)
    else
      var rest := SkipBlanks(SkipWord(s));
      (true, if rest == "" then f else Time(f, rest).1)
  }

  // ------------------------------------------------------------ the parsers

  class Components {
    var v: Fields

    constructor ()
      ensures v == NO_FIELDS
    {
      v := NO_FIELDS;
    }

    /** fbird_parse_date */
    method ParseDate(str: string) returns (ok: bool)
      modifies this
      ensures (ok, v) == Date(str)
    {
      v := NO_FIELDS;
      var s := SkipBlanks(str);
      if s == "" { return false; }
      var n := Scan(Fmt("--"), s);
      if |n| == 3 && n[0] > 100 {
        v := SetDate(v, n[0], n[1], n[2]);
        if DateOk(v) { v := v.(hasDate := true); return true; }
      }
      n := Scan(Fmt(".."), s);
      if |n| == 3 {
        v := Pivot(SetDate(v, n[2], n[1], n[0]));
        if DateOk(v) { v := v.(hasDate := true); return true; }
      }
      n := Scan(Fmt("//"), s);
      if |n| == 3 {
        v := Pivot(SetDate(v, n[2], n[0], n[1]));
        if DateOk(v) { v := v.(hasDate := true); return true; }
      }
      ok := false;
    }

    /** fbird_parse_time */
    method ParseTime(str: string) returns (ok: bool)
      modifies this
      ensures (ok, v) == Time(old(v), str)
    {
      v := v.(hours := 0, minutes := 0, seconds := 0, fractions := 0, hasTime := false);
      var s := SkipBlanks(str);
      if s == "" { return false; }
      v := Zone(v, s);
      var n := Scan(Fmt("::."), s);
      if |n| >= 3 {
        v := SetTime(v, n[0], n[1], n[2]);
        if |n| == 4 && n[3] > 0 {
          var frac := NormalizeFraction(n[3]);
          v := v.(fractions := frac);
        }
        if TimeOk(v) { v := v.(hasTime := true); return true; }
      }
      ok := false;
    }

    /** Whether both halves are valid; the flags are set if they are. */
    method AcceptBoth() returns (ok: bool)
      modifies this
      ensures (ok, v) == Accept(old(v))
    {
      ok := DateOk(v) && TimeOk(v);
      if ok { v := v.(hasDate := true, hasTime := true); }
    }

    method TryIso(s: string) returns (ok: bool)
      modifies this
      ensures (ok, v) == IsoFormat(old(v), s)
    {
      var n := Scan(Fmt("-- ::."), s);
      if |n| < 6 || n[0] <= 100 { return false; }
      v := SetTime(SetDate(v, n[0], n[1], n[2]), n[3], n[4], n[5]);
      if |n| == 7 && n[6] > 0 {
        var frac := NormalizeFraction(n[6]);
        v := v.(fractions := frac);
      }
      ok := AcceptBoth();
    }

    method TryIsoT(s: string) returns (ok: bool)
      modifies this
      ensures (ok, v) == IsoTFormat(old(v), s)
    {
      var n := Scan(Fmt("--T::"), s);
      if |n| < 6 || n[0] <= 100 { return false; }
      v := SetTime(SetDate(v, n[0], n[1], n[2]), n[3], n[4], n[5]);
      ok := AcceptBoth();
    }

    method TryEuro(s: string) returns (ok: bool)
      modifies this
      ensures (ok, v) == EuroFormat(old(v), s)
    {
      var n := Scan(Fmt(".. ::"), s);
      if |n| < 6 { return false; }
      v := SetTime(Pivot(SetDate(v, n[2], n[1], n[0])), n[3], n[4], n[5]);
      ok := AcceptBoth();
    }

    method TryUs(s: string) returns (ok: bool)
      modifies this
      ensures (ok, v) == UsFormat(old(v), s)
    {
      var n := Scan(Fmt("// ::"), s);
      if |n| < 6 { return false; }
      v := SetTime(Pivot(SetDate(v, n[2], n[0], n[1])), n[3], n[4], n[5]);
      ok := AcceptBoth();
    }

    /** fbird_parse_timestamp */
    method ParseTimestamp(str: string) returns (ok: bool)
      modifies this
      ensures (ok, v) == Timestamp(str)
    {
      hide IsoFormat, IsoTFormat, EuroFormat, UsFormat, Date, Time, Zone;
      v := NO_FIELDS;
      var s := SkipBlanks(str);
      if s == "" { return false; }
      v := Zone(v, s);
      ok := TryIso(s);
      if ok { return; }
      ok := TryIsoT(s);
      if ok { return; }
      ok := TryEuro(s);
      if ok { return; }
      ok := TryUs(s);
      if ok { return; }
      ok := ParseDate(s);
      if ok {
        var rest := SkipBlanks(SkipWord(s));
        if rest != "" { var timed := ParseTime(rest); }
      }
    }
  }

  // ------------------------------------------------------------ validity

  lemma DateIsReal(str: string)
    ensures var (ok, f) := Date(str); ok ==> Sound(f) && !f.hasTime
  {
    hide Scan;
    var f := Date(str).1;
    ValidDateIsReal(f.year, f.month, f.day);
  }

  /** A time that was accepted is a time of day, and the date is not touched. */
  lemma TimeIsReal(g: Fields, str: string)
    ensures var (ok, f) := Time(g, str);
            && (f.hasTime <==> ok) && (ok ==> RealTime(f.hours, f.minutes, f.seconds, f.fractions))
            && (f.year, f.month, f.day, f.hasDate) == (g.year, g.month, g.day, g.hasDate)
  {
    hide Scan, RealTime;
  }

  /** Success means a real date of the years 1 to 9999, and has_time a real time of day. */
  lemma TimestampIsReal(str: string)
    ensures var (ok, f) := Timestamp(str); ok ==> Sound(f)
  {
    hide IsoFormat, IsoTFormat, EuroFormat, UsFormat, Date, Time, Zone, RealTime, RealDate;
    var s := SkipBlanks(str);
    DateIsReal(s);
    TimeIsReal(Date(s).1, SkipBlanks(SkipWord(s)));
  }

  // ------------------------------------------------------------ a date with half a time

  /** The numbers of a time that is no time of day. */
  predicate NoTime(v: seq<int>) { |v| >= 3 && (U(v[0]) > 23 || U(v[1]) > 59 || U(v[2]) > 59) }

  /** What fbird_parse_timestamp reads as a time in a text that no combined format accepts. */
  function TimeText(s: string): seq<int> { Scan(Fmt("::."), SkipBlanks(SkipWord(s))) }

  lemma TimeRefused(g: Fields, str: string)
    requires str != "" && SkipBlanks(str) == str
    ensures var ((ok, f), v) := (Time(g, str), Scan(Fmt("::."), str));
            && (!ok <==> |v| < 3 || NoTime(v))
            && (RealTime(f.hours, f.minutes, f.seconds, f.fractions) <==> !NoTime(v))
  {
    hide Scan, LastBlank, ZoneLike;
  }

  lemma SkipTwice(s: string)
    ensures SkipBlanks(SkipBlanks(s)) == SkipBlanks(s)
  {}

  lemma CombinedHasTime(s: string)
    ensures var (ok, f) := Combined(s); ok ==> f.hasTime && RealTime(f.hours, f.minutes, f.seconds, f.fractions)
  {
    hide Scan, Zone, RealDate, RealTime, ValidDate;
  }

  /** When success means a date only, and when it leaves something in the struct that is no time of day: in a text
      no combined format accepts and whose start is a date, exactly when the rest holds no three numbers of a
      time, or numbers that are no time of day; in the second case they stay in the struct. */
  lemma DateOnlyExactly(str: string)
    ensures var ((ok, f), s) := (Timestamp(str), SkipBlanks(str));
            var (fallback, v) := (s != "" && !Combined(s).0 && Date(s).0, TimeText(s));
            && (ok && !f.hasTime <==> fallback && (|v| < 3 || NoTime(v)))
            && (ok && !RealTime(f.hours, f.minutes, f.seconds, f.fractions) <==> fallback && NoTime(v))
  {
    hide Combined, Date, Time, Scan, NoTime, RealTime, RealDate, Zone;
    var s := SkipBlanks(str);
    if s != "" {
      CombinedHasTime(s);
      DateIsReal(s);
      DateLeavesNoTime(s);
      var rest := SkipBlanks(SkipWord(s));
      SkipTwice(SkipWord(s));
      if rest != "" {
        TimeRefused(Date(s).1, rest);
        TimeIsReal(Date(s).1, rest);
      } else { NothingScanned(); }
    }
  }

  lemma NothingScanned()
    ensures Scan(Fmt("::."), "") == [] && !NoTime([])
  {}

  lemma DateLeavesNoTime(str: string)
    ensures var f := Date(str).1; RealTime(f.hours, f.minutes, f.seconds, f.fractions) && !f.hasTime
  {
    hide Scan;
  }

  // ------------------------------------------------------------ round trip

  /** Numbers with separators between them. */
  function Row(nums: seq<string>, seps: string): string
    requires |nums| == |seps| + 1
  {
    nums[0] + if seps == "" then "" else [seps[0]] + Row(nums[1..], seps[1..])
  }

  /** How many separators agree. */
  function Agree(a: string, b: string): (k: nat)
    ensures k <= |a| && k <= |b| && (k < |a| && k < |b| ==> a[k] != b[k])
  {
    if a == "" || b == "" || a[0] != b[0] then 0 else 1 + Agree(a[1..], b[1..])
  }

  predicate Numeral(s: string) { s != "" && AllDigits(s) }

  predicate Numerals(nums: seq<string>) { forall i :: 0 <= i < |nums| ==> Numeral(nums[i]) }

  function Vals(nums: seq<string>): (r: seq<int>)
    requires Numerals(nums)
    ensures |r| == |nums| && forall i :: 0 <= i < |nums| ==> r[i] == Val(nums[i])
  {
    if nums == [] then [] else [Val(nums[0])] + Vals(nums[1..])
  }

  lemma ReadsNumeral(a: string, rest: string)
    requires Numeral(a) && (rest != "" ==> !IsDigit(rest[0]))
    ensures ReadInt(a + rest) == Some((Val(a), rest))
  {
    assert a[0] in a;
    if rest == "" {
      assert a + rest == a;
      WholeSpan(a);
    } else { SpanIs(a, rest); }
    assert (a + rest)[..|a|] == a && (a + rest)[|a|..] == rest;
  }

  lemma {:induction false} WholeSpan(a: string)
    requires AllDigits(a)
    ensures Span(a) == |a|
  {
    if a != "" {
      assert a[0] in a;
      assert forall c :: c in a[1..] ==> c in a;
      WholeSpan(a[1..]);
    }
  }

  lemma ScansNumeral(fmt: seq<Item>, a: string, rest: string)
    requires Numeral(a) && (rest != "" ==> !IsDigit(rest[0]))
    ensures Scan([Num] + fmt, a + rest) == [Val(a)] + Scan(fmt, rest)
  {
    ReadsNumeral(a, rest);
    assert ([Num] + fmt)[1..] == fmt;
  }

  function ItemOf(c: char): Item { if c == ' ' then Blank else Lit(c) }

  /** A character that no number begins with. */
  predicate Breaks(c: char) { !IsBlank(c) && !IsDigit(c) && c != '-' && c != '+' }

  lemma ScansSeparator(fmt: seq<Item>, f: char, c: char, tail: string)
    requires tail != "" && IsDigit(tail[0]) && (f == c || f != ' ' || (Breaks(c) && fmt != [] && fmt[0].Num?))
    ensures Scan([ItemOf(f)] + fmt, [c] + tail) == if f == c then Scan(fmt, tail) else []
  {
    assert ([ItemOf(f)] + fmt)[1..] == fmt && ([c] + tail)[1..] == tail;
    if f == ' ' != c { assert SkipBlanks([c] + tail) == [c] + tail && Span([c] + tail) == 0; }
    if c == ' ' { assert SkipBlanks([c] + tail) == SkipBlanks(tail) == tail; }
  }

  /** A row is scanned as far as its separators are those of the format. */
  lemma {:induction false} ScansRow(nums: seq<string>, seps: string, fmt: string)
    requires |nums| == |seps| + 1 && Numerals(nums) && forall i :: 0 <= i < |seps| ==> !IsDigit(seps[i])
    requires var k := Agree(seps, fmt); k == |fmt| || k == |seps| || fmt[k] != ' ' || Breaks(seps[k])
    ensures Scan(Fmt(fmt), Row(nums, seps)) == Vals(nums[..Agree(seps, fmt) + 1])
    decreases |seps|
  {
    hide Numeral, IsDigit, Scan, SkipBlanks, ReadInt, Val;
    var (a, k) := (nums[0], Agree(seps, fmt));
    assert Numeral(a);
    var rest := if seps == "" then "" else [seps[0]] + Row(nums[1..], seps[1..]);
    assert seps != "" ==> rest[0] == seps[0];
    if fmt == "" {
      ScansNumeral([], a, rest);
      assert [Num] + [] == [Num] && nums[..1] == [a];
      EmptyScan(rest);
    } else {
      var more := Fmt(fmt[1..]);
      ScansNumeral([ItemOf(fmt[0])] + more, a, rest);
      assert Fmt(fmt) == [Num] + ([ItemOf(fmt[0])] + more);
      if seps == "" {
        ScansEnd(fmt[0], fmt[1..]);
        assert nums[..1] == [a];
        return;
      }
      assert Numeral(nums[1]);
      RowStarts(nums[1..], seps[1..]);
      ScansSeparator(more, fmt[0], seps[0], Row(nums[1..], seps[1..]));
      if k == 0 { assert nums[..1] == [a]; }
      else {
        assert forall i :: 0 <= i < |seps| - 1 ==> seps[1..][i] == seps[i + 1];
        ScansRow(nums[1..], seps[1..], fmt[1..]);
        assert nums[..k + 1] == [a] + nums[1..][..k] && nums[..k + 1][1..] == nums[1..][..k];
      }
    }
  }

  /** At the end of the text no separator is found, and no number after a blank. */
  lemma ScansEnd(c: char, seps: string)
    ensures Scan([ItemOf(c)] + Fmt(seps), "") == []
  {
    assert ([ItemOf(c)] + Fmt(seps))[1..] == Fmt(seps);
    assert Scan(Fmt(seps), "") == [];
  }

  lemma EmptyScan(s: string)
    ensures Scan([], s) == []
  {}

  lemma RowStarts(nums: seq<string>, seps: string)
    requires |nums| == |seps| + 1 && Numeral(nums[0])
    ensures Row(nums, seps) != "" && IsDigit(Row(nums, seps)[0])
  {
    assert nums[0][0] in nums[0];
  }

  /** "%04d-%02d-%02d %02d:%02d:%02d.%04d" */
  function Print(y: nat, mo: nat, d: nat, h: nat, mi: nat, s: nat, f: nat): string {
    Row(Parts(y, mo, d, h, mi, s, f), "-- ::.")
  }

  function Parts(y: nat, mo: nat, d: nat, h: nat, mi: nat, s: nat, f: nat): seq<string> {
    [Pad(y, 4), Pad(mo, 2), Pad(d, 2), Pad(h, 2), Pad(mi, 2), Pad(s, 2), Pad(f, 4)]
  }

  lemma PartsAreNumerals(y: nat, mo: nat, d: nat, h: nat, mi: nat, s: nat, f: nat)
    ensures var p := Parts(y, mo, d, h, mi, s, f); Numerals(p) && Vals(p) == [y, mo, d, h, mi, s, f]
  {
    hide Pad, Vals, AllDigits, Val;
    PadNumeral(y, 4); PadNumeral(mo, 2); PadNumeral(d, 2); PadNumeral(h, 2); PadNumeral(mi, 2); PadNumeral(s, 2);
        PadNumeral(f, 4);
    var p := Parts(y, mo, d, h, mi, s, f);
    assert Numerals(p);
    assert Vals(p) == [y, mo, d, h, mi, s, f];
  }

  lemma PadNumeral(n: nat, w: nat)
    ensures Numeral(Pad(n, w)) && Val(Pad(n, w)) == n
  {
    PadVal(n, w);
  }

  /** How each format fares on printed text. */
  lemma ScansPrinted(y: nat, mo: nat, d: nat, h: nat, mi: nat, s: nat, f: nat)
    ensures var t := Print(y, mo, d, h, mi, s, f);
            && t != "" && IsDigit(t[0])
            && Scan(Fmt("-- ::."), t) == [y, mo, d, h, mi, s, f]
            && |Scan(Fmt("--T::"), t)| == 3 && |Scan(Fmt(".. ::"), t)| == 1 && |Scan(Fmt("// ::"), t)| == 1
            && Scan(Fmt("--"), t) == [y, mo, d] && |Scan(Fmt(".."), t)| == 1 && |Scan(Fmt("//"), t)| == 1
  {
    hide Fmt, Agree, Scan, Row, Vals, Pad;
    var p := Parts(y, mo, d, h, mi, s, f);
    PartsAreNumerals(y, mo, d, h, mi, s, f);
    assert Numeral(p[0]);
    Agreements();
    hide Parts, Numerals, Numeral;
    RowStarts(p, "-- ::.");
    assert p[..7] == p;
    ScansRow(p, "-- ::.", "-- ::.");
    ScansRow(p, "-- ::.", "--T::");
    ScansRow(p, "-- ::.", ".. ::");
    ScansRow(p, "-- ::.", "// ::");
    ScansRow(p, "-- ::.", "--");
    ScansRow(p, "-- ::.", "..");
    ScansRow(p, "-- ::.", "//");
  }

  lemma Agreements()
    ensures Agree("-- ::.", "-- ::.") == 6 && Agree("-- ::.", "--") == 2 && Agree("-- ::.", "--T::") == 2
    ensures Agree("-- ::.", ".. ::") == 0 && Agree("-- ::.", "// ::") == 0
    ensures Agree("-- ::.", "..") == 0 && Agree("-- ::.", "//") == 0
  {
    assert "-- ::."[1..] == "- ::." && "- ::."[1..] == " ::." && " ::."[1..] == "::." && "::."[1..] == ":." &&
           ":."[1..] == "." && "."[1..] == "";
    assert "--"[1..] == "-" && "-"[1..] == "" && "--T::"[1..] == "-T::" && "-T::"[1..] == "T::";
    assert Agree(":.", ":.") == 2;
    assert Agree(" ::.", " ::.") == 4;
  }

  /** The only blank stands in front of the hours, so there is no time zone. */
  lemma NoZone(y: nat, mo: nat, d: nat, h: nat, mi: nat, s: nat, f: nat)
    ensures Zone(NO_FIELDS, Print(y, mo, d, h, mi, s, f)) == NO_FIELDS
  {
    hide Pad, Row, ZoneLike, LastBlank, Vals, Zone;
    var p := Parts(y, mo, d, h, mi, s, f);
    PartsAreNumerals(y, mo, d, h, mi, s, f);
    assert Numeral(p[3]);
    hide Parts, Numeral;
    var date := p[0] + "-" + p[1] + "-" + p[2];
    RowSplits(p);
    RowStarts(p[3..], "::.");
    TimeHasNoBlank(p[3..]);
    NotAZone(date, Row(p[3..], "::."));
  }

  lemma NotAZone(date: string, time: string)
    requires ' ' !in time && time != "" && IsDigit(time[0])
    ensures Zone(NO_FIELDS, date + (" " + time)) == NO_FIELDS
  {
    hide LastBlank;
    LastBlankIs(date, time);
    assert (date + (" " + time))[|date| + 1..] == time;
  }

  lemma RowSplits(p: seq<string>)
    requires |p| == 7
    ensures Row(p, "-- ::.") == (p[0] + "-" + p[1] + "-" + p[2]) + (" " + Row(p[3..], "::."))
  {
    assert p[1..][1..] == p[2..] && p[2..][1..] == p[3..];
    assert "- ::."[1..] == " ::." && "-- ::."[1..] == "- ::." && " ::."[1..] == "::.";
    var r := Row(p[3..], "::.");
    assert Row(p[2..], " ::.") == p[2] + (" " + r);
    assert Row(p[1..], "- ::.") == p[1] + ("-" + (p[2] + (" " + r)));
    assert Row(p, "-- ::.") == p[0] + ("-" + (p[1] + ("-" + (p[2] + (" " + r)))));
    hide Row;
    Regroup(p[0], p[1], p[2], r);
  }

  lemma Regroup(a: string, b: string, c: string, r: string)
    ensures a + ("-" + (b + ("-" + (c + (" " + r))))) == (a + "-" + b + "-" + c) + (" " + r)
  {}

  lemma TimeHasNoBlank(p: seq<string>)
    requires |p| == 4 && Numerals(p)
    ensures ' ' !in Row(p, "::.")
  {
    assert Numeral(p[0]) && Numeral(p[1]) && Numeral(p[2]) && Numeral(p[3]);
    assert Row(p[3..], "") == p[3];
    assert Row(p[2..], ".") == p[2] + ("." + Row(p[3..], ""));
    assert Row(p[1..], ":.") == p[1] + (":" + Row(p[2..], "."));
    assert Row(p, "::.") == p[0] + (":" + Row(p[1..], ":."));
  }

  lemma {:induction false} LastBlankIs(a: string, b: string)
    requires ' ' !in b
    ensures LastBlank(a + (" " + b)) == |a| + 1
  {
    var s := a + (" " + b);
    if b == "" { assert s[|s| - 1] == ' '; }
    else {
      assert b[|b| - 1] in b && s[|s| - 1] == b[|b| - 1];
      assert s[..|s| - 1] == a + (" " + b[..|b| - 1]);
      LastBlankIs(a, b[..|b| - 1]);
    }
  }

  /** Printed text is parsed again from year 101 on, with the fraction brought to four digits, and refused
      for the years before. */
  lemma PrintedText(y: nat, mo: nat, d: nat, h: nat, mi: nat, s: nat, f: nat)
    requires RealDate(y, mo, d) && RealTime(h, mi, s, f)
    ensures var (ok, r) := Timestamp(Print(y, mo, d, h, mi, s, f));
            && (ok <==> y > 100)
            && (ok ==> r == Fields(y, mo, d, h, mi, s, FractionWord(f), "", true, true, false))
  {
    hide Scan, Fmt, Print, RealDate, RealTime, Zone, IsoFormat, IsoTFormat, EuroFormat, UsFormat, Date, DateThenTime,
         FractionWord, Sound;
    var t := Print(y, mo, d, h, mi, s, f);
    ScansPrinted(y, mo, d, h, mi, s, f);
    NoZone(y, mo, d, h, mi, s, f);
    StartsWithDigit(t);
    PrintedIso(y, mo, d, h, mi, s, f);
    if y <= 100 { PrintedElse(y, mo, d, h, mi, s, f); }
  }

  lemma StartsWithDigit(t: string)
    requires t != "" && IsDigit(t[0])
    ensures SkipBlanks(t) == t
  {}

  lemma PrintedIso(y: nat, mo: nat, d: nat, h: nat, mi: nat, s: nat, f: nat)
    requires RealDate(y, mo, d) && RealTime(h, mi, s, f)
    ensures IsoFormat(NO_FIELDS, Print(y, mo, d, h, mi, s, f)) ==
              if y > 100 then (true, Fields(y, mo, d, h, mi, s, FractionWord(f), "", true, true, false))
              else (false, NO_FIELDS)
  {
    hide IsoNumbers, Scan, Fmt, Print, RealDate, RealTime, FractionWord;
    ScansPrinted(y, mo, d, h, mi, s, f);
    NumbersAccepted(y, mo, d, h, mi, s, f);
  }

  lemma NumbersAccepted(y: nat, mo: nat, d: nat, h: nat, mi: nat, s: nat, f: nat)
    requires RealDate(y, mo, d) && RealTime(h, mi, s, f)
    ensures IsoNumbers(NO_FIELDS, [y, mo, d, h, mi, s, f]) ==
              if y > 100 then (true, Fields(y, mo, d, h, mi, s, FractionWord(f), "", true, true, false))
              else (false, NO_FIELDS)
  {
    var v := [y, mo, d, h, mi, s, f];
    assert v[0] == y && v[1] == mo && v[2] == d && v[3] == h && v[4] == mi && v[5] == s && v[6] == f;
    NumbersSet(y, mo, d, h, mi, s);
    RealAccepted(y, mo, d, h, mi, s, FractionWord(f));
    ZeroFraction();
    hide SetDate, SetTime, Accept, RealDate, RealTime, FractionWord;
  }

  lemma ZeroFraction()
    ensures FractionWord(0) == 0
  {}

  lemma NumbersSet(y: nat, mo: nat, d: nat, h: nat, mi: nat, s: nat)
    requires y <= 9999 && mo <= 12 && d <= 31 && h <= 23 && mi <= 59 && s <= 59
    ensures SetTime(SetDate(NO_FIELDS, y, mo, d), h, mi, s) == Fields(y, mo, d, h, mi, s, 0, "", false, false, false)
  {}

  lemma RealAccepted(y: nat, mo: nat, d: nat, h: nat, mi: nat, s: nat, f: Word)
    requires RealDate(y, mo, d) && RealTime(h, mi, s, 0) && f <= 9999
    ensures Accept(Fields(y, mo, d, h, mi, s, f, "", false, false, false)) ==
              (true, Fields(y, mo, d, h, mi, s, f, "", true, true, false))
  {
    ValidDateIsReal(y, mo, d);
  }

  lemma PrintedElse(y: nat, mo: nat, d: nat, h: nat, mi: nat, s: nat, f: nat)
    requires y <= 100
    ensures var t := Print(y, mo, d, h, mi, s, f);
            && IsoTFormat(NO_FIELDS, t) == EuroFormat(NO_FIELDS, t) == UsFormat(NO_FIELDS, t) == (false, NO_FIELDS)
            && !Date(t).0 && !DateThenTime(t).0
  {
    ScansPrinted(y, mo, d, h, mi, s, f);
    hide Scan, Fmt, Print;
  }

  /** Printing and parsing is the identity exactly for years above 100 and fractions that are 0 or have four
      digits. */
  lemma RoundTrip(y: nat, mo: nat, d: nat, h: nat, mi: nat, s: nat, f: nat)
    requires RealDate(y, mo, d) && RealTime(h, mi, s, f)
    ensures (Timestamp(Print(y, mo, d, h, mi, s, f)) == (true, Fields(y, mo, d, h, mi, s, f, "", true, true, false)))
              <==> (y > 100 && (f == 0 || f >= 1000))
  {
    PrintedText(y, mo, d, h, mi, s, f);
    FourDigitsIs(f);
    hide Timestamp, Print;
  }

  // ------------------------------------------------------------ a time that is refused and stays

  function ShortParts(y: nat, mo: nat, d: nat, h: nat, mi: nat, s: nat): seq<string> {
    [Pad(y, 4), Pad(mo, 2), Pad(d, 2), Pad(h, 2), Pad(mi, 2), Pad(s, 2)]
  }

  /** "%04d-%02d-%02d %02d:%02d:%02d" */
  function PrintShort(y: nat, mo: nat, d: nat, h: nat, mi: nat, s: nat): string {
    Row(ShortParts(y, mo, d, h, mi, s), "-- ::")
  }

  lemma ShortAgreements()
    ensures Agree("-- ::", "-- ::.") == 5 && Agree("-- ::", "--") == 2 && Agree("-- ::", "--T::") == 2
    ensures Agree("-- ::", ".. ::") == 0 && Agree("-- ::", "// ::") == 0 && Agree("::", "::.") == 2
  {
    assert "-- ::"[1..] == "- ::" && "- ::"[1..] == " ::" && " ::"[1..] == "::" && "::"[1..] == ":" && ":"[1..] == "";
    assert "-- ::."[1..] == "- ::." && "- ::."[1..] == " ::." && " ::."[1..] == "::." && "::."[1..] == ":." &&
           ":."[1..] == ".";
    assert "--"[1..] == "-" && "-"[1..] == "" && "--T::"[1..] == "-T::" && "-T::"[1..] == "T::";
    assert Agree(":", ":.") == 1;
    assert Agree(" ::", " ::.") == 3;
  }

  lemma ShortNumerals(y: nat, mo: nat, d: nat, h: nat, mi: nat, s: nat)
    ensures var p := ShortParts(y, mo, d, h, mi, s);
            Numerals(p) && Vals(p) == [y, mo, d, h, mi, s] && Numerals(p[3..]) && Vals(p[3..]) == [h, mi, s]
  {
    hide Pad, Vals, AllDigits, Val;
    PadNumeral(y, 4); PadNumeral(mo, 2); PadNumeral(d, 2); PadNumeral(h, 2); PadNumeral(mi, 2); PadNumeral(s, 2);
    var p := ShortParts(y, mo, d, h, mi, s);
    assert Numerals(p);
    assert Vals(p) == [y, mo, d, h, mi, s];
    assert Vals(p[3..]) == [h, mi, s];
  }

  lemma ScansShort(y: nat, mo: nat, d: nat, h: nat, mi: nat, s: nat)
    ensures var (t, p) := (PrintShort(y, mo, d, h, mi, s), ShortParts(y, mo, d, h, mi, s));
            && t != "" && IsDigit(t[0]) && Scan(Fmt("-- ::."), t) == [y, mo, d, h, mi, s]
            && |Scan(Fmt("--T::"), t)| == 3 && |Scan(Fmt(".. ::"), t)| == 1 && |Scan(Fmt("// ::"), t)| == 1
            && Scan(Fmt("--"), t) == [y, mo, d]
            && Scan(Fmt("::."), Row(p[3..], "::")) == [h, mi, s]
  {
    hide Fmt, Agree, Scan, Row, Vals, Pad;
    var p := ShortParts(y, mo, d, h, mi, s);
    ShortNumerals(y, mo, d, h, mi, s);
    assert Numeral(p[0]);
    ShortAgreements();
    hide ShortParts, Numerals, Numeral;
    RowStarts(p, "-- ::");
    assert p[..6] == p && p[3..][..3] == p[3..];
    ScansRow(p, "-- ::", "-- ::.");
    ScansRow(p, "-- ::", "--T::");
    ScansRow(p, "-- ::", ".. ::");
    ScansRow(p, "-- ::", "// ::");
    ScansRow(p, "-- ::", "--");
    ScansRow(p[3..], "::", "::.");
  }

  /** No combined format takes a time that is none. */
  lemma ShortNotCombined(y: nat, mo: nat, d: nat, h: Word, mi: Word, s: Word)
    requires h > 23 || mi > 59 || s > 59
    ensures !Combined(PrintShort(y, mo, d, h, mi, s)).0
  {
    hide Fmt, Scan, PrintShort, Zone;
    ScansShort(y, mo, d, h, mi, s);
    forall f ensures !IsoNumbers(f, [y, mo, d, h, mi, s]).0 { BadNumbers(f, y, mo, d, h, mi, s); }
    hide IsoNumbers;
  }

  lemma BadNumbers(f: Fields, y: nat, mo: nat, d: nat, h: Word, mi: Word, s: Word)
    requires h > 23 || mi > 59 || s > 59
    ensures !IsoNumbers(f, [y, mo, d, h, mi, s]).0
  {
    var v := [y, mo, d, h, mi, s];
    assert v[3] == h && v[4] == mi && v[5] == s;
  }

  /** The date is taken by itself. */
  lemma ShortDate(y: nat, mo: nat, d: nat, h: nat, mi: nat, s: nat)
    requires RealDate(y, mo, d) && y > 100
    ensures Date(PrintShort(y, mo, d, h, mi, s)) == (true, Fields(y, mo, d, 0, 0, 0, 0, "", true, false, false))
  {
    hide Fmt, Scan, PrintShort, Date, SkipBlanks;
    ScansShort(y, mo, d, h, mi, s);
    StartsWithDigit(PrintShort(y, mo, d, h, mi, s));
    DateTaken(PrintShort(y, mo, d, h, mi, s), y, mo, d);
  }

  lemma DateAccepted(y: nat, mo: nat, d: nat)
    requires RealDate(y, mo, d)
    ensures AcceptDate(SetDate(NO_FIELDS, y, mo, d)) == (true, Fields(y, mo, d, 0, 0, 0, 0, "", true, false, false))
  {
    hide RealDate;
    ValidDateIsReal(y, mo, d);
  }

  lemma DateTaken(str: string, y: nat, mo: nat, d: nat)
    requires SkipBlanks(str) == str != "" && Scan(Fmt("--"), str) == [y, mo, d] && RealDate(y, mo, d) && y > 100
    ensures Date(str) == (true, Fields(y, mo, d, 0, 0, 0, 0, "", true, false, false))
  {
    hide Fmt, Scan, SkipBlanks, Pivot, RealDate, AcceptDate, SetDate;
    DateAccepted(y, mo, d);
  }

  lemma {:induction false} SkipWordIs(a: string, b: string)
    requires forall c :: c in a ==> !IsBlank(c)
    ensures SkipWord(a + (" " + b)) == " " + b
  {
    if a == "" { assert a + (" " + b) == " " + b; }
    else {
      assert a[0] in a && (a + (" " + b))[1..] == a[1..] + (" " + b);
      SkipWordIs(a[1..], b);
    }
  }

  lemma ShortSplits(p: seq<string>)
    requires |p| == 6
    ensures Row(p, "-- ::") == (p[0] + "-" + p[1] + "-" + p[2]) + (" " + Row(p[3..], "::"))
  {
    assert p[1..][1..] == p[2..] && p[2..][1..] == p[3..];
    assert "- ::"[1..] == " ::" && "-- ::"[1..] == "- ::" && " ::"[1..] == "::";
    var r := Row(p[3..], "::");
    assert Row(p[2..], " ::") == p[2] + (" " + r);
    assert Row(p[1..], "- ::") == p[1] + ("-" + (p[2] + (" " + r)));
    assert Row(p, "-- ::") == p[0] + ("-" + (p[1] + ("-" + (p[2] + (" " + r)))));
    hide Row;
    Regroup(p[0], p[1], p[2], r);
  }

  lemma NumeralsAreNoBlanks(a: string, b: string, c: string)
    requires Numeral(a) && Numeral(b) && Numeral(c)
    ensures forall x :: x in a + "-" + b + "-" + c ==> !IsBlank(x)
  {}

  /** What stands after the date. */
  lemma ShortRest(y: nat, mo: nat, d: nat, h: nat, mi: nat, s: nat)
    ensures var rest := SkipBlanks(SkipWord(PrintShort(y, mo, d, h, mi, s)));
            rest != "" && IsDigit(rest[0]) && ' ' !in rest && rest == Row(ShortParts(y, mo, d, h, mi, s)[3..], "::")
  {
    hide Pad, Row, Vals;
    var p := ShortParts(y, mo, d, h, mi, s);
    ShortNumerals(y, mo, d, h, mi, s);
    assert Numeral(p[0]) && Numeral(p[1]) && Numeral(p[2]) && Numeral(p[3]);
    hide ShortParts, Numeral, Numerals;
    ShortSplits(p);
    NumeralsAreNoBlanks(p[0], p[1], p[2]);
    SkipWordIs(p[0] + "-" + p[1] + "-" + p[2], Row(p[3..], "::"));
    RowStarts(p[3..], "::");
    ShortTimeHasNoBlank(p[3..]);
    BlankBefore(Row(p[3..], "::"));
  }

  lemma BlankBefore(b: string)
    requires b != "" && IsDigit(b[0])
    ensures SkipBlanks(" " + b) == b
  {
    assert (" " + b)[1..] == b;
  }

  lemma ShortTimeHasNoBlank(p: seq<string>)
    requires |p| == 3 && Numerals(p)
    ensures ' ' !in Row(p, "::")
  {
    assert Numeral(p[0]) && Numeral(p[1]) && Numeral(p[2]);
    assert "::"[1..] == ":" && ":"[1..] == "";
    assert Row(p[2..], "") == p[2];
    assert Row(p[1..], ":") == p[1] + (":" + Row(p[2..], ""));
    assert Row(p, "::") == p[0] + (":" + Row(p[1..], ":"));
  }

  lemma {:induction false} NoBlankAtAll(s: string)
    requires ' ' !in s
    ensures LastBlank(s) == 0
  {
    if s != "" {
      assert s[|s| - 1] in s;
      NoBlankAtAll(s[..|s| - 1]);
    }
  }

  /** A real date with a time that is none: the call succeeds, says that there is no time, and leaves the refused
      one in the struct. */
  lemma RefusedTimeStays(y: nat, mo: nat, d: nat, h: Word, mi: Word, s: Word)
    requires RealDate(y, mo, d) && y > 100 && (h > 23 || mi > 59 || s > 59)
    ensures Timestamp(PrintShort(y, mo, d, h, mi, s)) == (true, Fields(y, mo, d, h, mi, s, 0, "", true, false, false))
  {
    hide Fmt, Scan, PrintShort, Combined, Date, Time;
    var t := PrintShort(y, mo, d, h, mi, s);
    ScansShort(y, mo, d, h, mi, s);
    StartsWithDigit(t);
    ShortNotCombined(y, mo, d, h, mi, s);
    ShortDate(y, mo, d, h, mi, s);
    ShortRest(y, mo, d, h, mi, s);
    RestRefused(y, mo, d, h, mi, s, SkipBlanks(SkipWord(t)));
  }

  lemma RestRefused(y: nat, mo: nat, d: nat, h: Word, mi: Word, s: Word, rest: string)
    requires RealDate(y, mo, d) && (h > 23 || mi > 59 || s > 59)
    requires rest != "" && IsDigit(rest[0]) && ' ' !in rest && Scan(Fmt("::."), rest) == [h, mi, s]
    ensures Time(Fields(y, mo, d, 0, 0, 0, 0, "", true, false, false), rest) ==
              (false, Fields(y, mo, d, h, mi, s, 0, "", true, false, false))
  {
    hide Scan, Fmt;
    StartsWithDigit(rest);
    NoBlankAtAll(rest);
  }

  /** For example an hour of 25. */
  lemma HourOf25()
    ensures var (ok, f) := Timestamp("2024-02-29 25:00:00"); ok && f.hasDate && !f.hasTime && f.hours == 25
  {
    hide Timestamp;
    RefusedTimeStays(2024, 2, 29, 25, 0, 0);
    Feb29();
  }

  lemma Feb29()
    ensures PrintShort(2024, 2, 29, 25, 0, 0) == "2024-02-29 25:00:00"
  {
    Padded();
    hide Pad, Row;
    var p := ShortParts(2024, 2, 29, 25, 0, 0);
    ShortSplits(p);
    assert p[3..] == ["25", "00", "00"];
    TimeRow();
  }

  lemma Padded()
    ensures Pad(2024, 4) == "2024" && Pad(2, 2) == "02" && Pad(29, 2) == "29" && Pad(25, 2) == "25" && Pad(0, 2) == "00"
  {
    assert Dec(2) == "2" && Dec(0) == "0" && Dec(20) == "20" && Dec(202) == "202";
    assert Zeros(0) == "" && Zeros(1) == "0";
  }

  lemma TimeRow()
    ensures Row(["25", "00", "00"], "::") == "25:00:00"
  {
    assert ["25", "00", "00"][1..] == ["00", "00"] && ["00", "00"][1..] == ["00"] && "::"[1..] == ":" && ":"[1..] == "";
    assert Row(["00"], "") == "00";
    assert Row(["00", "00"], ":") == "00:00";
  }
}
