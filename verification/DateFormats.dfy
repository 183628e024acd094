/** What the formats of fbird_datetime.c mean: text in each of them, with the time or alone and with years of two
    digits or more, is read as the date and time it stands for, and refused when there is no such date. */
module DateFormats {
  import opened Decimal
  import opened DateTime

  /** The year that a number in DD.MM.YYYY or MM/DD/YYYY means. */
  function FullYear(y: nat): (r: nat)
    ensures y <= 50 ==> r == 2000 + y
    ensures 51 <= y <= 99 ==> r == 1900 + y
    ensures 100 <= y ==> r == y
  {
    if y > 99 then y else if y > 50 then 1900 + y else 2000 + y
  }

  /** A date alone, and a date with a time of day. */
  function Day(y: Word, mo: Word, d: Word): Fields { Fields(y, mo, d, 0, 0, 0, 0, "", true, false, false) }

  function Moment(y: Word, mo: Word, d: Word, h: Word, mi: Word, s: Word): Fields {
    Fields(y, mo, d, h, mi, s, 0, "", true, true, false)
  }

  // ------------------------------------------------------------ scanning

  lemma {:induction false} AgreePrefix(a: string, b: string)
    ensures Agree(a + b, a) == |a| && Agree(a, a + b) == |a|
  {
    if a == "" { assert a + b == b; }
    else {
      assert (a + b)[0] == a[0] && (a + b)[1..] == a[1..] + b;
      AgreePrefix(a[1..], b);
    }
  }

  /** A row of numbers under a format that begins with its separators. */
  lemma ScansAll(p: seq<string>, seps: string, more: string)
    requires |p| == |seps| + 1 && Numerals(p) && forall i :: 0 <= i < |seps| ==> !IsDigit(seps[i])
    ensures Scan(Fmt(seps + more), Row(p, seps)) == Vals(p)
  {
    hide Scan, Fmt, Row, Vals, Numerals, IsDigit;
    AgreePrefix(seps, more);
    ScansRow(p, seps, seps + more);
    assert p[..|p|] == p;
  }

  /** And under one that is the beginning of its separators. */
  lemma ScansFront(p: seq<string>, seps: string, more: string)
    requires |p| == |seps| + |more| + 1 && Numerals(p) && forall c :: c in seps + more ==> !IsDigit(c)
    ensures Scan(Fmt(seps), Row(p, seps + more)) == Vals(p[..|seps| + 1])
  {
    hide Scan, Fmt, Row, Vals, IsDigit;
    AgreePrefix(seps, more);
    forall i | 0 <= i < |seps + more| ensures !IsDigit((seps + more)[i]) { assert (seps + more)[i] in seps + more; }
    ScansRow(p, seps + more, seps);
  }

  /** Under a format with another first separator only the first number is converted. */
  lemma ScansOne(p: seq<string>, seps: string, fmt: string)
    requires |p| == |seps| + 1 && Numerals(p) && forall i :: 0 <= i < |seps| ==> !IsDigit(seps[i])
    requires seps != "" && fmt != "" && fmt[0] != seps[0] && fmt[0] != ' '
    ensures |Scan(Fmt(fmt), Row(p, seps))| == 1
  {
    hide Scan, Fmt, Row, Vals, Numerals, IsDigit;
    assert Agree(seps, fmt) == 0;
    ScansRow(p, seps, fmt);
  }

  lemma Digits(p: seq<string>, seps: string)
    requires |p| == |seps| + 1 && Numerals(p)
    ensures Row(p, seps) != "" && IsDigit(Row(p, seps)[0]) && SkipBlanks(Row(p, seps)) == Row(p, seps)
  {
    assert Numeral(p[0]);
    hide Row;
    RowStarts(p, seps);
    StartsWithDigit(Row(p, seps));
  }

  // ------------------------------------------------------------ where the blanks are

  lemma {:induction false} RowBlanks(p: seq<string>, seps: string, c: char)
    requires |p| == |seps| + 1 && Numerals(p) && !IsDigit(c) && c !in seps
    ensures c !in Row(p, seps)
    decreases |seps|
  {
    hide Numeral, IsDigit;
    NumeralLacks(p[0], c);
    if seps != "" {
      forall i | 0 <= i < |p| - 1 ensures Numeral(p[1..][i]) { assert p[1..][i] == p[i + 1]; }
      assert seps == [seps[0]] + seps[1..];
      RowBlanks(p[1..], seps[1..], c);
      LackBoth(p[0], seps[0], Row(p[1..], seps[1..]), c);
    }
  }

  lemma NumeralLacks(a: string, c: char)
    requires Numeral(a) && !IsDigit(c)
    ensures c !in a
  {}

  lemma LackBoth(a: string, s: char, b: string, c: char)
    requires c !in a && c != s && c !in b
    ensures c !in a + ([s] + b)
  {}

  /** A row with a blank among its separators is two rows. */
  lemma {:induction false} RowAtBlank(p: seq<string>, a: string, b: string)
    requires |p| == |a| + |b| + 2
    ensures Row(p, a + (" " + b)) == Row(p[..|a| + 1], a) + (" " + Row(p[|a| + 1..], b))
    decreases |a|
  {
    var seps := a + (" " + b);
    var tail := Row(p[|a| + 1..], b);
    if a == "" {
      assert seps[1..] == b && seps[0] == ' ' && p[..1] == [p[0]];
      assert Row([p[0]], "") == p[0];
      assert Row(p, seps) == p[0] + ([' '] + tail);
    } else {
      assert seps[1..] == a[1..] + (" " + b) && seps[0] == a[0];
      RowAtBlank(p[1..], a[1..], b);
      assert p[1..][..|a|] == p[..|a| + 1][1..] && p[1..][|a|..] == p[|a| + 1..];
      var front := Row(p[..|a| + 1][1..], a[1..]);
      assert Row(p, seps) == p[0] + ([a[0]] + (front + (" " + tail)));
      assert p[0] + ([a[0]] + (front + (" " + tail))) == (p[0] + ([a[0]] + front)) + (" " + tail);
    }
  }

  /** No number looks like a time zone. */
  lemma RowNoZone(f: Fields, p: seq<string>, a: string, b: string)
    requires |p| == |a| + |b| + 2 && Numerals(p) && ' ' !in b
    ensures Zone(f, Row(p, a + (" " + b))) == f
  {
    hide Row, LastBlank, Zone;
    RowAtBlank(p, a, b);
    var rest := p[|a| + 1..];
    forall i | 0 <= i < |rest| ensures Numeral(rest[i]) { assert rest[i] == p[|a| + 1 + i]; }
    RowBlanks(rest, b, ' ');
    RowStarts(rest, b);
    NumberIsNoZone(f, Row(p[..|a| + 1], a), Row(rest, b));
  }

  lemma NumberIsNoZone(f: Fields, date: string, time: string)
    requires ' ' !in time && time != "" && IsDigit(time[0])
    ensures Zone(f, date + (" " + time)) == f
  {
    hide LastBlank;
    LastBlankIs(date, time);
    assert (date + (" " + time))[|date| + 1..] == time;
  }

  lemma NoBlankNoZone(f: Fields, s: string)
    requires ' ' !in s
    ensures Zone(f, s) == f
  {
    NoBlankAtAll(s);
  }

  // ------------------------------------------------------------ dates and times as the struct takes them

  /** A date and a time of day that have been converted. */
  lemma Accepted(y: Word, mo: Word, d: Word, h: Word, mi: Word, s: Word)
    requires RealTime(h, mi, s, 0)
    ensures var r := Accept(SetTime(Pivot(SetDate(NO_FIELDS, y, mo, d)), h, mi, s));
            && (r.0 <==> RealDate(FullYear(y), mo, d))
            && (r.0 ==> r.1 == Moment(FullYear(y), mo, d, h, mi, s))
  {
    ValidDateIsReal(FullYear(y), mo, d);
    hide RealDate, DaysInMonth;
  }

  lemma DayAccepted(f: Fields, y: Word, mo: Word, d: Word)
    ensures var r := AcceptDate(Pivot(SetDate(f, y, mo, d)));
            && (r.0 <==> RealDate(FullYear(y), mo, d))
            && (r.0 && f.(year := 0, month := 0, day := 0) == NO_FIELDS ==> r.1 == Day(FullYear(y), mo, d))
            && r.1.(year := 0, month := 0, day := 0, hasDate := false) ==
                 f.(year := 0, month := 0, day := 0, hasDate := false)
            && (!r.0 ==> r.1.hasDate == f.hasDate)
  {
    ValidDateIsReal(FullYear(y), mo, d);
    hide RealDate, DaysInMonth;
  }

  // ------------------------------------------------------------ DD.MM.YYYY

  lemma EuroScans(p: seq<string>)
    requires |p| == 6 && Numerals(p)
    ensures var t := Row(p, ".. ::");
            && Scan(Fmt(".. ::"), t) == Vals(p) && Scan(Fmt(".."), t) == Vals(p[..3])
            && |Scan(Fmt("-- ::."), t)| == 1 && |Scan(Fmt("--T::"), t)| == 1 && |Scan(Fmt("// ::"), t)| == 1
            && |Scan(Fmt("--"), t)| == 1 && |Scan(Fmt("//"), t)| == 1
  {
    hide Scan, Fmt, Row, Vals, Numerals;
    assert ".. ::" + "" == ".. ::" && ".." + " ::" == ".. ::";
    ScansAll(p, ".. ::", "");
    ScansFront(p, "..", " ::");
    ScansOne(p, ".. ::", "-- ::.");
    ScansOne(p, ".. ::", "--T::");
    ScansOne(p, ".. ::", "// ::");
    ScansOne(p, ".. ::", "--");
    ScansOne(p, ".. ::", "//");
  }

  /** DD.MM.YYYY HH:MM:SS is read as that day and time, and refused when there is no such day. */
  lemma EuroTimestamp(p: seq<string>, d: Word, mo: Word, y: Word, h: Word, mi: Word, s: Word)
    requires |p| == 6 && Numerals(p) && Vals(p) == [d, mo, y, h, mi, s] && RealTime(h, mi, s, 0)
    ensures var (ok, r) := Timestamp(Row(p, ".. ::"));
            && (ok <==> RealDate(FullYear(y), mo, d)) && (ok ==> r == Moment(FullYear(y), mo, d, h, mi, s))
  {
    hide Scan, Fmt, Row, Zone, RealDate, RealTime, Accept, Pivot, SetDate, SetTime, DateThenTime, FullYear, Vals;
    var t := Row(p, ".. ::");
    EuroScans(p);
    Digits(p, ".. ::");
    assert ".." + (" " + "::") == ".. ::";
    RowNoZone(NO_FIELDS, p, "..", "::");
    Accepted(y, mo, d, h, mi, s);
    EuroDate(p, d, mo, y, t);
    NoDateNoTime(t);
  }

  lemma NoDateNoTime(t: string)
    ensures !Date(t).0 ==> !DateThenTime(t).0
  {
    hide Date;
  }

  /** Where the European format finds three numbers and the others one at most, the date is that of the former. */
  lemma EuroDate(p: seq<string>, d: Word, mo: Word, y: Word, t: string)
    requires |p| >= 3 && Numerals(p) && Vals(p)[..3] == [d, mo, y] && t != "" && SkipBlanks(t) == t
    requires |Scan(Fmt("--"), t)| == 1 && Scan(Fmt(".."), t) == Vals(p[..3]) && |Scan(Fmt("//"), t)| == 1
    ensures var (ok, r) := Date(t);
            && (ok <==> RealDate(FullYear(y), mo, d)) && (ok ==> r == Day(FullYear(y), mo, d))
  {
    hide Scan, Fmt, RealDate, AcceptDate, Pivot, SetDate, FullYear;
    FrontVals(p, 3);
    DayAccepted(NO_FIELDS, y, mo, d);
  }

  lemma FrontVals(p: seq<string>, k: nat)
    requires k <= |p| && Numerals(p)
    ensures Numerals(p[..k]) && Vals(p[..k]) == Vals(p)[..k]
  {
    forall i | 0 <= i < k ensures Numeral(p[..k][i]) { assert p[..k][i] == p[i]; }
  }

  lemma EuroDayScans(p: seq<string>)
    requires |p| == 3 && Numerals(p)
    ensures var t := Row(p, "..");
            && Scan(Fmt(".. ::"), t) == Vals(p) && Scan(Fmt(".."), t) == Vals(p)
            && |Scan(Fmt("-- ::."), t)| == 1 && |Scan(Fmt("--T::"), t)| == 1 && |Scan(Fmt("// ::"), t)| == 1
            && |Scan(Fmt("--"), t)| == 1 && |Scan(Fmt("//"), t)| == 1
  {
    hide Scan, Fmt, Row, Vals, Numerals;
    assert ".." + "" == ".." && ".." + " ::" == ".. ::";
    ScansAll(p, "..", "");
    ScansAll(p, "..", " ::");
    ScansOne(p, "..", "-- ::.");
    ScansOne(p, "..", "--T::");
    ScansOne(p, "..", "// ::");
    ScansOne(p, "..", "--");
    ScansOne(p, "..", "//");
  }

  /** DD.MM.YYYY alone, as a date and as a timestamp. */
  lemma EuroDay(p: seq<string>, d: Word, mo: Word, y: Word)
    requires |p| == 3 && Numerals(p) && Vals(p) == [d, mo, y]
    ensures var (t, full) := (Row(p, ".."), FullYear(y));
            && (Date(t).0 <==> RealDate(full, mo, d)) && (Date(t).0 ==> Date(t).1 == Day(full, mo, d))
            && Timestamp(t).0 == Date(t).0 && (Date(t).0 ==> Timestamp(t).1 == Date(t).1)
  {
    hide Scan, Fmt, Row, Date, Vals, FullYear, RealDate, Combined, DateThenTime;
    var t := Row(p, "..");
    EuroDayScans(p);
    Digits(p, "..");
    assert p[..3] == p && Vals(p)[..3] == Vals(p);
    EuroDate(p, d, mo, y, t);
    NotCombined(t);
    RowBlanks(p, "..", ' ');
    OneWord(p, "..");
    DateOnly(t);
  }

  /** Too few numbers for every format with a time. */
  lemma NotCombined(t: string)
    requires |Scan(Fmt("-- ::."), t)| < 6 && |Scan(Fmt("--T::"), t)| < 6
    requires |Scan(Fmt(".. ::"), t)| < 6 && |Scan(Fmt("// ::"), t)| < 6
    ensures !Combined(t).0
  {
    hide Scan, Fmt, Zone;
  }

  /** A row without blanks is one word. */
  lemma OneWord(p: seq<string>, seps: string)
    requires |p| == |seps| + 1 && Numerals(p) && forall c :: c in seps ==> !IsBlank(c)
    ensures SkipWord(Row(p, seps)) == ""
  {
    hide Row, SkipWord;
    forall c: char | IsBlank(c) ensures c !in Row(p, seps) { RowBlanks(p, seps, c); }
    WordIs(Row(p, seps));
  }

  lemma {:induction false} WordIs(s: string)
    requires forall c :: c in s ==> !IsBlank(c)
    ensures SkipWord(s) == ""
  {
    if s != "" {
      assert s[0] in s;
      WordIs(s[1..]);
    }
  }

  lemma DateOnly(t: string)
    requires SkipBlanks(t) == t && t != "" && !Combined(t).0 && SkipWord(t) == ""
    ensures Timestamp(t).0 == Date(t).0 && (Date(t).0 ==> Timestamp(t).1 == Date(t).1)
  {
    hide Combined, Date;
  }

  // ------------------------------------------------------------ MM/DD/YYYY

  lemma UsScans(p: seq<string>)
    requires |p| == 6 && Numerals(p)
    ensures var t := Row(p, "// ::");
            && Scan(Fmt("// ::"), t) == Vals(p) && Scan(Fmt("//"), t) == Vals(p[..3])
            && |Scan(Fmt("-- ::."), t)| == 1 && |Scan(Fmt("--T::"), t)| == 1 && |Scan(Fmt(".. ::"), t)| == 1
            && |Scan(Fmt("--"), t)| == 1 && |Scan(Fmt(".."), t)| == 1
  {
    hide Scan, Fmt, Row, Vals, Numerals;
    assert "// ::" + "" == "// ::" && "//" + " ::" == "// ::";
    ScansAll(p, "// ::", "");
    ScansFront(p, "//", " ::");
    ScansOne(p, "// ::", "-- ::.");
    ScansOne(p, "// ::", "--T::");
    ScansOne(p, "// ::", ".. ::");
    ScansOne(p, "// ::", "--");
    ScansOne(p, "// ::", "..");
  }

  /** MM/DD/YYYY HH:MM:SS */
  lemma UsTimestamp(p: seq<string>, mo: Word, d: Word, y: Word, h: Word, mi: Word, s: Word)
    requires |p| == 6 && Numerals(p) && Vals(p) == [mo, d, y, h, mi, s] && RealTime(h, mi, s, 0)
    ensures var (ok, r) := Timestamp(Row(p, "// ::"));
            && (ok <==> RealDate(FullYear(y), mo, d)) && (ok ==> r == Moment(FullYear(y), mo, d, h, mi, s))
  {
    hide Scan, Fmt, Row, Zone, RealDate, RealTime, Accept, Pivot, SetDate, SetTime, DateThenTime, FullYear, Vals;
    var t := Row(p, "// ::");
    UsScans(p);
    Digits(p, "// ::");
    assert "//" + (" " + "::") == "// ::";
    RowNoZone(NO_FIELDS, p, "//", "::");
    Accepted(y, mo, d, h, mi, s);
    UsDate(p, mo, d, y, t);
    NoDateNoTime(t);
  }

  lemma UsDate(p: seq<string>, mo: Word, d: Word, y: Word, t: string)
    requires |p| >= 3 && Numerals(p) && Vals(p)[..3] == [mo, d, y] && t != "" && SkipBlanks(t) == t
    requires |Scan(Fmt("--"), t)| == 1 && Scan(Fmt("//"), t) == Vals(p[..3]) && |Scan(Fmt(".."), t)| == 1
    ensures var (ok, r) := Date(t);
            && (ok <==> RealDate(FullYear(y), mo, d)) && (ok ==> r == Day(FullYear(y), mo, d))
  {
    hide Scan, Fmt, RealDate, AcceptDate, Pivot, SetDate, FullYear;
    FrontVals(p, 3);
    DayAccepted(NO_FIELDS, y, mo, d);
  }

  lemma UsDayScans(p: seq<string>)
    requires |p| == 3 && Numerals(p)
    ensures var t := Row(p, "//");
            && Scan(Fmt("// ::"), t) == Vals(p) && Scan(Fmt("//"), t) == Vals(p)
            && |Scan(Fmt("-- ::."), t)| == 1 && |Scan(Fmt("--T::"), t)| == 1 && |Scan(Fmt(".. ::"), t)| == 1
            && |Scan(Fmt("--"), t)| == 1 && |Scan(Fmt(".."), t)| == 1
  {
    hide Scan, Fmt, Row, Vals, Numerals;
    assert "//" + "" == "//" && "//" + " ::" == "// ::";
    ScansAll(p, "//", "");
    ScansAll(p, "//", " ::");
    ScansOne(p, "//", "-- ::.");
    ScansOne(p, "//", "--T::");
    ScansOne(p, "//", ".. ::");
    ScansOne(p, "//", "--");
    ScansOne(p, "//", "..");
  }

  /** MM/DD/YYYY alone. */
  lemma UsDay(p: seq<string>, mo: Word, d: Word, y: Word)
    requires |p| == 3 && Numerals(p) && Vals(p) == [mo, d, y]
    ensures var (t, full) := (Row(p, "//"), FullYear(y));
            && (Date(t).0 <==> RealDate(full, mo, d)) && (Date(t).0 ==> Date(t).1 == Day(full, mo, d))
            && Timestamp(t).0 == Date(t).0 && (Date(t).0 ==> Timestamp(t).1 == Date(t).1)
  {
    hide Scan, Fmt, Row, Date, Vals, FullYear, RealDate, Combined, DateThenTime;
    var t := Row(p, "//");
    UsDayScans(p);
    Digits(p, "//");
    assert p[..3] == p && Vals(p)[..3] == Vals(p);
    UsDate(p, mo, d, y, t);
    NotCombined(t);
    OneWord(p, "//");
    DateOnly(t);
  }

  // ------------------------------------------------------------ for example

  lemma TwoDigits()
    ensures Val("13") == 13 && Val("05") == 5 && Val("99") == 99 && Val("10") == 10 && Val("00") == 0
    ensures Val("01") == 1 && Val("02") == 2 && Val("20") == 20
  {
    assert Val("1") == 1 && Val("0") == 0 && Val("9") == 9 && Val("2") == 2;
  }

  lemma ThreeRow(a: string, b: string, c: string, s: char)
    ensures Row([a, b, c], [s, s]) == a + ([s] + (b + ([s] + c)))
  {
    assert [a, b, c][1..] == [b, c] && [b, c][1..] == [c] && [s, s][1..] == [s] && [s][1..] == "";
    assert Row([c], "") == c + "" == c;
    assert Row([b, c], [s]) == b + ([s] + c);
  }

  lemma May1999()
    ensures Timestamp("13.05.99 10:00:00") == (true, Moment(1999, 5, 13, 10, 0, 0))
  {
    hide Timestamp, Row, Val, RealTime, RealDate, Numerals, Vals;
    var p := ["13", "05", "99", "10", "00", "00"];
    MayText();
    SixVals(p);
    TwoDigits();
    RealDays();
    TenOClock();
    EuroTimestamp(p, 13, 5, 99, 10, 0, 0);
  }

  lemma MayText()
    ensures var p := ["13", "05", "99", "10", "00", "00"]; Row(p, ".. ::") == "13.05.99 10:00:00" && Numerals(p)
  {
    hide Row;
    var p := ["13", "05", "99", "10", "00", "00"];
    assert ".." + (" " + "::") == ".. ::" && p[..3] == ["13", "05", "99"] && p[3..] == ["10", "00", "00"];
    RowAtBlank(p, "..", "::");
    ThreeRow("13", "05", "99", '.');
    ThreeRow("10", "00", "00", ':');
    assert "13" + (['.'] + ("05" + (['.'] + "99"))) == "13.05.99";
    assert "10" + ([':'] + ("00" + ([':'] + "00"))) == "10:00:00";
    assert "13.05.99" + (" " + "10:00:00") == "13.05.99 10:00:00";
  }

  lemma RealDays()
    ensures RealDate(1999, 5, 13) && RealDate(2020, 2, 1)
  {}

  lemma TenOClock()
    ensures RealTime(10, 0, 0, 0)
  {}

  lemma SixVals(p: seq<string>)
    requires |p| == 6 && Numerals(p)
    ensures Vals(p) == [Val(p[0]), Val(p[1]), Val(p[2]), Val(p[3]), Val(p[4]), Val(p[5])]
  {}

  lemma February2020()
    ensures Date("01.02.20") == (true, Day(2020, 2, 1)) && Date("02/01/20") == (true, Day(2020, 2, 1))
  {
    hide Date, Row, Val, RealDate, Numerals, Vals;
    FebruaryTexts();
    TwoDigits();
    RealDays();
    ThreeVals(["01", "02", "20"]);
    ThreeVals(["02", "01", "20"]);
    EuroDay(["01", "02", "20"], 1, 2, 20);
    UsDay(["02", "01", "20"], 2, 1, 20);
  }

  lemma FebruaryTexts()
    ensures Row(["01", "02", "20"], "..") == "01.02.20" && Row(["02", "01", "20"], "//") == "02/01/20"
    ensures Numerals(["01", "02", "20"]) && Numerals(["02", "01", "20"])
  {
    hide Row;
    ThreeRow("01", "02", "20", '.');
    ThreeRow("02", "01", "20", '/');
    assert "01" + (['.'] + ("02" + (['.'] + "20"))) == "01.02.20";
    assert "02" + (['/'] + ("01" + (['/'] + "20"))) == "02/01/20";
  }

  lemma ThreeVals(p: seq<string>)
    requires |p| == 3 && Numerals(p)
    ensures Vals(p) == [Val(p[0]), Val(p[1]), Val(p[2])]
  {}

  // ------------------------------------------------------------ YYYY-MM-DD and YYYY-MM-DDTHH:MM:SS

  lemma IsoDayScans(p: seq<string>)
    requires |p| == 3 && Numerals(p)
    ensures var t := Row(p, "--");
            && Scan(Fmt("--"), t) == Vals(p) && |Scan(Fmt("-- ::."), t)| == 3 && |Scan(Fmt("--T::"), t)| == 3
            && |Scan(Fmt(".. ::"), t)| == 1 && |Scan(Fmt("// ::"), t)| == 1 && |Scan(Fmt(".."), t)| == 1
            && |Scan(Fmt("//"), t)| == 1
  {
    hide Scan, Fmt, Row, Vals, Numerals;
    assert "--" + "" == "--" && "--" + " ::." == "-- ::." && "--" + "T::" == "--T::";
    ScansAll(p, "--", "");
    ScansAll(p, "--", " ::.");
    ScansAll(p, "--", "T::");
    ScansOne(p, "--", ".. ::");
    ScansOne(p, "--", "// ::");
    ScansOne(p, "--", "..");
    ScansOne(p, "--", "//");
  }

  /** YYYY-MM-DD alone, from the year 101 on. */
  lemma IsoDay(p: seq<string>, y: Word, mo: Word, d: Word)
    requires |p| == 3 && Numerals(p) && Vals(p) == [y, mo, d]
    ensures var t := Row(p, "--");
            && (Date(t).0 <==> y > 100 && RealDate(y, mo, d)) && (Date(t).0 ==> Date(t).1 == Day(y, mo, d))
            && Timestamp(t).0 == Date(t).0 && (Date(t).0 ==> Timestamp(t).1 == Date(t).1)
  {
    hide Scan, Fmt, Row, Date, Vals, RealDate, Combined, DateThenTime;
    var t := Row(p, "--");
    IsoDayScans(p);
    Digits(p, "--");
    IsoDate(y, mo, d, t);
    NotCombined(t);
    OneWord(p, "--");
    DateOnly(t);
  }

  lemma IsoDate(y: Word, mo: Word, d: Word, t: string)
    requires t != "" && SkipBlanks(t) == t && Scan(Fmt("--"), t) == [y, mo, d]
    requires |Scan(Fmt(".."), t)| == 1 && |Scan(Fmt("//"), t)| == 1
    ensures var (ok, r) := Date(t); (ok <==> y > 100 && RealDate(y, mo, d)) && (ok ==> r == Day(y, mo, d))
  {
    hide Scan, Fmt, RealDate, AcceptDate, SetDate;
    PlainAccepted(y, mo, d);
  }

  lemma PlainAccepted(y: Word, mo: Word, d: Word)
    ensures var r := AcceptDate(SetDate(NO_FIELDS, y, mo, d));
            (r.0 <==> RealDate(y, mo, d)) && (r.0 ==> r.1 == Day(y, mo, d))
  {
    ValidDateIsReal(y, mo, d);
    hide RealDate, DaysInMonth;
  }

  lemma IsoTScans(p: seq<string>)
    requires |p| == 6 && Numerals(p)
    ensures var t := Row(p, "--T::");
            && Scan(Fmt("--T::"), t) == Vals(p) && |Scan(Fmt("-- ::."), t)| == 3 && Scan(Fmt("--"), t) == Vals(p[..3])
            && |Scan(Fmt(".. ::"), t)| == 1 && |Scan(Fmt("// ::"), t)| == 1
            && |Scan(Fmt(".."), t)| == 1 && |Scan(Fmt("//"), t)| == 1
  {
    hide Scan, Fmt, Row, Vals, Numerals;
    assert "--T::" + "" == "--T::" && "--" + "T::" == "--T::";
    ScansAll(p, "--T::", "");
    ScansFront(p, "--", "T::");
    TAgrees();
    ScansRow(p, "--T::", "-- ::.");
    ScansOne(p, "--T::", ".. ::");
    ScansOne(p, "--T::", "// ::");
    ScansOne(p, "--T::", "..");
    ScansOne(p, "--T::", "//");
  }

  lemma TAgrees()
    ensures Agree("--T::", "-- ::.") == 2
  {
    assert "--T::"[1..] == "-T::" && "-T::"[1..] == "T::" && "-- ::."[1..] == "- ::." && "- ::."[1..] == " ::.";
  }

  /** YYYY-MM-DDTHH:MM:SS, from the year 101 on. */
  lemma IsoTTimestamp(p: seq<string>, y: Word, mo: Word, d: Word, h: Word, mi: Word, s: Word)
    requires |p| == 6 && Numerals(p) && Vals(p) == [y, mo, d, h, mi, s] && RealTime(h, mi, s, 0)
    ensures var (ok, r) := Timestamp(Row(p, "--T::"));
            && (ok <==> y > 100 && RealDate(y, mo, d)) && (ok ==> r == Moment(y, mo, d, h, mi, s))
  {
    hide Scan, Fmt, Row, Zone, RealDate, RealTime, Accept, SetDate, SetTime, DateThenTime, Vals;
    var t := Row(p, "--T::");
    IsoTScans(p);
    Digits(p, "--T::");
    RowBlanks(p, "--T::", ' ');
    NoBlankNoZone(NO_FIELDS, t);
    PlainMoment(y, mo, d, h, mi, s);
    FrontVals(p, 3);
    IsoDate(y, mo, d, t);
    NoDateNoTime(t);
  }

  lemma PlainMoment(y: Word, mo: Word, d: Word, h: Word, mi: Word, s: Word)
    requires RealTime(h, mi, s, 0)
    ensures var r := Accept(SetTime(SetDate(NO_FIELDS, y, mo, d), h, mi, s));
            && (r.0 <==> RealDate(y, mo, d)) && (r.0 ==> r.1 == Moment(y, mo, d, h, mi, s))
  {
    ValidDateIsReal(y, mo, d);
    hide RealDate, DaysInMonth;
  }

  // ------------------------------------------------------------ times alone

  /** HH:MM:SS is read as that time of day, and refused, but left in the struct, when it is none; the date and the
      zone stay. */
  lemma TimeAlone(f: Fields, p: seq<string>, h: Word, mi: Word, s: Word)
    requires |p| == 3 && Numerals(p) && Vals(p) == [h, mi, s]
    ensures var ok := RealTime(h, mi, s, 0);
            Time(f, Row(p, "::")) == (ok, f.(hours := h, minutes := mi, seconds := s, fractions := 0, hasTime := ok))
  {
    hide Scan, Fmt, Row, Zone, Vals, Numerals;
    assert "::" + "." == "::.";
    ScansAll(p, "::", ".");
    Digits(p, "::");
    RowBlanks(p, "::", ' ');
    forall g ensures Zone(g, Row(p, "::")) == g { NoBlankNoZone(g, Row(p, "::")); }
  }

  /** HH:MM:SS.F with the fraction brought to four digits. */
  lemma TimeWithFraction(f: Fields, p: seq<string>, h: Word, mi: Word, s: Word, n: nat)
    requires |p| == 4 && Numerals(p) && Vals(p) == [h, mi, s, n]
    ensures var ok := RealTime(h, mi, s, 0);
            Time(f, Row(p, "::.")) ==
              (ok, f.(hours := h, minutes := mi, seconds := s, fractions := FractionWord(n), hasTime := ok))
  {
    hide Scan, Fmt, Row, Zone, Vals, Numerals, FractionWord;
    assert "::." + "" == "::.";
    ScansAll(p, "::.", "");
    Digits(p, "::.");
    RowBlanks(p, "::.", ' ');
    forall g ensures Zone(g, Row(p, "::.")) == g { NoBlankNoZone(g, Row(p, "::.")); }
    ZeroFraction();
  }

  // ------------------------------------------------------------ fractions

  /** The four digits of a fraction are its first four, with zeros behind a shorter one. */
  lemma FourDigitsAre(n: nat)
    requires n > 0
    ensures var t := Dec(n); Dec(FourDigits(n)) == if |t| < 4 then t + Zeros(4 - |t|) else t[..4]
  {
    DecLength(n);
    var d := NumDigits(n);
    if d <= 4 { DecTimes(n, 4 - d); } else { DecCut(n, d - 4); }
  }

  lemma {:induction false} DecLength(n: nat)
    requires n > 0
    ensures |Dec(n)| == NumDigits(n)
  {
    if n >= 10 { DecLength(n / 10); } else { assert NumDigits(n / 10) == 0; }
  }

  lemma {:induction false} DecTimes(n: nat, k: nat)
    requires n > 0
    ensures n * Pow10(k) > 0 && Dec(n * Pow10(k)) == Dec(n) + Zeros(k)
  {
    if k == 0 { assert Dec(n) + [] == Dec(n); }
    else {
      DecTimes(n, k - 1);
      hide Dec;
      var m := n * Pow10(k - 1);
      TenfoldProduct(n, Pow10(k - 1));
      DecTen(m);
      assert Dec(n) + Zeros(k - 1) + ['0'] == Dec(n) + Zeros(k);
    }
  }

  lemma TenfoldProduct(n: nat, p: nat)
    ensures n * (10 * p) == 10 * (n * p)
  {}

  lemma DecTen(m: nat)
    requires m > 0
    ensures Dec(10 * m) == Dec(m) + ['0']
  {}

  lemma {:induction false} DecCut(n: nat, k: nat)
    requires |Dec(n)| > k
    ensures Dec(n / Pow10(k)) == Dec(n)[..|Dec(n)| - k]
  {
    if k > 0 {
      assert n >= 10 && Dec(n) == Dec(n / 10) + [Digit(n % 10)];
      DecCut(n / 10, k - 1);
      Unshift(n, k);
    } else { assert n / 1 == n; }
  }

  // ------------------------------------------------------------ time zones

  /** What a row is followed by after a blank ends the numbers. */
  lemma {:induction false} ScansThen(p: seq<string>, seps: string, more: string, rest: string)
    requires |p| == |seps| + 1 && Numerals(p) && (forall i :: 0 <= i < |seps| ==> !IsDigit(seps[i]))
    requires rest != "" && rest[0] == ' ' && (more == "" || (more[0] != ' '))
    ensures Scan(Fmt(seps + more), Row(p, seps) + rest) == Vals(p)
    decreases |seps|
  {
    hide Scan, ReadInt, Val;
    var a := p[0];
    assert Numeral(a);
    if seps == "" {
      assert Row(p, seps) == a && seps + more == more;
      if more == "" {
        assert Fmt("") == [Num] + [];
        ScansNumeral([], a, rest);
        EmptyScan(rest);
      } else {
        assert Fmt(more) == [Num] + ([ItemOf(more[0])] + Fmt(more[1..]));
        ScansNumeral([ItemOf(more[0])] + Fmt(more[1..]), a, rest);
        LitMisses(more[0], Fmt(more[1..]), rest);
      }
      assert p[1..] == [];
    } else {
      var (tail, fmt) := (Row(p[1..], seps[1..]) + rest, seps[1..] + more);
      assert (seps + more)[1..] == fmt && (seps + more)[0] == seps[0];
      assert Row(p, seps) + rest == a + ([seps[0]] + tail);
      forall i | 0 <= i < |p| - 1 ensures Numeral(p[1..][i]) { assert p[1..][i] == p[i + 1]; }
      forall i | 0 <= i < |seps| - 1 ensures !IsDigit(seps[1..][i]) { assert seps[1..][i] == seps[i + 1]; }
      ScansNumeral([ItemOf(seps[0])] + Fmt(fmt), a, [seps[0]] + tail);
      RowStarts(p[1..], seps[1..]);
      assert tail != "" && tail[0] == Row(p[1..], seps[1..])[0];
      ScansSeparator(Fmt(fmt), seps[0], seps[0], tail);
      ScansThen(p[1..], seps[1..], more, rest);
    }
  }

  lemma LitMisses(c: char, fmt: seq<Item>, rest: string)
    requires c != ' ' && rest != "" && rest[0] == ' '
    ensures Scan([ItemOf(c)] + fmt, rest) == []
  {}

  /** What stands behind the last blank, if it looks like a zone. */
  predicate IsZone(z: string) { z != "" && |z| < 64 && ZoneLike(z) && ' ' !in z }

  lemma ZoneTaken(f: Fields, a: string, z: string)
    requires IsZone(z) && a != ""
    ensures Zone(f, a + (" " + z)) == f.(timezone := z, hasTimezone := true)
  {
    hide LastBlank, ZoneLike;
    LastBlankIs(a, z);
    assert (a + (" " + z))[|a| + 1..] == z;
  }

  /** HH:MM:SS and a zone. */
  lemma TimeWithZone(f: Fields, p: seq<string>, h: Word, mi: Word, s: Word, z: string)
    requires |p| == 3 && Numerals(p) && Vals(p) == [h, mi, s] && IsZone(z)
    ensures var ok := RealTime(h, mi, s, 0);
            Time(f, Row(p, "::") + (" " + z)) ==
              (ok, f.(hours := h, minutes := mi, seconds := s, fractions := 0, hasTime := ok, timezone := z,
                      hasTimezone := true))
  {
    hide Scan, Fmt, Row, Zone, Vals, Numerals, ZoneLike, IsZone;
    var t := Row(p, "::") + (" " + z);
    assert "::" + "." == "::.";
    ScansThen(p, "::", ".", " " + z);
    Digits(p, "::");
    assert t != "" && t[0] == Row(p, "::")[0];
    StartsWithDigit(t);
    forall g ensures Zone(g, t) == g.(timezone := z, hasTimezone := true) { ZoneTaken(g, Row(p, "::"), z); }
  }

  /** YYYY-MM-DD HH:MM:SS and a zone, from the year 101 on. */
  lemma IsoWithZone(p: seq<string>, y: Word, mo: Word, d: Word, h: Word, mi: Word, s: Word, z: string)
    requires |p| == 6 && Numerals(p) && Vals(p) == [y, mo, d, h, mi, s] && IsZone(z)
    requires y > 100 && RealDate(y, mo, d) && RealTime(h, mi, s, 0)
    ensures Timestamp(Row(p, "-- ::") + (" " + z)) ==
              (true, Moment(y, mo, d, h, mi, s).(timezone := z, hasTimezone := true))
  {
    hide Scan, Fmt, Row, Zone, Vals, Numerals, ZoneLike, IsZone, RealDate, RealTime, Accept, SetDate, SetTime;
    var t := Row(p, "-- ::") + (" " + z);
    assert "-- ::" + "." == "-- ::.";
    ScansThen(p, "-- ::", ".", " " + z);
    Digits(p, "-- ::");
    assert t != "" && t[0] == Row(p, "-- ::")[0];
    StartsWithDigit(t);
    ZoneTaken(NO_FIELDS, Row(p, "-- ::"), z);
    ZonedMoment(y, mo, d, h, mi, s, z);
  }

  lemma ZonedMoment(y: Word, mo: Word, d: Word, h: Word, mi: Word, s: Word, z: string)
    requires RealDate(y, mo, d) && RealTime(h, mi, s, 0)
    ensures var f := NO_FIELDS.(timezone := z, hasTimezone := true);
            Accept(SetTime(SetDate(f, y, mo, d), h, mi, s)) ==
              (true, Moment(y, mo, d, h, mi, s).(timezone := z, hasTimezone := true))
  {
    ValidDateIsReal(y, mo, d);
    hide RealDate, DaysInMonth;
  }

  /** Offsets and names that count as zones, and text that does not. */
  lemma SomeZones()
    ensures IsZone("+02:00") && IsZone("-0330") && IsZone("UTC") && IsZone("Europe/Berlin")
    ensures !IsZone("+02") && !IsZone("Z") && !IsZone("10:00:00")
  {}
}
