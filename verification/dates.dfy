/**
 * Calendar dates as `datetime.strptime` reads them with the five formats
 * the extractor tries, and the ISO form `date.isoformat()` writes.
 */
module Dates {
  import opened Wrappers
  import opened Text
  import opened Numbers

  datatype Date = Date(year: int, month: int, day: int)

  predicate IsLeapYear(y: int) {
    y % 4 == 0 && (y % 100 != 0 || y % 400 == 0)
  }

  function DaysInMonth(y: int, m: int): (n: int)
    requires 1 <= m <= 12
    ensures 28 <= n <= 31
  {
    if m == 2 then (if IsLeapYear(y) then 29 else 28)
    else if m == 4 || m == 6 || m == 9 || m == 11 then 30
    else 31
  }

  /** A date Python's `date` accepts: years 1 to 9999 and a day that exists in its month. */
  predicate ValidDate(d: Date) {
    1 <= d.year <= 9999 && 1 <= d.month <= 12 && 1 <= d.day <= DaysInMonth(d.year, d.month)
  }

  /** The ISO form YYYY-MM-DD. */
  function IsoFormat(d: Date): (s: string)
    requires ValidDate(d)
    ensures |s| == 10
  {
    PadDigits(d.year, 4) + "-" + PadDigits(d.month, 2) + "-" + PadDigits(d.day, 2)
  }

  /** The directives %Y, %m and %d. */
  datatype Field = Year | Month | Day

  /** Three directives joined by one separator character. */
  datatype DateFormat = DateFormat(first: Field, second: Field, third: Field, sep: char)

  /** %Y-%m-%d, %d/%m/%Y, %m/%d/%Y, %d-%m-%Y and %m-%d-%Y, in the order they are tried. */
  const DATE_FORMATS: seq<DateFormat> := [
    DateFormat(Year, Month, Day, '-'),
    DateFormat(Day, Month, Year, '/'),
    DateFormat(Month, Day, Year, '/'),
    DateFormat(Day, Month, Year, '-'),
    DateFormat(Month, Day, Year, '-')
  ]

  /**
   * What one directive reads from exactly `tok`: %Y four digits; %m one of
   * 01..12 or a single digit 1..9; %d one of 01..31, a single digit 1..9,
   * or a space and a digit 1..9. Because the separators are not digits,
   * strptime's format matches the whole text exactly when each piece
   * between separators is one of these tokens.
   */
  function FieldValue(f: Field, tok: string): (r: Option<int>)
    ensures r.Some? && f == Year ==> 0 <= r.value <= 9999
    ensures r.Some? && f == Month ==> 1 <= r.value <= 12
    ensures r.Some? && f == Day ==> 1 <= r.value <= 31
  {
    match f
    case Year =>
      if |tok| == 4 && AllDigits(tok) then Some(DigitsValue(tok) as int) else None
    case Month =>
      if |tok| == 2 && AllDigits(tok) && 1 <= DigitsValue(tok) <= 12 then Some(DigitsValue(tok) as int)
      else if |tok| == 1 && IsDigit(tok[0]) && tok[0] != '0' then Some(DigitValue(tok[0]) as int)
      else None
    case Day =>
      if |tok| == 2 && AllDigits(tok) && 1 <= DigitsValue(tok) <= 31 then Some(DigitsValue(tok) as int)
      else if |tok| == 1 && IsDigit(tok[0]) && tok[0] != '0' then Some(DigitValue(tok[0]) as int)
      else if |tok| == 2 && tok[0] == ' ' && IsDigit(tok[1]) && tok[1] != '0' then Some(DigitValue(tok[1]) as int)
      else None
  }

  /** The value read for field `f`, given the values of the three pieces in format order. */
  function Pick(fmt: DateFormat, f: Field, x: int, y: int, z: int): int {
    if fmt.first == f then x else if fmt.second == f then y else z
  }

  /** The three pieces of `s` around its first two `sep` characters, if it has two. */
  function Pieces(s: string, sep: char): (r: Option<(string, string, string)>)
    ensures r.Some? ==> s == r.value.0 + [sep] + r.value.1 + [sep] + r.value.2
    ensures r.Some? ==> sep !in r.value.0 && sep !in r.value.1
  {
    var i := IndexOf(s, sep);
    if i == |s| then None
    else
      var rest := s[i + 1..];
      var j := IndexOf(rest, sep);
      if j == |rest| then None
      else
        SplitTwice(s, sep, i, j);
        Some((s[..i], rest[..j], rest[j + 1..]))
  }

  /** Cutting out the separators at `i` and at `j` past it leaves three pieces that rejoin to `s`. */
  lemma SplitTwice(s: string, sep: char, i: nat, j: nat)
    requires i < |s| && s[i] == sep && j < |s| - i - 1 && s[i + 1..][j] == sep
    ensures s == s[..i] + [sep] + s[i + 1..][..j] + [sep] + s[i + 1..][j + 1..]
  {
    var rest := s[i + 1..];
    assert rest == rest[..j] + [sep] + rest[j + 1..];
    assert s == s[..i] + [sep] + rest;
  }

  /** The date the three pieces spell in the order `fmt` gives, if it exists. */
  function ReadDate(fmt: DateFormat, a: string, b: string, c: string): (r: Option<Date>)
    ensures r.Some? ==> ValidDate(r.value)
  {
    match (FieldValue(fmt.first, a), FieldValue(fmt.second, b), FieldValue(fmt.third, c))
    case (Some(x), Some(y), Some(z)) =>
      var d := Date(Pick(fmt, Year, x, y, z), Pick(fmt, Month, x, y, z), Pick(fmt, Day, x, y, z));
      if ValidDate(d) then Some(d) else None
    case _ => None
  }

  /** `datetime.strptime(s, fmt)`: None stands for the ValueError. */
  function ParseWith(fmt: DateFormat, s: string): (r: Option<Date>)
    ensures r.Some? ==> ValidDate(r.value)
  {
    match Pieces(s, fmt.sep)
    case None => None
    case Some((a, b, c)) => ReadDate(fmt, a, b, c)
  }

  /** The date read by the first of `fmts` that accepts `s`. */
  function FirstParse(fmts: seq<DateFormat>, s: string): (r: Option<Date>)
    ensures r.Some? ==> ValidDate(r.value)
  {
    if fmts == [] then None
    else
      match ParseWith(fmts[0], s)
      case Some(d) => Some(d)
      case None => FirstParse(fmts[1..], s)
  }

  /** No format accepts `s` exactly when FirstParse finds nothing. */
  lemma {:induction false} FirstParseNone(fmts: seq<DateFormat>, s: string)
    ensures FirstParse(fmts, s).None? <==> forall k :: 0 <= k < |fmts| ==> ParseWith(fmts[k], s).None?
  {
    if fmts != [] {
      FirstParseNone(fmts[1..], s);
      assert forall k :: 1 <= k < |fmts| ==> fmts[k] == fmts[1..][k - 1];
    }
  }

  /** What `_normalize_date` returns for `s`. */
  function NormalizedDate(s: string): (r: Option<string>)
    ensures r.Some? ==> exists d :: ValidDate(d) && r.value == IsoFormat(d)
  {
    match FirstParse(DATE_FORMATS, Strip(s))
    case None => None
    case Some(d) => Some(IsoFormat(d))
  }

  /**
   * Tries the five formats in order on the stripped text and returns the
   * ISO form of the first valid calendar date, or None.
   */
  method NormalizeDate(s: string) returns (r: Option<string>)
    ensures r == NormalizedDate(s)
  {
    var parsed := TryFormats(DATE_FORMATS, Strip(s));
    r := if parsed.Some? then Some(IsoFormat(parsed.value)) else None;
  }

  /** The loop over the formats: the first one strptime accepts gives the date. */
  method TryFormats(fmts: seq<DateFormat>, s: string) returns (r: Option<Date>)
    ensures r == FirstParse(fmts, s)
  {
    for i := 0 to |fmts|
      invariant FirstParse(fmts, s) == FirstParse(fmts[i..], s)
    {
      assert fmts[i..][1..] == fmts[i + 1..];
      var parsed := ParseWith(fmts[i], s);
      if parsed.Some? {
        return parsed;
      }
    }
    return None;
  }

  /** A text with two separators splits at exactly those two. */
  lemma PiecesOf(a: string, b: string, c: string, sep: char)
    requires sep !in a && sep !in b
    ensures Pieces(a + [sep] + b + [sep] + c, sep) == Some((a, b, c))
  {
    var s := a + [sep] + b + [sep] + c;
    assert s[..|a|] == a;
    IndexOfFirst(s, sep, |a|);
    var rest := s[|a| + 1..];
    assert rest == b + [sep] + c;
    assert rest[..|b|] == b;
    IndexOfFirst(rest, sep, |b|);
    assert rest[|b| + 1..] == c;
  }

  /** %Y-%m-%d reads back the date that IsoFormat wrote. */
  lemma IsoParses(d: Date)
    requires ValidDate(d)
    ensures ParseWith(DATE_FORMATS[0], IsoFormat(d)) == Some(d)
  {
    var y, m, dd := PadDigits(d.year, 4), PadDigits(d.month, 2), PadDigits(d.day, 2);
    assert IsDigit(y[0]) && IsDigit(m[0]);
    assert '-' !in y && '-' !in m;
    PiecesOf(y, m, dd, '-');
    assert FieldValue(Year, y) == Some(d.year);
    assert FieldValue(Month, m) == Some(d.month);
    assert FieldValue(Day, dd) == Some(d.day);
  }

  /** The ISO form of a valid date normalises to itself: %Y-%m-%d is tried first. */
  lemma {:induction false} IsoRoundTrip(d: Date)
    requires ValidDate(d)
    ensures NormalizedDate(IsoFormat(d)) == Some(IsoFormat(d))
  {
    var s := IsoFormat(d);
    assert IsDigit(s[0]) && IsDigit(s[9]);
    StripOfTrimmed(s);
    IsoParses(d);
  }

  /** Normalising a normalised date changes nothing. */
  lemma NormalizedDateIdempotent(s: string)
    requires NormalizedDate(s).Some?
    ensures NormalizedDate(NormalizedDate(s).value) == NormalizedDate(s)
  {
    IsoRoundTrip(FirstParse(DATE_FORMATS, Strip(s)).value);
  }

  lemma NoSeparator(s: string, sep: char)
    requires sep !in s
    ensures Pieces(s, sep) == None
  {
  }

  lemma NoSeparatorNoDate(fmt: DateFormat, s: string)
    requires fmt.sep !in s
    ensures ParseWith(fmt, s) == None
  {
    NoSeparator(s, fmt.sep);
  }

  /** A text without '-' can only be read by the two slashed formats, day first before month first. */
  lemma SlashedOnly(s: string)
    requires '-' !in s
    ensures FirstParse(DATE_FORMATS, s) ==
      if ParseWith(DATE_FORMATS[1], s).Some? then ParseWith(DATE_FORMATS[1], s) else ParseWith(DATE_FORMATS[2], s)
  {
    var fs := DATE_FORMATS;
    NoSeparatorNoDate(fs[0], s);
    NoSeparatorNoDate(fs[3], s);
    NoSeparatorNoDate(fs[4], s);
    assert FirstParse(fs[4..], s) == None by {
      assert fs[4..][1..] == [];
    }
    assert FirstParse(fs[3..], s) == None by {
      assert fs[3..][1..] == fs[4..];
    }
    assert fs[2..][0] == fs[2] && fs[2..][1..] == fs[3..];
    assert FirstParse(fs[2..], s) == ParseWith(fs[2], s);
    assert fs[1..][0] == fs[1] && fs[1..][1..] == fs[2..];
    assert FirstParse(fs, s) == FirstParse(fs[1..], s);
  }

  /** With the separators in place, strptime reads exactly the three pieces. */
  lemma ParseWithPieces(fmt: DateFormat, a: string, b: string, c: string)
    requires fmt.sep !in a && fmt.sep !in b
    ensures ParseWith(fmt, a + [fmt.sep] + b + [fmt.sep] + c) == ReadDate(fmt, a, b, c)
  {
    PiecesOf(a, b, c, fmt.sep);
  }

  /** A two-digit piece is a month when it is 01..12 and a day when it is 01..31. */
  lemma TwoDigitFields(tok: string)
    requires |tok| == 2 && AllDigits(tok)
    ensures var v := 10 * DigitValue(tok[0]) + DigitValue(tok[1]);
      FieldValue(Month, tok) == (if 1 <= v <= 12 then Some(v) else None) &&
      FieldValue(Day, tok) == (if 1 <= v <= 31 then Some(v) else None)
  {
    DigitsValue2(tok);
  }

  lemma YearOf2024()
    ensures FieldValue(Year, "2024") == Some(2024)
  {
    DigitsValue4("2024");
  }

  lemma Pad2024()
    ensures PadDigits(2024, 4) == "2024"
  {
    DigitsValue4("2024");
    PadDigitsOfValue("2024");
  }

  lemma PadTwo(tok: string)
    requires |tok| == 2 && AllDigits(tok)
    ensures PadDigits(10 * DigitValue(tok[0]) + DigitValue(tok[1]), 2) == tok
  {
    DigitsValue2(tok);
    PadDigitsOfValue(tok);
  }

  /** %d/%m/%Y reads day, month and year from the three pieces. */
  lemma ReadDayFirst(a: string, b: string, c: string, d: int, m: int, y: int)
    requires FieldValue(Day, a) == Some(d) && FieldValue(Month, b) == Some(m) && FieldValue(Year, c) == Some(y)
    ensures ReadDate(DATE_FORMATS[1], a, b, c) == if ValidDate(Date(y, m, d)) then Some(Date(y, m, d)) else None
  {
  }

  /** %m/%d/%Y reads month, day and year from the three pieces. */
  lemma ReadMonthFirst(a: string, b: string, c: string, m: int, d: int, y: int)
    requires FieldValue(Month, a) == Some(m) && FieldValue(Day, b) == Some(d) && FieldValue(Year, c) == Some(y)
    ensures ReadDate(DATE_FORMATS[2], a, b, c) == if ValidDate(Date(y, m, d)) then Some(Date(y, m, d)) else None
  {
  }

  lemma Token05()
    ensures FieldValue(Day, "05") == Some(5)
  {
    TwoDigitFields("05");
  }

  lemma Token01()
    ensures FieldValue(Month, "01") == Some(1)
  {
    TwoDigitFields("01");
  }

  lemma Token12()
    ensures FieldValue(Month, "12") == Some(12)
  {
    TwoDigitFields("12");
  }

  lemma Token31()
    ensures FieldValue(Day, "31") == Some(31)
    ensures FieldValue(Month, "31") == None
  {
    TwoDigitFields("31");
  }

  lemma Token02()
    ensures FieldValue(Month, "02") == Some(2)
  {
    TwoDigitFields("02");
  }

  lemma SlashedSplit()
    ensures "05/01/2024" == "05" + ['/'] + "01" + ['/'] + "2024"
    ensures "12/31/2024" == "12" + ['/'] + "31" + ['/'] + "2024"
    ensures "31/02/2024" == "31" + ['/'] + "02" + ['/'] + "2024"
  {
  }

  /** The ISO text of a date, character by character. */
  lemma IsoChars(y: string, m: string, d: string)
    requires |y| == 4 && |m| == 2 && |d| == 2
    ensures y + "-" + m + "-" + d == [y[0], y[1], y[2], y[3], '-', m[0], m[1], '-', d[0], d[1]]
  {
  }

  /** "05/01/2024" read day first is 5 January 2024. */
  lemma DayFirstRead()
    ensures ParseWith(DATE_FORMATS[1], "05/01/2024") == Some(Date(2024, 1, 5))
  {
    SlashedSplit();
    ParseWithPieces(DATE_FORMATS[1], "05", "01", "2024");
    Token05();
    Token01();
    YearOf2024();
    ReadDayFirst("05", "01", "2024", 5, 1, 2024);
  }

  lemma IsoOfExample()
    ensures IsoFormat(Date(2024, 1, 5)) == "2024-01-05"
  {
    Pad2024();
    PadTwo("01");
    PadTwo("05");
    IsoChars("2024", "01", "05");
  }

  lemma SlashedFirstParse()
    ensures FirstParse(DATE_FORMATS, "05/01/2024") == Some(Date(2024, 1, 5))
  {
    SlashedOnly("05/01/2024");
    DayFirstRead();
  }

  /** An ambiguous slashed date is read day first: %d/%m/%Y is tried before %m/%d/%Y. */
  lemma DayFirstExample()
    ensures NormalizedDate("05/01/2024") == Some("2024-01-05")
  {
    StripOfTrimmed("05/01/2024");
    SlashedFirstParse();
    IsoOfExample();
  }

  /** "12/31/2024" has no month 31, so the month-first format reads it. */
  lemma MonthFirstRejectsDayFirst()
    ensures ParseWith(DATE_FORMATS[1], "12/31/2024").None?
  {
    SlashedSplit();
    ParseWithPieces(DATE_FORMATS[1], "12", "31", "2024");
    Token31();
  }

  lemma MonthFirstRead()
    ensures ParseWith(DATE_FORMATS[2], "12/31/2024") == Some(Date(2024, 12, 31))
  {
    SlashedSplit();
    ParseWithPieces(DATE_FORMATS[2], "12", "31", "2024");
    Token12();
    Token31();
    YearOf2024();
    ReadMonthFirst("12", "31", "2024", 12, 31, 2024);
  }

  lemma MonthFirstParse()
    ensures FirstParse(DATE_FORMATS, "12/31/2024") == Some(Date(2024, 12, 31))
  {
    SlashedOnly("12/31/2024");
    MonthFirstRejectsDayFirst();
    MonthFirstRead();
  }

  lemma IsoOfMonthFirst()
    ensures IsoFormat(Date(2024, 12, 31)) == "2024-12-31"
  {
    Pad2024();
    PadTwo("12");
    PadTwo("31");
    IsoChars("2024", "12", "31");
  }

  /** A slashed date that only makes sense month first is read month first. */
  lemma MonthFirstExample()
    ensures NormalizedDate("12/31/2024") == Some("2024-12-31")
  {
    StripOfTrimmed("12/31/2024");
    MonthFirstParse();
    IsoOfMonthFirst();
  }

  /** "31/02/2024": 31 February does not exist, and there is no month 31. */
  lemma Feb31DayFirst()
    ensures ParseWith(DATE_FORMATS[1], "31/02/2024").None?
  {
    SlashedSplit();
    ParseWithPieces(DATE_FORMATS[1], "31", "02", "2024");
    Token31();
    Token02();
    YearOf2024();
    ReadDayFirst("31", "02", "2024", 31, 2, 2024);
  }

  lemma Feb31MonthFirst()
    ensures ParseWith(DATE_FORMATS[2], "31/02/2024").None?
  {
    SlashedSplit();
    ParseWithPieces(DATE_FORMATS[2], "31", "02", "2024");
    Token31();
  }

  lemma Feb31FirstParse()
    ensures FirstParse(DATE_FORMATS, "31/02/2024") == None
  {
    SlashedOnly("31/02/2024");
    Feb31DayFirst();
    Feb31MonthFirst();
  }

  /** A slashed text that is no calendar date under either order is rejected. */
  lemma InvalidDateExample()
    ensures NormalizedDate("31/02/2024") == None
  {
    StripOfTrimmed("31/02/2024");
    Feb31FirstParse();
  }

}
