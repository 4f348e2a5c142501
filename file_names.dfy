/**
 * Budget document file names: the name a new document is given,
 * `"{year} - {month_name}.xlsx"`, and the parse
 * `datetime.strptime(name, '%Y - %B.xlsx')` that recovers its month.
 */
module FileNames {
  import opened Wrappers
  import opened Numerals
  import opened Strings
  import opened Calendar

  /** The name given to the budget document of month p. */
  function FileName(p: YearMonth): string
    requires p.Valid()
  {
    NatToString(p.year) + " - " + MonthName(p.month) + ".xlsx"
  }

  /** The first month m >= from whose "<Name>.xlsx" s spells, ignoring ASCII case, as `%B.xlsx` matches. */
  function MatchMonth(s: string, from: int): (r: Option<int>)
    requires 1 <= from <= 13
    ensures r.Some? ==> from <= r.value <= 12 && EqualsIgnoreCase(s, MonthName(r.value) + ".xlsx")
    ensures r.None? ==> forall m :: from <= m <= 12 ==> !EqualsIgnoreCase(s, MonthName(m) + ".xlsx")
    decreases 13 - from
  {
    if from == 13 then None
    else if EqualsIgnoreCase(s, MonthName(from) + ".xlsx") then Some(from)
    else MatchMonth(s, from + 1)
  }

  /** What follows the `\s+-\s+` that the blanks around '-' in the format stand for, if s starts with one. */
  function AfterSeparator(s: string): Option<string> {
    var dash := SkipSpaces(s);
    if |dash| == |s| || dash == [] || dash[0] != '-' then None
    else
      var afterDash := dash[1..];
      var rest := SkipSpaces(afterDash);
      if |rest| == |afterDash| then None else Some(rest)
  }

  /**
   * `datetime.strptime(name, '%Y - %B.xlsx')`, reduced to the year and the
   * month: exactly four digits, a run of whitespace, '-', a run of
   * whitespace (strptime turns each blank of the format into `\s+`), then a
   * full month name and ".xlsx" in any ASCII case, and nothing after. Year 0
   * is refused, as `datetime` refuses it.
   */
  function ParseFileName(name: string): (r: Option<YearMonth>)
    ensures r.Some? ==> r.value.Valid()
  {
    if |name| < 4 || !AllDigits(name[..4]) then None
    else
      FourDigitsBelow(name[..4]);
      ParseAfterYear(DigitsValue(name[..4]), name[4..])
  }

  /** The part of the parse after the four digits of the year. */
  function ParseAfterYear(year: nat, rest: string): (r: Option<YearMonth>)
    requires year <= MaxYear
    ensures r.Some? ==> r.value.Valid()
  {
    match AfterSeparator(rest)
    case None => None
    case Some(monthText) =>
      match MatchMonth(monthText, 1)
      case None => None
      case Some(m) => if year < MinYear then None else Some(YearMonth(year, m))
  }

  lemma SeparatorSkipped(x: string)
    requires x != [] && !IsSpace(x[0])
    ensures AfterSeparator(" - " + x) == Some(x)
  {
    var s, d := " - " + x, "- " + x;
    assert SkipSpaces(s) == d by {
      assert s == " " + d;
      SkipOneSpace(d);
    }
    assert |d| != |s| && d != [] && d[0] == '-';
    var a := d[1..];
    assert SkipSpaces(a) == x by {
      assert a == " " + x;
      SkipOneSpace(x);
    }
    assert |x| != |a|;
  }

  /** Two different months never spell the same "<Name>.xlsx", whatever the case. */
  lemma MonthFileSuffixesDistinct(j: int, m: int)
    requires 1 <= j <= 12 && 1 <= m <= 12 && j != m
    ensures !EqualsIgnoreCase(MonthName(j) + ".xlsx", MonthName(m) + ".xlsx")
  {
    var a, b := MonthName(j) + ".xlsx", MonthName(m) + ".xlsx";
    if |a| == |b| {
      assert a[0] == MonthName(j)[0] && b[0] == MonthName(m)[0];
      assert a[2] == MonthName(j)[2] && b[2] == MonthName(m)[2];
      assert LowerAscii(a[0]) != LowerAscii(b[0]) || LowerAscii(a[2]) != LowerAscii(b[2]);
    }
  }

  /** A name of the form "dddd - x", x not starting with a blank, parses as its year and the month x spells. */
  lemma ParseOfSeparatedName(digits: string, x: string)
    requires |digits| == 4 && AllDigits(digits) && x != [] && !IsSpace(x[0])
    ensures MatchMonth(x, 1).None? ==> ParseFileName(digits + " - " + x) == None
    ensures MatchMonth(x, 1).Some? && DigitsValue(digits) >= MinYear ==>
      ParseFileName(digits + " - " + x) == Some(YearMonth(DigitsValue(digits), MatchMonth(x, 1).value))
  {
    var name := digits + " - " + x;
    assert name[..4] == digits && name[4..] == " - " + x;
    FourDigitsBelow(digits);
    SeparatorSkipped(x);
    assert ParseFileName(name) == ParseAfterYear(DigitsValue(digits), " - " + x);
  }

  /** For every year with four digits, parsing the name a document is given returns its month: the file name round trip. */
  lemma FileNameRoundTrip(p: YearMonth)
    requires p.Valid() && 1000 <= p.year
    ensures ParseFileName(FileName(p)) == Some(p)
  {
    var digits := NatToString(p.year);
    NatToStringLength(p.year);
    NatToStringValue(p.year);
    var x := MonthName(p.month) + ".xlsx";
    assert FileName(p) == digits + " - " + x;
    ParseOfSeparatedName(digits, x);
    var r := MatchMonth(x, 1);
    assert forall i :: 0 <= i < |x| ==> LowerAscii(x[i]) == LowerAscii(x[i]);
    if r.Some? && r.value != p.month {
      MonthFileSuffixesDistinct(p.month, r.value);
    }
  }

  /** A year below 1000 has fewer than four digits, so the name its document is given does not parse. */
  lemma ShortYearNameNotParsed(p: YearMonth)
    requires p.Valid() && p.year < 1000
    ensures ParseFileName(FileName(p)) == None
  {
    var digits := NatToString(p.year);
    NatToStringLength(p.year);
    var name := FileName(p);
    assert name[|digits|] == ' ';
    assert !IsDigit(name[..4][|digits|]);
  }

  /** The previous month's file name as the source builds it (biweekly_finances.py:39-40), with the month as a number. */
  function PredecessorFileNameAsWritten(p: YearMonth): string
    requires p.Valid() && (p.year, p.month) != (MinYear, 1)
  {
    var q := Previous(p);
    NatToString(q.year) + " - " + NatToString(q.month) + ".xlsx"
  }

  /** The previous month's file name in the format the documents are given and parsed with. */
  function PredecessorFileName(p: YearMonth): string
    requires p.Valid() && (p.year, p.month) != (MinYear, 1)
  {
    FileName(Previous(p))
  }

  /** The name built with the numeric month never parses with '%Y - %B.xlsx', whatever the month. */
  lemma AsWrittenPredecessorNameNeverParses(p: YearMonth)
    requires p.Valid() && (p.year, p.month) != (MinYear, 1)
    ensures ParseFileName(PredecessorFileNameAsWritten(p)) == None
  {
    var q := Previous(p);
    var digits := NatToString(q.year);
    NatToStringLength(q.year);
    var name := PredecessorFileNameAsWritten(p);
    if q.year < 1000 {
      assert name[|digits|] == ' ';
      assert !IsDigit(name[..4][|digits|]);
    } else {
      var x := NatToString(q.month) + ".xlsx";
      assert name == digits + " - " + x;
      assert IsDigit(x[0]);
      ParseOfSeparatedName(digits, x);
    }
  }

  /** The corrected name parses back to the previous month. */
  lemma PredecessorFileNameParses(p: YearMonth)
    requires p.Valid() && (p.year, p.month) != (MinYear, 1) && Previous(p).year >= 1000
    ensures ParseFileName(PredecessorFileName(p)) == Some(Previous(p))
  {
    FileNameRoundTrip(Previous(p));
  }
}
