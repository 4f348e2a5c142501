/**
 * The roll-forward of `_populate_excel_values_from_previous_month`: from a
 * copy of the budget template and, when there is one, the previous month's
 * document, build the new month's document.
 *
 * The functions below define what each phase does to the sheets, and
 * `Run` what the whole procedure leaves in the file: either the finished
 * document or, when the Python code would raise, what the last save before
 * the exception wrote. The methods in module `Populate` perform the phases
 * on a `Workbook` and are proved to do what these functions say.
 */
module RollForward {
  import opened Wrappers
  import opened Numerals
  import opened Strings
  import opened Calendar
  import opened FileNames
  import opened Spreadsheet

  // ---------------------------------------------------------------------
  // Layout of the budget template (lines 75-82)
  // ---------------------------------------------------------------------

  const PayStartCell := CellRef("B", 25)
  const PayEndCell := CellRef("B", 26)
  const ReceiptStartCell := CellRef("B", 24)
  const ReceiptEndCell := CellRef("B", 25)
  const TotalColumn := "C"
  const NewTotalColumn := "H"
  /** The money categories occupy rows 2 to 21. */
  const FirstCategoryRow := 2
  const CategoryRowsEnd := 22

  /** The "total amount" of a category row. */
  function TotalCell(row: int): CellRef {
    CellRef(TotalColumn, row)
  }

  /** The "new total amount" of a category row. */
  function NewTotalCell(row: int): CellRef {
    CellRef(NewTotalColumn, row)
  }

  /** The number of one of the three sub-periods of a month. */
  type SubPeriod = k: int | 1 <= k <= 3 witness 1

  /** "Pay k", the title the template gives the pay sheet of sub-period k. The ensures are shape facts (length, last character) that the title-distinctness lemmas below rest on. */
  function TemplatePayTitle(k: SubPeriod): (t: string)
    ensures |t| == 5 && t[4] == DigitChar(k)
  {
    "Pay " + [DigitChar(k)]
  }

  /** "Receipt k"; receipt sheets keep their template titles. The ensures are shape facts that the title-distinctness lemmas rest on. */
  function ReceiptTitle(k: SubPeriod): (t: string)
    ensures |t| == 9 && t[8] == DigitChar(k)
  {
    "Receipt " + [DigitChar(k)]
  }

  /** "<abbr> - Pay k", the title a pay sheet gets in the document of the month abbreviated abbr. The ensures are shape facts that the title-distinctness lemmas rest on. */
  function PayTitle(abbr: string, k: SubPeriod): (t: string)
    ensures |t| == |abbr| + 8 && t[|t| - 1] == DigitChar(k)
  {
    abbr + " - " + TemplatePayTitle(k)
  }

  /** The titles of different sub-periods differ. */
  lemma SubPeriodTitlesDistinct(abbr: string, j: SubPeriod, k: SubPeriod)
    requires j != k
    ensures PayTitle(abbr, j) != PayTitle(abbr, k)
    ensures ReceiptTitle(j) != ReceiptTitle(k)
    ensures TemplatePayTitle(j) != TemplatePayTitle(k)
  {
    assert DigitValue(DigitChar(j)) != DigitValue(DigitChar(k));
    var pj, pk := PayTitle(abbr, j), PayTitle(abbr, k);
    assert pj[|pj| - 1] != pk[|pk| - 1];
    assert ReceiptTitle(j)[8] != ReceiptTitle(k)[8];
    assert TemplatePayTitle(j)[4] != TemplatePayTitle(k)[4];
  }

  /** The six titles of a month's document are pairwise different. */
  lemma MonthTitlesDistinct(abbr: string)
    requires |abbr| == 3
    ensures PayTitle(abbr, 1) != PayTitle(abbr, 2) && PayTitle(abbr, 2) != PayTitle(abbr, 3) && PayTitle(abbr, 1) != PayTitle(abbr, 3)
    ensures ReceiptTitle(1) != ReceiptTitle(2) && ReceiptTitle(2) != ReceiptTitle(3) && ReceiptTitle(1) != ReceiptTitle(3)
    ensures forall j: SubPeriod, k: SubPeriod :: PayTitle(abbr, j) != ReceiptTitle(k)
  {
    SubPeriodTitlesDistinct(abbr, 1, 2);
    SubPeriodTitlesDistinct(abbr, 2, 3);
    SubPeriodTitlesDistinct(abbr, 1, 3);
    forall j: SubPeriod, k: SubPeriod ensures PayTitle(abbr, j) != ReceiptTitle(k) {
      assert |PayTitle(abbr, j)| != |ReceiptTitle(k)|;
    }
  }

  // ---------------------------------------------------------------------
  // The phases, as functions of the sheets
  // ---------------------------------------------------------------------

  /**
   * No sheet of the template has a title that openpyxl would take for a
   * duplicate (it compares titles ignoring case) of a title the renaming
   * introduces, whatever the month.
   */
  ghost predicate NoRetitleCollision(template: Book) {
    forall t, m: int, k: SubPeriod :: t in template && 1 <= m <= 12 ==> !EqualsIgnoreCase(t, PayTitle(MonthAbbr(m), k))
  }

  predicate HasTemplatePaySheets(b: Book) {
    TemplatePayTitle(1) in b && TemplatePayTitle(2) in b && TemplatePayTitle(3) in b
  }

  predicate HasReceiptSheets(b: Book) {
    ReceiptTitle(1) in b && ReceiptTitle(2) in b && ReceiptTitle(3) in b
  }

  predicate HasMonthSheets(b: Book, abbr: string) {
    PayTitle(abbr, 1) in b && PayTitle(abbr, 2) in b && PayTitle(abbr, 3) in b && HasReceiptSheets(b)
  }

  /** Is t among "Pay 1", "Pay 2", "Pay 3"? */
  predicate IsTemplatePayTitle(t: string) {
    t == TemplatePayTitle(1) || t == TemplatePayTitle(2) || t == TemplatePayTitle(3)
  }

  /** Is t the title of one of the six sheets of the document of the month abbreviated abbr? */
  predicate IsMonthSheet(t: string, abbr: string) {
    t == PayTitle(abbr, 1) || t == PayTitle(abbr, 2) || t == PayTitle(abbr, 3)
    || t == ReceiptTitle(1) || t == ReceiptTitle(2) || t == ReceiptTitle(3)
  }

  /** Step 1 (lines 60-62): pay sheet "Pay k" retitled "<abbr> - Pay k", for k = 1, 2, 3 in turn. */
  function Renamed(b: Book, abbr: string): (r: Book)
    requires |abbr| == 3 && HasTemplatePaySheets(b)
    requires PayTitle(abbr, 1) !in b && PayTitle(abbr, 2) !in b && PayTitle(abbr, 3) !in b
    ensures r.Keys == b.Keys - {TemplatePayTitle(1), TemplatePayTitle(2), TemplatePayTitle(3)}
                              + {PayTitle(abbr, 1), PayTitle(abbr, 2), PayTitle(abbr, 3)}
    ensures r[PayTitle(abbr, 1)] == b[TemplatePayTitle(1)]
    ensures r[PayTitle(abbr, 2)] == b[TemplatePayTitle(2)]
    ensures r[PayTitle(abbr, 3)] == b[TemplatePayTitle(3)]
    ensures forall t :: t in b && !IsTemplatePayTitle(t) ==> r[t] == b[t]
  {
    var first := Retitled(b, TemplatePayTitle(1), PayTitle(abbr, 1));
    var second := Retitled(first, TemplatePayTitle(2), PayTitle(abbr, 2));
    Retitled(second, TemplatePayTitle(3), PayTitle(abbr, 3))
  }

  /**
   * Lines 92-103: the predecessor's most recent pay sheet is Pay 3 if it has
   * one, else Pay 2 if it has one, else Pay 1; that is, the highest-numbered
   * one present.
   */
  function MostRecentPay(prev: Book, abbr: string): (k: SubPeriod)
    ensures k == 1 || PayTitle(abbr, k) in prev
    ensures forall j: SubPeriod :: k < j ==> PayTitle(abbr, j) !in prev
  {
    if PayTitle(abbr, 3) in prev then 3
    else if PayTitle(abbr, 2) in prev then 2
    else 1
  }

  /** Is c one of the "total amount" cells of the rows below rowsEnd? */
  predicate IsCarriedCell(c: CellRef, rowsEnd: int) {
    c.column == TotalColumn && FirstCategoryRow <= c.row < rowsEnd
  }

  /**
   * Lines 108-113, rows 2 to rowsEnd - 1: the "total amount" of pay sheet
   * pay1 takes the value of the source sheet's "new total amount" on the
   * same row, blank included.
   */
  function CarriedForward(b: Book, pay1: string, src: Sheet, rowsEnd: int): (r: Book)
    requires pay1 in b
    requires FirstCategoryRow <= rowsEnd <= CategoryRowsEnd
    ensures r.Keys == b.Keys
    ensures forall t :: t in b && t != pay1 ==> r[t] == b[t]
    ensures forall row :: FirstCategoryRow <= row < rowsEnd ==> Get(r[pay1], TotalCell(row)) == Get(src, NewTotalCell(row))
    ensures forall c :: !IsCarriedCell(c, rowsEnd) ==> Get(r[pay1], c) == Get(b[pay1], c)
    decreases rowsEnd
  {
    if rowsEnd == FirstCategoryRow then b
    else
      var row := rowsEnd - 1;
      WithCell(CarriedForward(b, pay1, src, row), pay1, TotalCell(row), Get(src, NewTotalCell(row)))
  }

  /** The first and the last day of a sub-period, as `date` ordinals. */
  datatype Span = Span(start: int, end: int)

  /**
   * Lines 126-131: three sub-periods of 14 days, the first starting the day
   * after lastEnd and each of the others the day after the one before it
   * ends; sub-period k (at index k - 1) covers lastEnd + 14(k-1) + 1 to
   * lastEnd + 14k.
   */
  function DateChain(lastEnd: int): (c: seq<Span>)
    ensures |c| == 3
    ensures forall i :: 0 <= i < 3 ==> c[i] == Span(lastEnd + 14 * i + 1, lastEnd + 14 * (i + 1))
  {
    var start1 := lastEnd + 1;
    var end1 := start1 + 13;
    var start2 := end1 + 1;
    var end2 := start2 + 13;
    var start3 := end2 + 1;
    var end3 := start3 + 13;
    [Span(start1, end1), Span(start2, end2), Span(start3, end3)]
  }

  /** Both days of the span are dates `datetime` can hold. */
  predicate SpanInRange(span: Span) {
    1 <= span.start <= span.end <= MaxOrdinal
  }

  /** Is c on sheet t one of the two date cells of sub-period k? */
  predicate IsDateCellOf(t: string, c: CellRef, abbr: string, k: SubPeriod) {
    (t == PayTitle(abbr, k) && (c == PayStartCell || c == PayEndCell))
    || (t == ReceiptTitle(k) && (c == ReceiptStartCell || c == ReceiptEndCell))
  }

  predicate IsDateCell(t: string, c: CellRef, abbr: string) {
    IsDateCellOf(t, c, abbr, 1) || IsDateCellOf(t, c, abbr, 2) || IsDateCellOf(t, c, abbr, 3)
  }

  /** The pay sheet of sub-period k shows span in B25 and B26, its receipt sheet in B24 and B25. */
  predicate ShowsDates(b: Book, abbr: string, k: SubPeriod, span: Span)
    requires SpanInRange(span)
  {
    PayTitle(abbr, k) in b && ReceiptTitle(k) in b
    && Get(b[PayTitle(abbr, k)], PayStartCell) == Date(span.start)
    && Get(b[PayTitle(abbr, k)], PayEndCell) == Date(span.end)
    && Get(b[ReceiptTitle(k)], ReceiptStartCell) == Date(span.start)
    && Get(b[ReceiptTitle(k)], ReceiptEndCell) == Date(span.end)
  }

  /** Lines 134-145 for one sub-period: its first and last day written to its pay and receipt sheets. */
  function WithSubPeriodDates(b: Book, abbr: string, k: SubPeriod, span: Span): (r: Book)
    requires |abbr| == 3 && PayTitle(abbr, k) in b && ReceiptTitle(k) in b && SpanInRange(span)
    ensures r.Keys == b.Keys
    ensures ShowsDates(r, abbr, k, span)
    ensures forall t :: t in b && t != PayTitle(abbr, k) && t != ReceiptTitle(k) ==> r[t] == b[t]
    ensures forall t, c :: t in b && !IsDateCellOf(t, c, abbr, k) ==> Get(r[t], c) == Get(b[t], c)
  {
    var pay := PayTitle(abbr, k);
    var receipt := ReceiptTitle(k);
    var b1 := WithCell(b, pay, PayStartCell, Date(span.start));
    var b2 := WithCell(b1, pay, PayEndCell, Date(span.end));
    var b3 := WithCell(b2, receipt, ReceiptStartCell, Date(span.start));
    WithCell(b3, receipt, ReceiptEndCell, Date(span.end))
  }

  /** Writing the dates of one sub-period leaves those of another in place. */
  lemma OtherDatesKept(b: Book, abbr: string, k: SubPeriod, span: Span, j: SubPeriod, other: Span)
    requires |abbr| == 3 && PayTitle(abbr, k) in b && ReceiptTitle(k) in b && SpanInRange(span)
    requires j != k && SpanInRange(other) && ShowsDates(b, abbr, j, other)
    ensures ShowsDates(WithSubPeriodDates(b, abbr, k, span), abbr, j, other)
  {
    SubPeriodTitlesDistinct(abbr, j, k);
    assert PayTitle(abbr, j) != PayTitle(abbr, k) && ReceiptTitle(j) != ReceiptTitle(k);
    assert PayTitle(abbr, j) != ReceiptTitle(k) && ReceiptTitle(j) != PayTitle(abbr, k);
  }

  /** Lines 134-145: the dates of the three sub-periods written, sub-period 1 first. */
  function WithDates(b: Book, abbr: string, c: seq<Span>): (r: Book)
    requires |abbr| == 3 && HasMonthSheets(b, abbr)
    requires |c| == 3 && SpanInRange(c[0]) && SpanInRange(c[1]) && SpanInRange(c[2])
    ensures r.Keys == b.Keys
    ensures ShowsDates(r, abbr, 1, c[0]) && ShowsDates(r, abbr, 2, c[1]) && ShowsDates(r, abbr, 3, c[2])
    ensures forall t, cell :: t in b && !IsDateCell(t, cell, abbr) ==> Get(r[t], cell) == Get(b[t], cell)
    ensures forall t :: t in b && !IsMonthSheet(t, abbr) ==> r[t] == b[t]
  {
    var b1 := WithSubPeriodDates(b, abbr, 1, c[0]);
    var b2 := WithSubPeriodDates(b1, abbr, 2, c[1]);
    OtherDatesKept(b1, abbr, 2, c[1], 1, c[0]);
    OtherDatesKept(b2, abbr, 3, c[2], 1, c[0]);
    OtherDatesKept(b2, abbr, 3, c[2], 2, c[1]);
    WithSubPeriodDates(b2, abbr, 3, c[2])
  }

  /** For rows 2 to rowsEnd - 1, the "total amount" of the sheet is text, as `.replace` needs. */
  predicate FormulasAreText(s: Sheet, rowsEnd: int) {
    forall row :: FirstCategoryRow <= row < rowsEnd ==> Get(s, TotalCell(row)).Text?
  }

  /**
   * Lines 149-154 on one sheet, rows 2 to rowsEnd - 1: each "total amount"
   * formula with every occurrence of `from` replaced by `to`.
   */
  function ReanchoredSheet(s: Sheet, from: string, to: string, rowsEnd: int): (r: Sheet)
    requires from != [] && FirstCategoryRow <= rowsEnd <= CategoryRowsEnd
    requires FormulasAreText(s, rowsEnd)
    ensures forall row :: FirstCategoryRow <= row < rowsEnd ==>
      Get(r, TotalCell(row)) == Text(Replace(Get(s, TotalCell(row)).text, from, to))
    ensures forall c :: !IsCarriedCell(c, rowsEnd) ==> Get(r, c) == Get(s, c)
    decreases rowsEnd
  {
    if rowsEnd == FirstCategoryRow then s
    else
      var row := rowsEnd - 1;
      ReanchoredSheet(s, from, to, row)[TotalCell(row) := Text(Replace(Get(s, TotalCell(row)).text, from, to))]
  }

  /**
   * Lines 149-154, rows 2 to rowsEnd - 1: in the "total amount" formulas of
   * Pay 2, "Pay 1" is replaced by the new title of Pay 1, and in those of
   * Pay 3, "Pay 2" by the new title of Pay 2.
   */
  function Reanchored(b: Book, abbr: string, rowsEnd: int): (r: Book)
    requires |abbr| == 3 && PayTitle(abbr, 2) in b && PayTitle(abbr, 3) in b
    requires FirstCategoryRow <= rowsEnd <= CategoryRowsEnd
    requires FormulasAreText(b[PayTitle(abbr, 2)], rowsEnd) && FormulasAreText(b[PayTitle(abbr, 3)], rowsEnd)
    ensures r.Keys == b.Keys
    ensures forall t :: t in b && t != PayTitle(abbr, 2) && t != PayTitle(abbr, 3) ==> r[t] == b[t]
    ensures r[PayTitle(abbr, 2)] == ReanchoredSheet(b[PayTitle(abbr, 2)], TemplatePayTitle(1), PayTitle(abbr, 1), rowsEnd)
    ensures r[PayTitle(abbr, 3)] == ReanchoredSheet(b[PayTitle(abbr, 3)], TemplatePayTitle(2), PayTitle(abbr, 2), rowsEnd)
  {
    var pay2, pay3 := PayTitle(abbr, 2), PayTitle(abbr, 3);
    SubPeriodTitlesDistinct(abbr, 2, 3);
    var sheet2 := ReanchoredSheet(b[pay2], TemplatePayTitle(1), PayTitle(abbr, 1), rowsEnd);
    var sheet3 := ReanchoredSheet(b[pay3], TemplatePayTitle(2), PayTitle(abbr, 2), rowsEnd);
    WithSheet(WithSheet(b, pay2, sheet2), pay3, sheet3)
  }

  /** Why the Python code raises, and where. */
  datatype Failure =
    | NameNotParsed(name: string)             // strptime raises ValueError
    | MissingSheet(title: string)             // workbook[title] raises KeyError
    | StartDayNotInteger(answer: string)      // int() raises ValueError
    | StartDayNotInMonth(day: int)            // datetime() raises ValueError
    | EndNotADate                             // a timedelta added to a non-date raises TypeError
    | DateOutOfRange                          // date arithmetic raises OverflowError
    | FormulaNotText(title: string, row: int) // `.replace` on a non-string raises AttributeError

  /**
   * The formula loop of lines 149-152, looked at ahead of time: the first
   * row from `row` on, and within it the first of Pay 2 and Pay 3, whose
   * "total amount" is not text.
   */
  function FirstNonTextFormula(b: Book, abbr: string, row: int): (f: Option<Failure>)
    requires PayTitle(abbr, 2) in b && PayTitle(abbr, 3) in b
    requires FirstCategoryRow <= row <= CategoryRowsEnd
    ensures f.None? <==> forall r :: row <= r < CategoryRowsEnd ==>
      Get(b[PayTitle(abbr, 2)], TotalCell(r)).Text? && Get(b[PayTitle(abbr, 3)], TotalCell(r)).Text?
    decreases CategoryRowsEnd - row
  {
    if row == CategoryRowsEnd then None
    else if !Get(b[PayTitle(abbr, 2)], TotalCell(row)).Text? then Some(FormulaNotText(PayTitle(abbr, 2), row))
    else if !Get(b[PayTitle(abbr, 3)], TotalCell(row)).Text? then Some(FormulaNotText(PayTitle(abbr, 3), row))
    else FirstNonTextFormula(b, abbr, row + 1)
  }

  /**
   * Lines 158-168: the pay and receipt sheets of sub-period 3 removed when
   * it ends after lastDay, then those of sub-period 2 when it does.
   */
  function Pruned(b: Book, abbr: string, c: seq<Span>, lastDay: int): (r: Book)
    requires |abbr| == 3 && HasMonthSheets(b, abbr) && |c| == 3
    ensures PayTitle(abbr, 3) in r <==> c[2].end <= lastDay
    ensures ReceiptTitle(3) in r <==> c[2].end <= lastDay
    ensures PayTitle(abbr, 2) in r <==> c[1].end <= lastDay
    ensures ReceiptTitle(2) in r <==> c[1].end <= lastDay
    ensures PayTitle(abbr, 1) in r && ReceiptTitle(1) in r
    ensures r.Keys <= b.Keys
    ensures forall t :: t in r ==> r[t] == b[t]
    ensures forall t :: t in b && !IsMonthSheet(t, abbr) ==> t in r
  {
    MonthTitlesDistinct(abbr);
    var afterThird := if c[2].end > lastDay then b - {PayTitle(abbr, 3)} - {ReceiptTitle(3)} else b;
    if c[1].end > lastDay then afterThird - {PayTitle(abbr, 2)} - {ReceiptTitle(2)} else afterThird
  }

  // ---------------------------------------------------------------------
  // The whole procedure
  // ---------------------------------------------------------------------

  /** The previous month's document as loaded with `data_only=True`: its base name and its cached values. */
  datatype Predecessor = Predecessor(name: string, book: Book)

  /** What the procedure leaves in the file: the finished document, or the failure and what the last save wrote. */
  datatype Outcome = Completed(book: Book) | Aborted(failure: Failure, saved: Book)

  function Stored(o: Outcome): Book {
    if o.Completed? then o.book else o.saved
  }

  function FailureOf(o: Outcome): Option<Failure> {
    if o.Completed? then None else Some(o.failure)
  }

  /** The document with the balances in place and the end of the period before it, or the failure that stops the procedure. */
  datatype Anchor = Anchored(book: Book, lastEnd: Value) | NotAnchored(failure: Failure)

  /**
   * Lines 87-103: the title of the predecessor's most recent pay sheet,
   * with the month abbreviation its file name gives; none when the name
   * does not parse.
   */
  function SourceTitle(pred: Predecessor): (t: Option<string>)
    ensures t.Some? <==> ParseFileName(pred.name).Some?
  {
    match ParseFileName(pred.name)
    case None => None
    case Some(q) =>
      var prevAbbr := MonthAbbr(q.month);
      Some(PayTitle(prevAbbr, MostRecentPay(pred.book, prevAbbr)))
  }

  /**
   * Lines 86-113, with a predecessor: pick its most recent pay sheet,
   * carry its balances forward to Pay 1, and take its end date (B26).
   */
  function AnchorOnPredecessor(b: Book, abbr: string, pred: Predecessor): (a: Anchor)
    requires PayTitle(abbr, 1) in b
    ensures a.Anchored? ==> a.book.Keys == b.Keys
  {
    match SourceTitle(pred)
    case None => NotAnchored(NameNotParsed(pred.name))
    case Some(title) =>
      if title !in pred.book then NotAnchored(MissingSheet(title))
      else
        var src := pred.book[title];
        Anchored(CarriedForward(b, PayTitle(abbr, 1), src, CategoryRowsEnd), Get(src, PayEndCell))
  }

  /**
   * Lines 117-122, without a predecessor: the operator's answer, read by
   * `int`, is a day of the target month, and the day before it stands in
   * for the predecessor's end date.
   */
  function AnchorOnStartDay(b: Book, p: YearMonth, answer: string): (a: Anchor)
    requires p.Valid()
    ensures a.Anchored? ==> a.book == b
  {
    var day := ParseInt(answer);
    if day.None? then NotAnchored(StartDayNotInteger(answer))
    else if !IsValidDate(p.year, p.month, day.value) then NotAnchored(StartDayNotInMonth(day.value))
    else
      OrdinalInRange(p.year, p.month, day.value);
      var first := ToOrdinal(p.year, p.month, day.value);
      if first == 1 then NotAnchored(DateOutOfRange) else Anchored(b, Date(first - 1))
  }

  /** Lines 85-122: anchored on the predecessor if its file exists, on the start day otherwise. */
  function AnchorOf(b: Book, p: YearMonth, abbr: string, prev: Option<Predecessor>, answer: string): (a: Anchor)
    requires p.Valid() && PayTitle(abbr, 1) in b
    ensures a.Anchored? ==> a.book.Keys == b.Keys
  {
    if prev.Some? then AnchorOnPredecessor(b, abbr, prev.value) else AnchorOnStartDay(b, p, answer)
  }

  /** Lines 124-168, from the anchored document on. */
  function Finish(anchored: Book, p: YearMonth, abbr: string, lastEnd: Value): Outcome
    requires p.Valid() && |abbr| == 3 && HasMonthSheets(anchored, abbr)
  {
    if !lastEnd.Date? then Aborted(EndNotADate, anchored)
    else if lastEnd.day + 42 > MaxOrdinal then Aborted(DateOutOfRange, anchored)
    else
      var chain := DateChain(lastEnd.day);
      assert SpanInRange(chain[0]) && SpanInRange(chain[1]) && SpanInRange(chain[2]);
      FinishDated(WithDates(anchored, abbr, chain), p, abbr, chain)
  }

  /** Lines 148-168, once the dates are written. */
  function FinishDated(dated: Book, p: YearMonth, abbr: string, chain: seq<Span>): Outcome
    requires p.Valid() && |abbr| == 3 && HasMonthSheets(dated, abbr) && |chain| == 3
  {
    var f := FirstNonTextFormula(dated, abbr, FirstCategoryRow);
    if f.Some? then Aborted(f.value, dated)
    else
      assert FormulasAreText(dated[PayTitle(abbr, 2)], CategoryRowsEnd);
      assert FormulasAreText(dated[PayTitle(abbr, 3)], CategoryRowsEnd);
      Completed(Pruned(Reanchored(dated, abbr, CategoryRowsEnd), abbr, chain, LastDayOfMonth(p)))
  }

  /** The renaming step may run: the template has its three pay sheets and no sheet in the way. */
  lemma NoCollisionMeansAbsent(template: Book, m: int)
    requires NoRetitleCollision(template) && 1 <= m <= 12
    ensures PayTitle(MonthAbbr(m), 1) !in template
    ensures PayTitle(MonthAbbr(m), 2) !in template
    ensures PayTitle(MonthAbbr(m), 3) !in template
  {
    forall k: SubPeriod ensures PayTitle(MonthAbbr(m), k) !in template {
      var t := PayTitle(MonthAbbr(m), k);
      assert EqualsIgnoreCase(t, t);
    }
  }

  /** Lines 60-62: the first of "Pay 1", "Pay 2", "Pay 3" that `workbook[title]` does not find. */
  function MissingPaySheet(b: Book): (f: Option<Failure>)
    ensures f.None? <==> HasTemplatePaySheets(b)
    ensures f.Some? ==> f.value.MissingSheet? && IsTemplatePayTitle(f.value.title) && f.value.title !in b
  {
    if TemplatePayTitle(1) !in b then Some(MissingSheet(TemplatePayTitle(1)))
    else if TemplatePayTitle(2) !in b then Some(MissingSheet(TemplatePayTitle(2)))
    else if TemplatePayTitle(3) !in b then Some(MissingSheet(TemplatePayTitle(3)))
    else None
  }

  /** Lines 70-72: the first of "Receipt 1", "Receipt 2", "Receipt 3" that `workbook[title]` does not find. */
  function MissingReceiptSheet(b: Book): (f: Option<Failure>)
    ensures f.None? <==> HasReceiptSheets(b)
    ensures f.Some? ==> f.value.MissingSheet? && f.value.title !in b
  {
    if ReceiptTitle(1) !in b then Some(MissingSheet(ReceiptTitle(1)))
    else if ReceiptTitle(2) !in b then Some(MissingSheet(ReceiptTitle(2)))
    else if ReceiptTitle(3) !in b then Some(MissingSheet(ReceiptTitle(3)))
    else None
  }

  /**
   * `_populate_excel_values_from_previous_month` on a new document named
   * `name` that holds the template's sheets, given the predecessor when its
   * file exists and the operator's answer to the start-day prompt otherwise.
   */
  function Run(template: Book, name: string, prev: Option<Predecessor>, answer: string): Outcome
    requires NoRetitleCollision(template)
  {
    var p := ParseFileName(name);
    if p.None? then Aborted(NameNotParsed(name), template)
    else if MissingPaySheet(template).Some? then Aborted(MissingPaySheet(template).value, template)
    else
      var abbr := MonthAbbr(p.value.month);
      NoCollisionMeansAbsent(template, p.value.month);
      RunRenamed(Renamed(template, abbr), p.value, abbr, prev, answer)
  }

  /** Lines 66-169: what follows once the pay sheets carry the month's titles. */
  function RunRenamed(renamed: Book, p: YearMonth, abbr: string, prev: Option<Predecessor>, answer: string): Outcome
    requires p.Valid() && |abbr| == 3
    requires PayTitle(abbr, 1) in renamed && PayTitle(abbr, 2) in renamed && PayTitle(abbr, 3) in renamed
  {
    if MissingReceiptSheet(renamed).Some? then Aborted(MissingReceiptSheet(renamed).value, renamed)
    else
      var a := AnchorOf(renamed, p, abbr, prev, answer);
      if a.NotAnchored? then Aborted(a.failure, renamed)
      else Finish(a.book, p, abbr, a.lastEnd)
  }
}
