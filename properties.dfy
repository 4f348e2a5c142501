/**
 * What a finished roll-forward looks like, proved about the functions of
 * module `RollForward`: the dates of the kept sub-periods, which sheets the
 * pruning removes, the re-pointed formulas, the balances carried forward,
 * and that nothing else of the template changes; when the procedure
 * completes, and that consecutive months join up.
 */
module RollForwardProperties {
  import opened Wrappers
  import opened Numerals
  import opened Strings
  import opened Calendar
  import opened FileNames
  import opened Spreadsheet
  import opened RollForward

  /**
   * The date layout of a document whose first sub-period starts on day s
   * of a month ending on day last: sub-period 1 is always there, and
   * sub-period k (k = 2, 3) is there, with its pay and receipt sheets,
   * exactly when its fourteen days, s + 14(k-1) to s + 14k - 1, end
   * within the month. Every sheet shows its own sub-period's dates.
   */
  predicate LaidOut(r: Book, abbr: string, s: int, last: int) {
    1 <= s && s + 41 <= MaxOrdinal
    && ShowsDates(r, abbr, 1, Span(s, s + 13))
    && (PayTitle(abbr, 2) in r <==> s + 27 <= last)
    && (ReceiptTitle(2) in r <==> s + 27 <= last)
    && (PayTitle(abbr, 2) in r ==> ShowsDates(r, abbr, 2, Span(s + 14, s + 27)))
    && (PayTitle(abbr, 3) in r <==> s + 41 <= last)
    && (ReceiptTitle(3) in r <==> s + 41 <= last)
    && (PayTitle(abbr, 3) in r ==> ShowsDates(r, abbr, 3, Span(s + 28, s + 41)))
  }

  /** The cells the roll-forward writes after the anchoring: the date cells, and the "total amount" formulas of Pay 2 and Pay 3. */
  predicate IsRewrittenCell(t: string, c: CellRef, abbr: string) {
    IsDateCell(t, c, abbr) || ((t == PayTitle(abbr, 2) || t == PayTitle(abbr, 3)) && IsCarriedCell(c, CategoryRowsEnd))
  }

  /** A "total amount" cell is no date cell: the dates are in column B. A cell-layout fact used by DatesKeepTotals, not a property of the source on its own. */
  lemma TotalCellNotDateCell(t: string, row: int, abbr: string)
    ensures !IsDateCell(t, TotalCell(row), abbr)
  {
  }

  /** The dates written do not touch the "total amount" column. */
  lemma DatesKeepTotals(b: Book, abbr: string, c: seq<Span>)
    requires |abbr| == 3 && HasMonthSheets(b, abbr)
    requires |c| == 3 && SpanInRange(c[0]) && SpanInRange(c[1]) && SpanInRange(c[2])
    ensures forall t, row :: t in b ==> Get(WithDates(b, abbr, c)[t], TotalCell(row)) == Get(b[t], TotalCell(row))
  {
    forall t, row | t in b ensures Get(WithDates(b, abbr, c)[t], TotalCell(row)) == Get(b[t], TotalCell(row)) {
      TotalCellNotDateCell(t, row, abbr);
    }
  }

  /** Re-pointing the formulas changes no cell outside the "total amount" rows. */
  lemma ReanchoringKeepsCell(b: Book, abbr: string, t: string, c: CellRef)
    requires |abbr| == 3 && PayTitle(abbr, 2) in b && PayTitle(abbr, 3) in b
    requires FormulasAreText(b[PayTitle(abbr, 2)], CategoryRowsEnd) && FormulasAreText(b[PayTitle(abbr, 3)], CategoryRowsEnd)
    requires t in b && !IsCarriedCell(c, CategoryRowsEnd)
    ensures Get(Reanchored(b, abbr, CategoryRowsEnd)[t], c) == Get(b[t], c)
  {
  }

  /** The dates of sub-period k survive the formula rewrite. */
  lemma ReanchoredShowsDates(dated: Book, abbr: string, k: SubPeriod, span: Span)
    requires |abbr| == 3 && HasMonthSheets(dated, abbr)
    requires FormulasAreText(dated[PayTitle(abbr, 2)], CategoryRowsEnd) && FormulasAreText(dated[PayTitle(abbr, 3)], CategoryRowsEnd)
    requires SpanInRange(span) && ShowsDates(dated, abbr, k, span)
    ensures ShowsDates(Reanchored(dated, abbr, CategoryRowsEnd), abbr, k, span)
  {
    var pay, receipt := PayTitle(abbr, k), ReceiptTitle(k);
    ReanchoringKeepsCell(dated, abbr, pay, PayStartCell);
    ReanchoringKeepsCell(dated, abbr, pay, PayEndCell);
    ReanchoringKeepsCell(dated, abbr, receipt, ReceiptStartCell);
    ReanchoringKeepsCell(dated, abbr, receipt, ReceiptEndCell);
  }

  /** Lines 148-168 complete exactly when every "total amount" of Pay 2 and Pay 3 is text, and then re-point and prune. */
  lemma FinishDatedResult(dated: Book, p: YearMonth, abbr: string, chain: seq<Span>)
    requires p.Valid() && |abbr| == 3 && HasMonthSheets(dated, abbr) && |chain| == 3
    ensures !(FormulasAreText(dated[PayTitle(abbr, 2)], CategoryRowsEnd) && FormulasAreText(dated[PayTitle(abbr, 3)], CategoryRowsEnd)) ==>
      FinishDated(dated, p, abbr, chain) == Aborted(FirstNonTextFormula(dated, abbr, FirstCategoryRow).value, dated)
    ensures FormulasAreText(dated[PayTitle(abbr, 2)], CategoryRowsEnd) && FormulasAreText(dated[PayTitle(abbr, 3)], CategoryRowsEnd) ==>
      FinishDated(dated, p, abbr, chain) == Completed(Pruned(Reanchored(dated, abbr, CategoryRowsEnd), abbr, chain, LastDayOfMonth(p)))
  {
    var s2, s3 := dated[PayTitle(abbr, 2)], dated[PayTitle(abbr, 3)];
    var f := FirstNonTextFormula(dated, abbr, FirstCategoryRow);
    if FormulasAreText(s2, CategoryRowsEnd) && FormulasAreText(s3, CategoryRowsEnd) {
      assert f.None?;
    } else {
      assert f.Some?;
    }
  }

  /**
   * Lines 124-168 complete only on a date chain `datetime` can hold, and
   * then lay the month out from the day after the anchoring end date.
   */
  lemma FinishEndsOnDate(anchored: Book, p: YearMonth, abbr: string, lastEnd: Value)
    requires p.Valid() && |abbr| == 3 && HasMonthSheets(anchored, abbr)
    requires Finish(anchored, p, abbr, lastEnd).Completed?
    ensures lastEnd.Date? && lastEnd.day + 42 <= MaxOrdinal
  {
  }

  /** Lines 158-169 on a document that shows the dates from day s on: the pruned document is laid out from s. */
  lemma PrunedLaidOut(b: Book, abbr: string, s: int, last: int)
    requires |abbr| == 3 && HasMonthSheets(b, abbr) && 1 <= s && s + 41 <= MaxOrdinal
    requires ShowsDates(b, abbr, 1, Span(s, s + 13)) && ShowsDates(b, abbr, 2, Span(s + 14, s + 27))
      && ShowsDates(b, abbr, 3, Span(s + 28, s + 41))
    ensures LaidOut(Pruned(b, abbr, [Span(s, s + 13), Span(s + 14, s + 27), Span(s + 28, s + 41)], last), abbr, s, last)
  {
    var r := Pruned(b, abbr, [Span(s, s + 13), Span(s + 14, s + 27), Span(s + 28, s + 41)], last);
    assert r[PayTitle(abbr, 1)] == b[PayTitle(abbr, 1)] && r[ReceiptTitle(1)] == b[ReceiptTitle(1)];
  }

  /** The layout of a finished document whose month before ended on day s - 1. */
  lemma FinishLaidOut(anchored: Book, p: YearMonth, abbr: string, lastEnd: Value, s: int)
    requires p.Valid() && |abbr| == 3 && HasMonthSheets(anchored, abbr)
    requires Finish(anchored, p, abbr, lastEnd).Completed?
    requires lastEnd.Date? && s == lastEnd.day + 1
    ensures LaidOut(Finish(anchored, p, abbr, lastEnd).book, abbr, s, LastDayOfMonth(p))
  {
    FinishPhases(anchored, p, abbr, lastEnd);
    var chain := DateChain(lastEnd.day);
    assert chain == [Span(s, s + 13), Span(s + 14, s + 27), Span(s + 28, s + 41)];
    var dated := WithDates(anchored, abbr, chain);
    ReanchoredShowsDates(dated, abbr, 1, chain[0]);
    ReanchoredShowsDates(dated, abbr, 2, chain[1]);
    ReanchoredShowsDates(dated, abbr, 3, chain[2]);
    PrunedLaidOut(Reanchored(dated, abbr, CategoryRowsEnd), abbr, s, LastDayOfMonth(p));
  }

  /** Outside the cells the roll-forward rewrites, r holds what b holds, and r has no sheet b lacks. */
  ghost predicate KeptOutside(r: Book, b: Book, abbr: string) {
    r.Keys <= b.Keys && forall t, c :: t in r && !IsRewrittenCell(t, c, abbr) ==> Get(r[t], c) == Get(b[t], c)
  }

  lemma KeptOutsideTransitive(r: Book, m: Book, b: Book, abbr: string)
    requires KeptOutside(r, m, abbr) && KeptOutside(m, b, abbr)
    ensures KeptOutside(r, b, abbr)
  {
  }

  lemma DatesKeepOutside(b: Book, abbr: string, c: seq<Span>)
    requires |abbr| == 3 && HasMonthSheets(b, abbr)
    requires |c| == 3 && SpanInRange(c[0]) && SpanInRange(c[1]) && SpanInRange(c[2])
    ensures KeptOutside(WithDates(b, abbr, c), b, abbr)
  {
  }

  lemma ReanchoringKeepsOutside(b: Book, abbr: string)
    requires |abbr| == 3 && PayTitle(abbr, 2) in b && PayTitle(abbr, 3) in b
    requires FormulasAreText(b[PayTitle(abbr, 2)], CategoryRowsEnd) && FormulasAreText(b[PayTitle(abbr, 3)], CategoryRowsEnd)
    ensures KeptOutside(Reanchored(b, abbr, CategoryRowsEnd), b, abbr)
  {
    var r := Reanchored(b, abbr, CategoryRowsEnd);
    forall t, c | t in r && !IsRewrittenCell(t, c, abbr) ensures Get(r[t], c) == Get(b[t], c) {
      if t == PayTitle(abbr, 2) || t == PayTitle(abbr, 3) {
        assert !IsCarriedCell(c, CategoryRowsEnd);
      }
    }
  }

  lemma PruningKeepsOutside(b: Book, abbr: string, c: seq<Span>, lastDay: int)
    requires |abbr| == 3 && HasMonthSheets(b, abbr) && |c| == 3
    ensures KeptOutside(Pruned(b, abbr, c, lastDay), b, abbr)
  {
  }

  /** Lines 124-168 complete only on a date chain `datetime` can hold and text formulas, and are then the three phases in turn. */
  lemma FinishPhases(anchored: Book, p: YearMonth, abbr: string, lastEnd: Value)
    requires p.Valid() && |abbr| == 3 && HasMonthSheets(anchored, abbr)
    requires Finish(anchored, p, abbr, lastEnd).Completed?
    ensures lastEnd.Date? && lastEnd.day + 42 <= MaxOrdinal
    ensures var chain := DateChain(lastEnd.day);
      SpanInRange(chain[0]) && SpanInRange(chain[1]) && SpanInRange(chain[2])
    ensures var chain := DateChain(lastEnd.day);
      var dated := WithDates(anchored, abbr, chain);
      FormulasAreText(dated[PayTitle(abbr, 2)], CategoryRowsEnd) && FormulasAreText(dated[PayTitle(abbr, 3)], CategoryRowsEnd)
    ensures var chain := DateChain(lastEnd.day);
      var dated := WithDates(anchored, abbr, chain);
      Finish(anchored, p, abbr, lastEnd).book == Pruned(Reanchored(dated, abbr, CategoryRowsEnd), abbr, chain, LastDayOfMonth(p))
  {
    var chain := DateChain(lastEnd.day);
    var dated := WithDates(anchored, abbr, chain);
    FinishDatedResult(dated, p, abbr, chain);
  }

  /**
   * Outside the date cells and the re-pointed formulas the finished
   * document holds what the anchored one held, and only the pruning
   * removes sheets.
   */
  lemma FinishKeeps(anchored: Book, p: YearMonth, abbr: string, lastEnd: Value)
    requires p.Valid() && |abbr| == 3 && HasMonthSheets(anchored, abbr)
    requires Finish(anchored, p, abbr, lastEnd).Completed?
    ensures KeptOutside(Finish(anchored, p, abbr, lastEnd).book, anchored, abbr)
    ensures var r := Finish(anchored, p, abbr, lastEnd).book;
      forall t :: t in anchored && !IsMonthSheet(t, abbr) ==> t in r && r[t] == anchored[t]
  {
    FinishPhases(anchored, p, abbr, lastEnd);
    var chain := DateChain(lastEnd.day);
    var dated := WithDates(anchored, abbr, chain);
    var re := Reanchored(dated, abbr, CategoryRowsEnd);
    var r := Pruned(re, abbr, chain, LastDayOfMonth(p));
    assert KeptOutside(r, anchored, abbr) by {
      DatesKeepOutside(anchored, abbr, chain);
      ReanchoringKeepsOutside(dated, abbr);
      PruningKeepsOutside(re, abbr, chain, LastDayOfMonth(p));
      KeptOutsideTransitive(re, dated, anchored, abbr);
      KeptOutsideTransitive(r, re, anchored, abbr);
    }
    forall t | t in anchored && !IsMonthSheet(t, abbr) ensures t in r && r[t] == anchored[t] {
      assert t != PayTitle(abbr, 2) && t != PayTitle(abbr, 3);
    }
  }

  /** Lines 149-154, seen from the anchored document: every "total amount" of Pay 2 and Pay 3 was text, and is re-pointed. */
  lemma FinishFormulas(anchored: Book, p: YearMonth, abbr: string, lastEnd: Value)
    requires p.Valid() && |abbr| == 3 && HasMonthSheets(anchored, abbr)
    requires Finish(anchored, p, abbr, lastEnd).Completed?
    ensures FormulasAreText(anchored[PayTitle(abbr, 2)], CategoryRowsEnd) && FormulasAreText(anchored[PayTitle(abbr, 3)], CategoryRowsEnd)
    ensures var r := Finish(anchored, p, abbr, lastEnd).book;
      PayTitle(abbr, 2) in r ==> forall row :: FirstCategoryRow <= row < CategoryRowsEnd ==>
        Get(r[PayTitle(abbr, 2)], TotalCell(row)) == Text(Replace(Get(anchored[PayTitle(abbr, 2)], TotalCell(row)).text, TemplatePayTitle(1), PayTitle(abbr, 1)))
    ensures var r := Finish(anchored, p, abbr, lastEnd).book;
      PayTitle(abbr, 3) in r ==> forall row :: FirstCategoryRow <= row < CategoryRowsEnd ==>
        Get(r[PayTitle(abbr, 3)], TotalCell(row)) == Text(Replace(Get(anchored[PayTitle(abbr, 3)], TotalCell(row)).text, TemplatePayTitle(2), PayTitle(abbr, 2)))
  {
    FinishPhases(anchored, p, abbr, lastEnd);
    var chain := DateChain(lastEnd.day);
    var dated := WithDates(anchored, abbr, chain);
    DatesKeepTotals(anchored, abbr, chain);
    var pay2, pay3 := PayTitle(abbr, 2), PayTitle(abbr, 3);
    assert FormulasAreText(anchored[pay2], CategoryRowsEnd) && FormulasAreText(anchored[pay3], CategoryRowsEnd);
    var re := Reanchored(dated, abbr, CategoryRowsEnd);
    var r := Pruned(re, abbr, chain, LastDayOfMonth(p));
    assert pay2 in r ==> r[pay2] == re[pay2];
    assert pay3 in r ==> r[pay3] == re[pay3];
  }

  // ---------------------------------------------------------------------
  // From the template to the finished document
  // ---------------------------------------------------------------------

  /** The template sheet a sheet of the month's document started as: "<abbr> - Pay k" was "Pay k", every other sheet keeps its title. */
  function Origin(t: string, abbr: string): string {
    if t == PayTitle(abbr, 1) then TemplatePayTitle(1)
    else if t == PayTitle(abbr, 2) then TemplatePayTitle(2)
    else if t == PayTitle(abbr, 3) then TemplatePayTitle(3)
    else t
  }

  /** Lines 60-62, traced back: r has exactly b's sheets, the pay sheets under their new titles. */
  ghost predicate RenamedFrom(r: Book, b: Book, abbr: string) {
    (forall t :: t in r ==> !IsTemplatePayTitle(t) && Origin(t, abbr) in b && r[t] == b[Origin(t, abbr)])
    && (forall t :: t in b && !IsTemplatePayTitle(t) ==> t in r && r[t] == b[t])
  }

  /** "<abbr> - Pay k" is longer than any "Pay j". */
  lemma PayTitleNotTemplateTitle(abbr: string, k: SubPeriod)
    requires |abbr| == 3
    ensures !IsTemplatePayTitle(PayTitle(abbr, k))
  {
    var t := PayTitle(abbr, k);
    assert |t| != |TemplatePayTitle(1)| && |t| != |TemplatePayTitle(2)| && |t| != |TemplatePayTitle(3)|;
  }

  /** Every sheet of the renamed document is the template sheet it started as. */
  lemma RenamedOrigins(b: Book, abbr: string)
    requires |abbr| == 3 && HasTemplatePaySheets(b)
    requires PayTitle(abbr, 1) !in b && PayTitle(abbr, 2) !in b && PayTitle(abbr, 3) !in b
    ensures var r := Renamed(b, abbr);
      forall t :: t in r ==> !IsTemplatePayTitle(t) && Origin(t, abbr) in b && r[t] == b[Origin(t, abbr)]
  {
    var r := Renamed(b, abbr);
    var pay1, pay2, pay3 := PayTitle(abbr, 1), PayTitle(abbr, 2), PayTitle(abbr, 3);
    SubPeriodTitlesDistinct(abbr, 1, 2);
    SubPeriodTitlesDistinct(abbr, 1, 3);
    SubPeriodTitlesDistinct(abbr, 2, 3);
    assert Origin(pay1, abbr) == TemplatePayTitle(1);
    assert Origin(pay2, abbr) == TemplatePayTitle(2);
    assert Origin(pay3, abbr) == TemplatePayTitle(3);
    PayTitleNotTemplateTitle(abbr, 1);
    PayTitleNotTemplateTitle(abbr, 2);
    PayTitleNotTemplateTitle(abbr, 3);
    forall t | t in r ensures !IsTemplatePayTitle(t) && Origin(t, abbr) in b && r[t] == b[Origin(t, abbr)] {
      if t != pay1 && t != pay2 && t != pay3 {
        assert t in b.Keys - {TemplatePayTitle(1), TemplatePayTitle(2), TemplatePayTitle(3)};
        assert Origin(t, abbr) == t;
      }
    }
  }

  lemma RenamedFromTemplate(b: Book, abbr: string)
    requires |abbr| == 3 && HasTemplatePaySheets(b)
    requires PayTitle(abbr, 1) !in b && PayTitle(abbr, 2) !in b && PayTitle(abbr, 3) !in b
    ensures RenamedFrom(Renamed(b, abbr), b, abbr)
  {
    RenamedOrigins(b, abbr);
  }

  /** What the anchoring does to the renamed document b: at most the "total amount" cells of Pay 1 change. */
  ghost predicate AnchorKept(a: Book, b: Book, abbr: string) {
    a.Keys == b.Keys && PayTitle(abbr, 1) in b
    && (forall t :: t in b && t != PayTitle(abbr, 1) ==> a[t] == b[t])
    && (forall c :: !IsCarriedCell(c, CategoryRowsEnd) ==> Get(a[PayTitle(abbr, 1)], c) == Get(b[PayTitle(abbr, 1)], c))
  }

  /**
   * The finished document r, traced back to the template: it has none of
   * the template's "Pay k" titles, every other template sheet but the six
   * of the month is there unchanged, every cell the roll-forward does not
   * write holds what the template sheet it started as held, and the
   * formulas of Pay 2 and Pay 3, which were all text, point at the
   * month's own Pay 1 and Pay 2.
   */
  ghost predicate FromTemplate(r: Book, template: Book, abbr: string) {
    HasTemplatePaySheets(template)
    && FormulasAreText(template[TemplatePayTitle(2)], CategoryRowsEnd)
    && FormulasAreText(template[TemplatePayTitle(3)], CategoryRowsEnd)
    && (forall t :: t in r ==> !IsTemplatePayTitle(t) && Origin(t, abbr) in template)
    && (forall t :: t in template && !IsTemplatePayTitle(t) && !IsMonthSheet(t, abbr) ==> t in r && r[t] == template[t])
    && (forall t, c :: t in r && !IsRewrittenCell(t, c, abbr) && !(t == PayTitle(abbr, 1) && IsCarriedCell(c, CategoryRowsEnd)) ==>
          Get(r[t], c) == Get(template[Origin(t, abbr)], c))
    && (PayTitle(abbr, 2) in r ==> forall row :: FirstCategoryRow <= row < CategoryRowsEnd ==>
          Get(r[PayTitle(abbr, 2)], TotalCell(row)) ==
          Text(Replace(Get(template[TemplatePayTitle(2)], TotalCell(row)).text, TemplatePayTitle(1), PayTitle(abbr, 1))))
    && (PayTitle(abbr, 3) in r ==> forall row :: FirstCategoryRow <= row < CategoryRowsEnd ==>
          Get(r[PayTitle(abbr, 3)], TotalCell(row)) ==
          Text(Replace(Get(template[TemplatePayTitle(3)], TotalCell(row)).text, TemplatePayTitle(2), PayTitle(abbr, 2))))
  }

  /** Lines 124-168, traced back to the anchored document a: what `FinishKeeps` and `FinishFormulas` state. */
  ghost predicate FinishedFrom(r: Book, a: Book, abbr: string) {
    PayTitle(abbr, 2) in a && PayTitle(abbr, 3) in a
    && KeptOutside(r, a, abbr)
    && (forall t :: t in a && !IsMonthSheet(t, abbr) ==> t in r && r[t] == a[t])
    && FormulasAreText(a[PayTitle(abbr, 2)], CategoryRowsEnd) && FormulasAreText(a[PayTitle(abbr, 3)], CategoryRowsEnd)
    && (PayTitle(abbr, 2) in r ==> forall row :: FirstCategoryRow <= row < CategoryRowsEnd ==>
          Get(r[PayTitle(abbr, 2)], TotalCell(row)) == Text(Replace(Get(a[PayTitle(abbr, 2)], TotalCell(row)).text, TemplatePayTitle(1), PayTitle(abbr, 1))))
    && (PayTitle(abbr, 3) in r ==> forall row :: FirstCategoryRow <= row < CategoryRowsEnd ==>
          Get(r[PayTitle(abbr, 3)], TotalCell(row)) == Text(Replace(Get(a[PayTitle(abbr, 3)], TotalCell(row)).text, TemplatePayTitle(2), PayTitle(abbr, 2))))
  }

  lemma FinishIsFinishedFrom(anchored: Book, p: YearMonth, abbr: string, lastEnd: Value)
    requires p.Valid() && |abbr| == 3 && HasMonthSheets(anchored, abbr)
    requires Finish(anchored, p, abbr, lastEnd).Completed?
    ensures FinishedFrom(Finish(anchored, p, abbr, lastEnd).book, anchored, abbr)
  {
    FinishKeeps(anchored, p, abbr, lastEnd);
    FinishFormulas(anchored, p, abbr, lastEnd);
  }

  /** Renaming, anchoring and finishing, each traced back one step, trace the finished document back to the template. */
  lemma TracedToTemplate(template: Book, renamed: Book, anchored: Book, r: Book, abbr: string)
    requires |abbr| == 3 && HasTemplatePaySheets(template)
    requires RenamedFrom(renamed, template, abbr) && HasMonthSheets(renamed, abbr)
    requires AnchorKept(anchored, renamed, abbr) && FinishedFrom(r, anchored, abbr)
    ensures FromTemplate(r, template, abbr)
  {
    var pay1, pay2, pay3 := PayTitle(abbr, 1), PayTitle(abbr, 2), PayTitle(abbr, 3);
    SubPeriodTitlesDistinct(abbr, 1, 2);
    SubPeriodTitlesDistinct(abbr, 1, 3);
    SubPeriodTitlesDistinct(abbr, 2, 3);
    assert Origin(pay2, abbr) == TemplatePayTitle(2) && Origin(pay3, abbr) == TemplatePayTitle(3);
    assert renamed[pay2] == template[TemplatePayTitle(2)] && renamed[pay3] == template[TemplatePayTitle(3)];
    forall row | FirstCategoryRow <= row < CategoryRowsEnd
      ensures Get(anchored[pay2], TotalCell(row)) == Get(template[TemplatePayTitle(2)], TotalCell(row))
      ensures Get(anchored[pay3], TotalCell(row)) == Get(template[TemplatePayTitle(3)], TotalCell(row))
    {
    }
    forall t | t in template && !IsTemplatePayTitle(t) && !IsMonthSheet(t, abbr) ensures t in r && r[t] == template[t] {
      assert t in renamed && renamed[t] == template[t];
      assert t != pay1;
    }
  }

  // The whole run

  /** A run that completes got through the renaming and the anchoring, and its result is what the finishing steps make of the anchored sheets. */
  lemma RunPhases(template: Book, name: string, prev: Option<Predecessor>, answer: string, p: YearMonth)
    requires NoRetitleCollision(template) && ParseFileName(name) == Some(p)
    requires Run(template, name, prev, answer).Completed?
    ensures HasTemplatePaySheets(template)
    ensures PayTitle(MonthAbbr(p.month), 1) !in template && PayTitle(MonthAbbr(p.month), 2) !in template
      && PayTitle(MonthAbbr(p.month), 3) !in template
    ensures HasReceiptSheets(Renamed(template, MonthAbbr(p.month)))
    ensures AnchorOf(Renamed(template, MonthAbbr(p.month)), p, MonthAbbr(p.month), prev, answer).Anchored?
    ensures var abbr := MonthAbbr(p.month); var a := AnchorOf(Renamed(template, abbr), p, abbr, prev, answer);
      Run(template, name, prev, answer) == Finish(a.book, p, abbr, a.lastEnd)
  {
    NoCollisionMeansAbsent(template, p.month);
  }

  /** With a predecessor, the anchoring only writes the carried rows of Pay 1, from the predecessor's most recent pay sheet, and takes that sheet's end date. */
  lemma PredecessorAnchor(b: Book, abbr: string, pred: Predecessor)
    requires PayTitle(abbr, 1) in b && AnchorOnPredecessor(b, abbr, pred).Anchored?
    ensures SourceTitle(pred).Some? && SourceTitle(pred).value in pred.book
    ensures var a := AnchorOnPredecessor(b, abbr, pred); var src := pred.book[SourceTitle(pred).value];
      AnchorKept(a.book, b, abbr) && a.lastEnd == Get(src, PayEndCell)
      && forall row :: FirstCategoryRow <= row < CategoryRowsEnd ==>
           Get(a.book[PayTitle(abbr, 1)], TotalCell(row)) == Get(src, NewTotalCell(row))
  {
  }

  /** Without a predecessor, the anchoring changes nothing and ends the month before on the day before the start day. */
  lemma StartDayAnchor(b: Book, p: YearMonth, answer: string)
    requires p.Valid() && AnchorOnStartDay(b, p, answer).Anchored?
    ensures ParseInt(answer).Some? && IsValidDate(p.year, p.month, ParseInt(answer).value)
    ensures AnchorOnStartDay(b, p, answer) == Anchored(b, Date(ToOrdinal(p.year, p.month, ParseInt(answer).value) - 1))
  {
  }

  /** The "total amount" cells of Pay 1 are not rewritten after the anchoring. */
  lemma Pay1TotalsKept(r: Book, a: Book, abbr: string)
    requires |abbr| == 3 && KeptOutside(r, a, abbr) && PayTitle(abbr, 1) in r
    ensures forall row :: Get(r[PayTitle(abbr, 1)], TotalCell(row)) == Get(a[PayTitle(abbr, 1)], TotalCell(row))
  {
    SubPeriodTitlesDistinct(abbr, 1, 2);
    SubPeriodTitlesDistinct(abbr, 1, 3);
    forall row ensures Get(r[PayTitle(abbr, 1)], TotalCell(row)) == Get(a[PayTitle(abbr, 1)], TotalCell(row)) {
      TotalCellNotDateCell(PayTitle(abbr, 1), row, abbr);
    }
  }

  /** The predecessor's most recent pay sheet. */
  function SourceSheet(pred: Predecessor): Sheet
    requires SourceTitle(pred).Some? && SourceTitle(pred).value in pred.book
  {
    pred.book[SourceTitle(pred).value]
  }

  /** The layout after anchoring on a predecessor, on the renamed template: it starts the day after the predecessor's most recent pay sheet ends. */
  lemma PredecessorLaidOut(template: Book, p: YearMonth, abbr: string, pred: Predecessor, r: Book)
    requires p.Valid() && |abbr| == 3 && HasTemplatePaySheets(template)
    requires PayTitle(abbr, 1) !in template && PayTitle(abbr, 2) !in template && PayTitle(abbr, 3) !in template
    requires HasReceiptSheets(Renamed(template, abbr))
    requires AnchorOnPredecessor(Renamed(template, abbr), abbr, pred).Anchored?
    requires var a := AnchorOnPredecessor(Renamed(template, abbr), abbr, pred);
      Finish(a.book, p, abbr, a.lastEnd) == Completed(r)
    ensures SourceTitle(pred).Some? && SourceTitle(pred).value in pred.book
    ensures Get(SourceSheet(pred), PayEndCell).Date?
    ensures LaidOut(r, abbr, Get(SourceSheet(pred), PayEndCell).day + 1, LastDayOfMonth(p))
  {
    var renamed := Renamed(template, abbr);
    var a := AnchorOnPredecessor(renamed, abbr, pred);
    PredecessorAnchor(renamed, abbr, pred);
    FinishEndsOnDate(a.book, p, abbr, a.lastEnd);
    FinishLaidOut(a.book, p, abbr, a.lastEnd, Get(SourceSheet(pred), PayEndCell).day + 1);
  }

  /** The sheets after anchoring on a predecessor, on the renamed template: Pay 1 carries the predecessor's new totals, and the rest is the template's. */
  lemma PredecessorContents(template: Book, p: YearMonth, abbr: string, pred: Predecessor, r: Book)
    requires p.Valid() && |abbr| == 3 && HasTemplatePaySheets(template)
    requires PayTitle(abbr, 1) !in template && PayTitle(abbr, 2) !in template && PayTitle(abbr, 3) !in template
    requires HasReceiptSheets(Renamed(template, abbr))
    requires AnchorOnPredecessor(Renamed(template, abbr), abbr, pred).Anchored?
    requires var a := AnchorOnPredecessor(Renamed(template, abbr), abbr, pred);
      Finish(a.book, p, abbr, a.lastEnd) == Completed(r)
    ensures SourceTitle(pred).Some? && SourceTitle(pred).value in pred.book
    ensures PayTitle(abbr, 1) in r
    ensures forall row :: FirstCategoryRow <= row < CategoryRowsEnd ==>
      Get(r[PayTitle(abbr, 1)], TotalCell(row)) == Get(SourceSheet(pred), NewTotalCell(row))
    ensures FromTemplate(r, template, abbr)
  {
    var renamed := Renamed(template, abbr);
    var a := AnchorOnPredecessor(renamed, abbr, pred);
    PredecessorAnchor(renamed, abbr, pred);
    FinishEndsOnDate(a.book, p, abbr, a.lastEnd);
    FinishLaidOut(a.book, p, abbr, a.lastEnd, a.lastEnd.day + 1);
    FinishIsFinishedFrom(a.book, p, abbr, a.lastEnd);
    RenamedFromTemplate(template, abbr);
    TracedToTemplate(template, renamed, a.book, r, abbr);
    Pay1TotalsKept(r, a.book, abbr);
  }

  /**
   * A run with a predecessor that completes: the predecessor's name parsed
   * and its most recent pay sheet ends on a date; the new document starts
   * the day after, lays out its sub-periods from there, carries that
   * sheet's new totals into Pay 1, and is otherwise the template.
   */
  lemma CompletedWithPredecessor(template: Book, name: string, pred: Predecessor, answer: string, p: YearMonth, r: Book)
    requires NoRetitleCollision(template) && ParseFileName(name) == Some(p)
    requires Run(template, name, Some(pred), answer) == Completed(r)
    ensures SourceTitle(pred).Some? && SourceTitle(pred).value in pred.book
    ensures Get(SourceSheet(pred), PayEndCell).Date?
    ensures LaidOut(r, MonthAbbr(p.month), Get(SourceSheet(pred), PayEndCell).day + 1, LastDayOfMonth(p))
    ensures forall row :: FirstCategoryRow <= row < CategoryRowsEnd ==>
      Get(r[PayTitle(MonthAbbr(p.month), 1)], TotalCell(row)) == Get(SourceSheet(pred), NewTotalCell(row))
    ensures FromTemplate(r, template, MonthAbbr(p.month))
  {
    RunPhases(template, name, Some(pred), answer, p);
    PredecessorLaidOut(template, p, MonthAbbr(p.month), pred, r);
    PredecessorContents(template, p, MonthAbbr(p.month), pred, r);
  }

  /** Lines 158-169 drop the later sub-period first: sub-period 2 goes only when 3 has gone, and sub-period 1 always stays. */
  lemma PrunedLatestFirst(r: Book, abbr: string, s: int, last: int)
    requires LaidOut(r, abbr, s, last)
    ensures PayTitle(abbr, 3) in r ==> PayTitle(abbr, 2) in r
    ensures ReceiptTitle(3) in r ==> ReceiptTitle(2) in r
    ensures PayTitle(abbr, 1) in r && ReceiptTitle(1) in r
  {
  }

  /** A month laid out from day d of it keeps its second sub-period exactly when that ends within the month, and never a third. */
  lemma LaidOutFromDay(r: Book, abbr: string, p: YearMonth, d: int)
    requires p.Valid() && IsValidDate(p.year, p.month, d)
    requires LaidOut(r, abbr, ToOrdinal(p.year, p.month, d), LastDayOfMonth(p))
    ensures PayTitle(abbr, 2) in r <==> d + 27 <= DaysInMonth(p.year, p.month)
    ensures PayTitle(abbr, 3) !in r && ReceiptTitle(3) !in r
  {
    OrdinalOfDay(p.year, p.month, d);
  }

  /** The finishing steps after anchoring on the start day, on the renamed template. */
  lemma FinishedOnStartDay(template: Book, p: YearMonth, abbr: string, answer: string, r: Book)
    requires p.Valid() && |abbr| == 3 && HasTemplatePaySheets(template)
    requires PayTitle(abbr, 1) !in template && PayTitle(abbr, 2) !in template && PayTitle(abbr, 3) !in template
    requires HasReceiptSheets(Renamed(template, abbr))
    requires AnchorOnStartDay(Renamed(template, abbr), p, answer).Anchored?
    requires var a := AnchorOnStartDay(Renamed(template, abbr), p, answer);
      Finish(a.book, p, abbr, a.lastEnd) == Completed(r)
    ensures ParseInt(answer).Some? && IsValidDate(p.year, p.month, ParseInt(answer).value)
    ensures LaidOut(r, abbr, ToOrdinal(p.year, p.month, ParseInt(answer).value), LastDayOfMonth(p))
    ensures forall row :: Get(r[PayTitle(abbr, 1)], TotalCell(row)) == Get(template[TemplatePayTitle(1)], TotalCell(row))
    ensures FromTemplate(r, template, abbr)
  {
    var renamed := Renamed(template, abbr);
    var a := AnchorOnStartDay(renamed, p, answer);
    StartDayAnchor(renamed, p, answer);
    var s := ToOrdinal(p.year, p.month, ParseInt(answer).value);
    FinishLaidOut(a.book, p, abbr, a.lastEnd, s);
    FinishIsFinishedFrom(a.book, p, abbr, a.lastEnd);
    assert FromTemplate(r, template, abbr) by {
      RenamedFromTemplate(template, abbr);
      TracedToTemplate(template, renamed, a.book, r, abbr);
    }
    Pay1TotalsKept(r, a.book, abbr);
  }

  /**
   * A run without a predecessor that completes: the answer is a day of the
   * month; the new document starts on it, keeps Pay 2 exactly when its
   * second sub-period ends within the month, never keeps Pay 3, keeps the
   * template's "total amount" cells in Pay 1, and is otherwise the template.
   */
  lemma CompletedWithoutPredecessor(template: Book, name: string, answer: string, p: YearMonth, r: Book)
    requires NoRetitleCollision(template) && ParseFileName(name) == Some(p)
    requires Run(template, name, None, answer) == Completed(r)
    ensures ParseInt(answer).Some? && IsValidDate(p.year, p.month, ParseInt(answer).value)
    ensures LaidOut(r, MonthAbbr(p.month), ToOrdinal(p.year, p.month, ParseInt(answer).value), LastDayOfMonth(p))
    ensures PayTitle(MonthAbbr(p.month), 2) in r <==> ParseInt(answer).value + 27 <= DaysInMonth(p.year, p.month)
    ensures PayTitle(MonthAbbr(p.month), 3) !in r && ReceiptTitle(3) !in r
    ensures forall row :: Get(r[PayTitle(MonthAbbr(p.month), 1)], TotalCell(row)) == Get(template[TemplatePayTitle(1)], TotalCell(row))
    ensures FromTemplate(r, template, MonthAbbr(p.month))
  {
    RunPhases(template, name, None, answer, p);
    FinishedOnStartDay(template, p, MonthAbbr(p.month), answer, r);
    LaidOutFromDay(r, MonthAbbr(p.month), p, ParseInt(answer).value);
  }

  // Consecutive months

  /**
   * In a laid-out document the most recent pay sheet is the last kept
   * sub-period: it ends 14k - 1 days after the start, within the month
   * unless it is the first, and the next sub-period would not have.
   */
  lemma MostRecentPayIsLastKept(r: Book, abbr: string, s: int, last: int)
    requires LaidOut(r, abbr, s, last)
    ensures var k := MostRecentPay(r, abbr);
      PayTitle(abbr, k) in r && Get(r[PayTitle(abbr, k)], PayEndCell) == Date(s + 14 * k - 1)
      && (k > 1 ==> s + 14 * k - 1 <= last) && (k < 3 ==> s + 14 * k + 13 > last)
  {
  }

  /** A laid-out document of month q, read back under a name that parses as q: its most recent pay sheet ends 14k - 1 days after its start. */
  lemma LaidOutPredecessor(pred: Predecessor, q: YearMonth, s: int)
    requires ParseFileName(pred.name) == Some(q) && LaidOut(pred.book, MonthAbbr(q.month), s, LastDayOfMonth(q))
    ensures var k := MostRecentPay(pred.book, MonthAbbr(q.month));
      SourceTitle(pred) == Some(PayTitle(MonthAbbr(q.month), k)) && PayTitle(MonthAbbr(q.month), k) in pred.book
      && Get(SourceSheet(pred), PayEndCell) == Date(s + 14 * k - 1)
  {
    MostRecentPayIsLastKept(pred.book, MonthAbbr(q.month), s, LastDayOfMonth(q));
  }

  /**
   * Next month's run, given this month's laid-out document under a name
   * that parses as this month (the name it was given does, by
   * `FileNameRoundTrip`, for years from 1000): it reads this month's most
   * recent pay sheet, which ends on day s + 14k - 1, starts the day after,
   * and carries that sheet's new totals into its Pay 1.
   */
  lemma ConsecutiveRunsAreContiguous(pred: Predecessor, q: YearMonth, s: int,
                                     template: Book, name: string, answer: string, p: YearMonth, r: Book)
    requires ParseFileName(pred.name) == Some(q) && LaidOut(pred.book, MonthAbbr(q.month), s, LastDayOfMonth(q))
    requires NoRetitleCollision(template) && ParseFileName(name) == Some(p)
    requires Run(template, name, Some(pred), answer) == Completed(r)
    ensures SourceTitle(pred) == Some(PayTitle(MonthAbbr(q.month), MostRecentPay(pred.book, MonthAbbr(q.month))))
    ensures SourceTitle(pred).value in pred.book
    ensures Get(SourceSheet(pred), PayEndCell) == Date(s + 14 * MostRecentPay(pred.book, MonthAbbr(q.month)) - 1)
    ensures LaidOut(r, MonthAbbr(p.month), Get(SourceSheet(pred), PayEndCell).day + 1, LastDayOfMonth(p))
    ensures forall row :: FirstCategoryRow <= row < CategoryRowsEnd ==>
      Get(r[PayTitle(MonthAbbr(p.month), 1)], TotalCell(row)) == Get(SourceSheet(pred), NewTotalCell(row))
  {
    LaidOutPredecessor(pred, q, s);
    CompletedWithPredecessor(template, name, pred, answer, p, r);
  }

  // When a run completes

  /** Lines 124-169 complete exactly on a date the chain fits after, with every formula of Pay 2 and Pay 3 text. */
  lemma FinishCompletes(anchored: Book, p: YearMonth, abbr: string, lastEnd: Value)
    requires p.Valid() && |abbr| == 3 && HasMonthSheets(anchored, abbr)
    ensures Finish(anchored, p, abbr, lastEnd).Completed? <==>
      lastEnd.Date? && lastEnd.day + 42 <= MaxOrdinal
      && FormulasAreText(anchored[PayTitle(abbr, 2)], CategoryRowsEnd) && FormulasAreText(anchored[PayTitle(abbr, 3)], CategoryRowsEnd)
  {
    if lastEnd.Date? && lastEnd.day + 42 <= MaxOrdinal {
      var chain := DateChain(lastEnd.day);
      assert SpanInRange(chain[0]) && SpanInRange(chain[1]) && SpanInRange(chain[2]);
      var dated := WithDates(anchored, abbr, chain);
      DatesKeepTotals(anchored, abbr, chain);
      var pay2, pay3 := PayTitle(abbr, 2), PayTitle(abbr, 3);
      assert FormulasAreText(dated[pay2], CategoryRowsEnd) <==> FormulasAreText(anchored[pay2], CategoryRowsEnd);
      assert FormulasAreText(dated[pay3], CategoryRowsEnd) <==> FormulasAreText(anchored[pay3], CategoryRowsEnd);
      FinishDatedResult(dated, p, abbr, chain);
    }
  }

  /** Lines 60-72: the renaming keeps the receipt sheets, so the renamed document has all six sheets of the month exactly when the template has its receipt sheets. */
  lemma RenamedReceipts(template: Book, abbr: string)
    requires |abbr| == 3 && HasTemplatePaySheets(template)
    requires PayTitle(abbr, 1) !in template && PayTitle(abbr, 2) !in template && PayTitle(abbr, 3) !in template
    ensures HasReceiptSheets(Renamed(template, abbr)) <==> HasReceiptSheets(template)
    ensures HasMonthSheets(Renamed(template, abbr), abbr) <==> HasReceiptSheets(template)
  {
    MonthTitlesDistinct(abbr);
    forall k: SubPeriod ensures !IsTemplatePayTitle(ReceiptTitle(k)) {
      assert |ReceiptTitle(k)| != |TemplatePayTitle(1)|;
    }
  }

  /**
   * Without a previous document, a run completes exactly when the name
   * parses, the template has its six sheets and text formulas in Pay 2 and
   * Pay 3, and the answer is a day of the month from which the three
   * sub-periods stay within `datetime`'s range.
   */
  lemma CompletesWithoutPredecessor(template: Book, name: string, answer: string)
    requires NoRetitleCollision(template)
    ensures Run(template, name, None, answer).Completed? <==>
      ParseFileName(name).Some? && HasTemplatePaySheets(template) && HasReceiptSheets(template)
      && FormulasAreText(template[TemplatePayTitle(2)], CategoryRowsEnd) && FormulasAreText(template[TemplatePayTitle(3)], CategoryRowsEnd)
      && ParseInt(answer).Some?
      && IsValidDate(ParseFileName(name).value.year, ParseFileName(name).value.month, ParseInt(answer).value)
      && 1 < ToOrdinal(ParseFileName(name).value.year, ParseFileName(name).value.month, ParseInt(answer).value)
      && ToOrdinal(ParseFileName(name).value.year, ParseFileName(name).value.month, ParseInt(answer).value) + 41 <= MaxOrdinal
  {
    var q := ParseFileName(name);
    if q.Some? && HasTemplatePaySheets(template) {
      var p := q.value;
      var abbr := MonthAbbr(p.month);
      NoCollisionMeansAbsent(template, p.month);
      RenamedReceipts(template, abbr);
      var renamed := Renamed(template, abbr);
      assert Run(template, name, None, answer) == RunRenamed(renamed, p, abbr, None, answer);
      if HasReceiptSheets(template) {
        var a := AnchorOnStartDay(renamed, p, answer);
        if a.Anchored? {
          StartDayAnchor(renamed, p, answer);
          FinishCompletes(a.book, p, abbr, a.lastEnd);
        }
      }
    }
  }

  /** Lines 86-169 on the renamed document: anchoring on the previous document and finishing complete exactly when its sheet is there with a date in B26 the chain fits after, and the formulas are text. */
  lemma PredecessorRunCompletes(renamed: Book, p: YearMonth, abbr: string, pred: Predecessor)
    requires p.Valid() && |abbr| == 3 && HasMonthSheets(renamed, abbr)
    ensures (AnchorOnPredecessor(renamed, abbr, pred).Anchored?
             && Finish(AnchorOnPredecessor(renamed, abbr, pred).book, p, abbr, AnchorOnPredecessor(renamed, abbr, pred).lastEnd).Completed?) <==>
      SourceTitle(pred).Some? && SourceTitle(pred).value in pred.book
      && Get(SourceSheet(pred), PayEndCell).Date? && Get(SourceSheet(pred), PayEndCell).day + 42 <= MaxOrdinal
      && FormulasAreText(renamed[PayTitle(abbr, 2)], CategoryRowsEnd) && FormulasAreText(renamed[PayTitle(abbr, 3)], CategoryRowsEnd)
  {
    var a := AnchorOnPredecessor(renamed, abbr, pred);
    if a.Anchored? {
      PredecessorAnchor(renamed, abbr, pred);
      SubPeriodTitlesDistinct(abbr, 1, 2);
      SubPeriodTitlesDistinct(abbr, 1, 3);
      assert a.book[PayTitle(abbr, 2)] == renamed[PayTitle(abbr, 2)] && a.book[PayTitle(abbr, 3)] == renamed[PayTitle(abbr, 3)];
      FinishCompletes(a.book, p, abbr, a.lastEnd);
    }
  }

  /**
   * With a previous document, a run completes exactly when the name parses,
   * the template has its six sheets and text formulas in Pay 2 and Pay 3,
   * the previous document's name parses and its most recent pay sheet is
   * there, and that sheet's B26 is a date the chain fits after.
   */
  lemma CompletesWithPredecessor(template: Book, name: string, pred: Predecessor, answer: string)
    requires NoRetitleCollision(template)
    ensures Run(template, name, Some(pred), answer).Completed? <==>
      ParseFileName(name).Some? && HasTemplatePaySheets(template) && HasReceiptSheets(template)
      && FormulasAreText(template[TemplatePayTitle(2)], CategoryRowsEnd) && FormulasAreText(template[TemplatePayTitle(3)], CategoryRowsEnd)
      && SourceTitle(pred).Some? && SourceTitle(pred).value in pred.book
      && Get(SourceSheet(pred), PayEndCell).Date? && Get(SourceSheet(pred), PayEndCell).day + 42 <= MaxOrdinal
  {
    var q := ParseFileName(name);
    if q.None? || !HasTemplatePaySheets(template) {
      assert Run(template, name, Some(pred), answer).Aborted?;
    } else {
      var p := q.value;
      var abbr := MonthAbbr(p.month);
      NoCollisionMeansAbsent(template, p.month);
      RenamedReceipts(template, abbr);
      var renamed := Renamed(template, abbr);
      assert Run(template, name, Some(pred), answer) == RunRenamed(renamed, p, abbr, Some(pred), answer);
      if !HasReceiptSheets(template) {
        assert RunRenamed(renamed, p, abbr, Some(pred), answer).Aborted?;
      } else {
        var a := AnchorOnPredecessor(renamed, abbr, pred);
        assert RunRenamed(renamed, p, abbr, Some(pred), answer) == if a.NotAnchored? then Aborted(a.failure, renamed) else Finish(a.book, p, abbr, a.lastEnd);
        assert renamed[PayTitle(abbr, 2)] == template[TemplatePayTitle(2)] && renamed[PayTitle(abbr, 3)] == template[TemplatePayTitle(3)];
        PredecessorRunCompletes(renamed, p, abbr, pred);
      }
    }
  }
}
