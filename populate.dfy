/**
 * `_populate_excel_values_from_previous_month` as the Python code runs it:
 * one workbook in memory, changed phase by phase and saved to the new file
 * at the same points, and reloaded after the renaming. Each method is proved
 * to do to the sheets what the function of module `RollForward` it is named
 * after says, and `PopulateFromPreviousMonth` to leave in the file what
 * `RollForward.Run` says.
 */
module Populate {
  import opened Wrappers
  import opened Numerals
  import opened Strings
  import opened Calendar
  import opened FileNames
  import opened Spreadsheet
  import opened RollForward

  /** Lines 108-113: the category balances copied row by row. */
  method CarryForward(wb: Workbook, pay1: string, src: Sheet)
    requires pay1 in wb.sheets
    modifies wb
    ensures wb.sheets == CarriedForward(old(wb.sheets), pay1, src, CategoryRowsEnd)
    ensures wb.saved == old(wb.saved)
  {
    ghost var start := wb.sheets;
    var row := 2;
    while row < 22
      invariant 2 <= row <= 22
      invariant wb.sheets == CarriedForward(start, pay1, src, row)
      invariant wb.saved == old(wb.saved)
    {
      var value := Get(src, NewTotalCell(row));
      wb.SetCell(pay1, TotalCell(row), value);
      row := row + 1;
    }
  }

  /** Lines 134-145 for one sub-period. */
  method WriteSubPeriodDates(wb: Workbook, abbr: string, k: SubPeriod, span: Span)
    requires |abbr| == 3 && PayTitle(abbr, k) in wb.sheets && ReceiptTitle(k) in wb.sheets && SpanInRange(span)
    modifies wb
    ensures wb.sheets == WithSubPeriodDates(old(wb.sheets), abbr, k, span)
    ensures wb.saved == old(wb.saved)
  {
    wb.SetCell(PayTitle(abbr, k), PayStartCell, Date(span.start));
    wb.SetCell(PayTitle(abbr, k), PayEndCell, Date(span.end));
    wb.SetCell(ReceiptTitle(k), ReceiptStartCell, Date(span.start));
    wb.SetCell(ReceiptTitle(k), ReceiptEndCell, Date(span.end));
  }

  /** Lines 134-145: the dates of sub-periods 1, 2 and 3, in that order. */
  method WriteDates(wb: Workbook, abbr: string, chain: seq<Span>)
    requires |abbr| == 3 && HasMonthSheets(wb.sheets, abbr)
    requires |chain| == 3 && SpanInRange(chain[0]) && SpanInRange(chain[1]) && SpanInRange(chain[2])
    modifies wb
    ensures wb.sheets == WithDates(old(wb.sheets), abbr, chain)
    ensures wb.saved == old(wb.saved)
  {
    WriteSubPeriodDates(wb, abbr, 1, chain[0]);
    WriteSubPeriodDates(wb, abbr, 2, chain[1]);
    WriteSubPeriodDates(wb, abbr, 3, chain[2]);
  }

  /** The rows the formula loop has not reached yet still hold the formulas of the start. */
  lemma ReanchoredAhead(b: Book, abbr: string, row: int)
    requires |abbr| == 3 && PayTitle(abbr, 2) in b && PayTitle(abbr, 3) in b
    requires FirstCategoryRow <= row < CategoryRowsEnd
    requires FormulasAreText(b[PayTitle(abbr, 2)], row) && FormulasAreText(b[PayTitle(abbr, 3)], row)
    ensures Get(Reanchored(b, abbr, row)[PayTitle(abbr, 2)], TotalCell(row)) == Get(b[PayTitle(abbr, 2)], TotalCell(row))
    ensures Get(Reanchored(b, abbr, row)[PayTitle(abbr, 3)], TotalCell(row)) == Get(b[PayTitle(abbr, 3)], TotalCell(row))
  {
    assert !IsCarriedCell(TotalCell(row), row);
  }

  /** Before the first row, no formula has been re-pointed. */
  lemma ReanchoredNothing(b: Book, abbr: string)
    requires |abbr| == 3 && PayTitle(abbr, 2) in b && PayTitle(abbr, 3) in b
    ensures Reanchored(b, abbr, FirstCategoryRow) == b
  {
    SameBook(Reanchored(b, abbr, FirstCategoryRow), b);
  }

  /** One more row of formulas re-pointed: its two cells written on top of the rows before it. */
  lemma ReanchoredStep(b: Book, abbr: string, row: int)
    requires |abbr| == 3 && PayTitle(abbr, 2) in b && PayTitle(abbr, 3) in b
    requires FirstCategoryRow <= row < CategoryRowsEnd
    requires FormulasAreText(b[PayTitle(abbr, 2)], row + 1) && FormulasAreText(b[PayTitle(abbr, 3)], row + 1)
    ensures Reanchored(b, abbr, row + 1) ==
      WithCell(WithCell(Reanchored(b, abbr, row),
                        PayTitle(abbr, 2), TotalCell(row), Text(Replace(Get(b[PayTitle(abbr, 2)], TotalCell(row)).text, TemplatePayTitle(1), PayTitle(abbr, 1)))),
               PayTitle(abbr, 3), TotalCell(row), Text(Replace(Get(b[PayTitle(abbr, 3)], TotalCell(row)).text, TemplatePayTitle(2), PayTitle(abbr, 2))))
  {
    SubPeriodTitlesDistinct(abbr, 2, 3);
    var pay2, pay3 := PayTitle(abbr, 2), PayTitle(abbr, 3);
    var step := WithCell(WithCell(Reanchored(b, abbr, row), pay2, TotalCell(row), Text(Replace(Get(b[pay2], TotalCell(row)).text, TemplatePayTitle(1), PayTitle(abbr, 1)))),
                         pay3, TotalCell(row), Text(Replace(Get(b[pay3], TotalCell(row)).text, TemplatePayTitle(2), PayTitle(abbr, 2))));
    var after := Reanchored(b, abbr, row + 1);
    assert after[pay2] == step[pay2];
    assert after[pay3] == step[pay3];
    SameBook(after, step);
  }

  /**
   * Lines 150-154 for one row: the formula of Pay 2 and then that of Pay 3
   * re-pointed, or the failure of the first of them that is not text.
   */
  method ReanchorRow(wb: Workbook, abbr: string, row: int, ghost start: Book) returns (failure: Option<Failure>)
    requires |abbr| == 3 && PayTitle(abbr, 2) in start && PayTitle(abbr, 3) in start
    requires FirstCategoryRow <= row < CategoryRowsEnd
    requires FormulasAreText(start[PayTitle(abbr, 2)], row) && FormulasAreText(start[PayTitle(abbr, 3)], row)
    requires wb.sheets == Reanchored(start, abbr, row)
    modifies wb
    ensures failure ==
      if !Get(start[PayTitle(abbr, 2)], TotalCell(row)).Text? then Some(FormulaNotText(PayTitle(abbr, 2), row))
      else if !Get(start[PayTitle(abbr, 3)], TotalCell(row)).Text? then Some(FormulaNotText(PayTitle(abbr, 3), row))
      else None
    ensures failure.None? ==>
      FormulasAreText(start[PayTitle(abbr, 2)], row + 1) && FormulasAreText(start[PayTitle(abbr, 3)], row + 1)
      && wb.sheets == Reanchored(start, abbr, row + 1)
    ensures wb.saved == old(wb.saved)
  {
    var pay2, pay3 := PayTitle(abbr, 2), PayTitle(abbr, 3);
    ReanchoredAhead(start, abbr, row);
    var value2 := Get(wb.sheets[pay2], TotalCell(row));
    if !value2.Text? {
      return Some(FormulaNotText(pay2, row));
    }
    var value3 := Get(wb.sheets[pay3], TotalCell(row));
    if !value3.Text? {
      return Some(FormulaNotText(pay3, row));
    }
    var formula2 := Replace(value2.text, TemplatePayTitle(1), PayTitle(abbr, 1));
    var formula3 := Replace(value3.text, TemplatePayTitle(2), PayTitle(abbr, 2));
    assert FormulasAreText(start[pay2], row + 1) && FormulasAreText(start[pay3], row + 1);
    ReanchoredStep(start, abbr, row);
    wb.SetCell(pay2, TotalCell(row), Text(formula2));
    wb.SetCell(pay3, TotalCell(row), Text(formula3));
    return None;
  }

  /**
   * Lines 149-154: the formulas of Pay 2 and Pay 3 re-pointed row by row.
   * The loop stops at the first formula that is not text, as `.replace`
   * raises there; nothing is saved in that case, so the sheets in memory
   * are then of no further interest.
   */
  method ReanchorFormulas(wb: Workbook, abbr: string) returns (failure: Option<Failure>)
    requires |abbr| == 3 && PayTitle(abbr, 2) in wb.sheets && PayTitle(abbr, 3) in wb.sheets
    modifies wb
    ensures failure == FirstNonTextFormula(old(wb.sheets), abbr, FirstCategoryRow)
    ensures failure.None? ==> wb.sheets == Reanchored(old(wb.sheets), abbr, CategoryRowsEnd)
    ensures wb.saved == old(wb.saved)
  {
    ghost var start, file := wb.sheets, wb.saved;
    ReanchoredNothing(start, abbr);
    var row := 2;
    while row < 22
      invariant 2 <= row <= 22
      invariant FirstNonTextFormula(start, abbr, FirstCategoryRow) == FirstNonTextFormula(start, abbr, row)
      invariant FormulasAreText(start[PayTitle(abbr, 2)], row) && FormulasAreText(start[PayTitle(abbr, 3)], row)
      invariant wb.sheets == Reanchored(start, abbr, row) && wb.saved == file
    {
      failure := ReanchorRow(wb, abbr, row, start);
      if failure.Some? {
        return;
      }
      row := row + 1;
    }
    return None;
  }

  /** Lines 158-169: the sheets of a sub-period that ends in the next month removed, with a save after each removal. */
  method PruneOverflow(wb: Workbook, abbr: string, chain: seq<Span>, lastDay: int)
    requires |abbr| == 3 && HasMonthSheets(wb.sheets, abbr) && |chain| == 3
    requires wb.saved == wb.sheets
    modifies wb
    ensures wb.sheets == Pruned(old(wb.sheets), abbr, chain, lastDay)
    ensures wb.saved == wb.sheets
  {
    if chain[2].end > lastDay {
      wb.Remove(PayTitle(abbr, 3));
      wb.Remove(ReceiptTitle(3));
      wb.Save();
    }
    if chain[1].end > lastDay {
      MonthTitlesDistinct(abbr);
      wb.Remove(PayTitle(abbr, 2));
      wb.Remove(ReceiptTitle(2));
      wb.Save();
    }
  }

  /** Lines 60-63: the pay sheets retitled, then saved; a missing one raises before the save. */
  method RenamePaySheets(wb: Workbook, abbr: string) returns (failure: Option<Failure>)
    requires |abbr| == 3
    requires PayTitle(abbr, 1) !in wb.sheets && PayTitle(abbr, 2) !in wb.sheets && PayTitle(abbr, 3) !in wb.sheets
    modifies wb
    ensures failure == MissingPaySheet(old(wb.sheets))
    ensures failure.Some? ==> wb.saved == old(wb.saved)
    ensures failure.None? ==> wb.saved == Renamed(old(wb.sheets), abbr)
  {
    if TemplatePayTitle(1) !in wb.sheets {
      return Some(MissingSheet(TemplatePayTitle(1)));
    }
    wb.Retitle(TemplatePayTitle(1), PayTitle(abbr, 1));
    if TemplatePayTitle(2) !in wb.sheets {
      return Some(MissingSheet(TemplatePayTitle(2)));
    }
    wb.Retitle(TemplatePayTitle(2), PayTitle(abbr, 2));
    if TemplatePayTitle(3) !in wb.sheets {
      return Some(MissingSheet(TemplatePayTitle(3)));
    }
    wb.Retitle(TemplatePayTitle(3), PayTitle(abbr, 3));
    wb.Save();
    return None;
  }

  /** Lines 86-114: the previous month's balances carried forward and saved, and its end date read. */
  method CarryFromPredecessor(wb: Workbook, abbr: string, pred: Predecessor)
    returns (lastEnd: Value, failure: Option<Failure>)
    requires PayTitle(abbr, 1) in wb.sheets
    modifies wb
    ensures var a := AnchorOnPredecessor(old(wb.sheets), abbr, pred);
      a.NotAnchored? ==> failure == Some(a.failure) && wb.saved == old(wb.saved)
    ensures var a := AnchorOnPredecessor(old(wb.sheets), abbr, pred);
      a.Anchored? ==> failure.None? && lastEnd == a.lastEnd && wb.sheets == a.book && wb.saved == a.book
  {
    lastEnd := Empty;
    var q := ParseFileName(pred.name);
    if q.None? {
      return lastEnd, Some(NameNotParsed(pred.name));
    }
    var prevAbbr := MonthAbbr(q.value.month);
    var title := PayTitle(prevAbbr, MostRecentPay(pred.book, prevAbbr));
    if title !in pred.book {
      return lastEnd, Some(MissingSheet(title));
    }
    var src := pred.book[title];
    lastEnd := Get(src, PayEndCell);
    CarryForward(wb, PayTitle(abbr, 1), src);
    wb.Save();
    return lastEnd, None;
  }

  /**
   * Lines 85-122: the balances carried forward from the previous month and
   * its end date read, or, with no previous file, the start day read from
   * the operator's answer. Only the carry-forward saves.
   */
  method AnchorFromPrevious(wb: Workbook, p: YearMonth, abbr: string, prev: Option<Predecessor>, answer: string)
    returns (lastEnd: Value, failure: Option<Failure>)
    requires p.Valid() && PayTitle(abbr, 1) in wb.sheets && wb.saved == wb.sheets
    modifies wb
    ensures var a := AnchorOf(old(wb.sheets), p, abbr, prev, answer);
      a.NotAnchored? ==> failure == Some(a.failure) && wb.saved == old(wb.saved)
    ensures var a := AnchorOf(old(wb.sheets), p, abbr, prev, answer);
      a.Anchored? ==> failure.None? && lastEnd == a.lastEnd && wb.sheets == a.book && wb.saved == a.book
  {
    if prev.Some? {
      lastEnd, failure := CarryFromPredecessor(wb, abbr, prev.value);
      return;
    }
    lastEnd := Empty;
    var day := ParseInt(answer);
    if day.None? {
      return lastEnd, Some(StartDayNotInteger(answer));
    }
    if !IsValidDate(p.year, p.month, day.value) {
      return lastEnd, Some(StartDayNotInMonth(day.value));
    }
    OrdinalInRange(p.year, p.month, day.value);
    var first := ToOrdinal(p.year, p.month, day.value);
    if first == 1 {
      return lastEnd, Some(DateOutOfRange);
    }
    return Date(first - 1), None;
  }

  /** Lines 148-169: formulas re-pointed and saved, then the pruning. */
  method CompleteDated(wb: Workbook, p: YearMonth, abbr: string, chain: seq<Span>)
    returns (failure: Option<Failure>)
    requires p.Valid() && |abbr| == 3 && HasMonthSheets(wb.sheets, abbr) && |chain| == 3
    requires wb.saved == wb.sheets
    modifies wb
    ensures wb.saved == Stored(FinishDated(old(wb.sheets), p, abbr, chain))
    ensures failure == FailureOf(FinishDated(old(wb.sheets), p, abbr, chain))
  {
    failure := ReanchorFormulas(wb, abbr);
    if failure.Some? {
      return;
    }
    wb.Save();
    PruneOverflow(wb, abbr, chain, LastDayOfMonth(p));
  }

  /** Lines 124-169: dates written and saved, then formulas and pruning. */
  method FinishFromAnchor(wb: Workbook, p: YearMonth, abbr: string, lastEnd: Value)
    returns (failure: Option<Failure>)
    requires p.Valid() && |abbr| == 3 && HasMonthSheets(wb.sheets, abbr) && wb.saved == wb.sheets
    modifies wb
    ensures wb.saved == Stored(Finish(old(wb.sheets), p, abbr, lastEnd))
    ensures failure == FailureOf(Finish(old(wb.sheets), p, abbr, lastEnd))
  {
    if !lastEnd.Date? {
      return Some(EndNotADate);
    }
    if lastEnd.day + 42 > MaxOrdinal {
      return Some(DateOutOfRange);
    }
    var chain := DateChain(lastEnd.day);
    assert SpanInRange(chain[0]) && SpanInRange(chain[1]) && SpanInRange(chain[2]);
    WriteDates(wb, abbr, chain);
    wb.Save();
    failure := CompleteDated(wb, p, abbr, chain);
  }

  /** Lines 66-169, on the reloaded document whose pay sheets carry the month's titles. */
  method PopulateRenamed(wb: Workbook, p: YearMonth, abbr: string, prev: Option<Predecessor>, answer: string)
    returns (failure: Option<Failure>)
    requires p.Valid() && |abbr| == 3 && wb.saved == wb.sheets
    requires PayTitle(abbr, 1) in wb.sheets && PayTitle(abbr, 2) in wb.sheets && PayTitle(abbr, 3) in wb.sheets
    modifies wb
    ensures wb.saved == Stored(RunRenamed(old(wb.sheets), p, abbr, prev, answer))
    ensures failure == FailureOf(RunRenamed(old(wb.sheets), p, abbr, prev, answer))
  {
    failure := MissingReceiptSheet(wb.sheets);
    if failure.Some? {
      return;
    }
    var lastEnd;
    lastEnd, failure := AnchorFromPrevious(wb, p, abbr, prev, answer);
    if failure.Some? {
      return;
    }
    failure := FinishFromAnchor(wb, p, abbr, lastEnd);
  }

  /**
   * `_populate_excel_values_from_previous_month`: file is what the new
   * document holds when the procedure starts (a copy of the template), name
   * its file name, prev the previous month's document when there is one,
   * and answer what the operator types at the start-day prompt, which is
   * only shown when there is none. The document is left holding what `Run`
   * says, and the failure, if any, is the exception the Python code raises.
   */
  method PopulateFromPreviousMonth(file: Book, name: string, prev: Option<Predecessor>, answer: string)
    returns (failure: Option<Failure>, stored: Book)
    requires NoRetitleCollision(file)
    ensures stored == Stored(Run(file, name, prev, answer))
    ensures failure == FailureOf(Run(file, name, prev, answer))
  {
    var wb := new Workbook.Load(file);
    var p := ParseFileName(name);
    if p.None? {
      return Some(NameNotParsed(name)), wb.saved;
    }
    var abbr := MonthAbbr(p.value.month);
    NoCollisionMeansAbsent(file, p.value.month);
    failure := RenamePaySheets(wb, abbr);
    if failure.Some? {
      return failure, wb.saved;
    }
    wb.Reload();
    failure := PopulateRenamed(wb, p.value, abbr, prev, answer);
    stored := wb.saved;
  }
}
