# Biweekly budget roll-forward and command-line menu, in Dafny

This project models two parts of PersonalFinanceTools.

**The roll-forward of a biweekly budget workbook.** This is
`_populate_excel_values_from_previous_month` in `biweekly_finances.py`.
A new month's document starts as a copy of the budget template. The
procedure then:

1. retitles the pay sheets "Pay 1/2/3" as "<Mon> - Pay 1/2/3";
2. picks the most recent pay sheet of the previous month's document and
   copies its "new total amount" column (H, rows 2-21) into the new Pay 1
   "total amount" column (C);
3. derives three consecutive 14-day sub-periods that start the day after the
   previous document's last day, or on a start day the operator types when
   there is no previous document;
4. writes each sub-period's first and last day into its pay sheet (B25/B26)
   and its receipt sheet (B24/B25);
5. re-points the column-C formulas of Pay 2 and Pay 3 at the month's own
   Pay 1 and Pay 2;
6. removes sub-period 3, and then sub-period 2, when that sub-period ends
   after the last day of the month.

The file name a document is given, `"<year> - <Month>.xlsx"`, and its parse
with `strptime(name, '%Y - %B.xlsx')` are modelled too.

**The command-line menu.** This is `CLIMenu` in `cli_menu.py`: a list of
options that grows by appending, and the check that an answer is an index
of the list. The selected-option lookup, the numbered prompt and the loop
that reads answers until one picks an option that quits the menu are
also modelled.

The model is split into modules:

- `Wrappers`: `Option`.
- `Numerals`: Python's `str(n)` and `int(s)`.
- `Strings`:
  - `str.replace`, with its split/join characterisation;
  - whitespace as `\s` matches it;
  - ASCII case folding.
- `Calendar`:
  - the Gregorian calendar;
  - dates as the day numbers of `date.toordinal`;
  - `calendar.monthrange` and month names.
- `FileNames`: the file-name format and its parse.
- `Spreadsheet`: a workbook as a map from sheet title to a map from cell to
  value, and the class `Workbook`. `Workbook` holds the sheets in memory and
  what the file on disk holds. Only `save` changes the file.
- `RollForward`:
  - each phase as a function on the sheets;
  - `Run`, what the whole procedure leaves in the file. That is the finished
    document, or, when the Python code would raise, the failure and what the
    last `save` before it wrote.
- `Populate`: the procedure as the Python code runs it. It changes one
  `Workbook` step by step, with the same loops and saves. Each method is
  proved to do what the corresponding `RollForward` function says.
- `RollForwardProperties`: what a completed run guarantees:
  - the dates of the kept sub-periods;
  - which sheets are pruned;
  - the balances carried forward;
  - that every other cell comes from the template;
  - that consecutive months join without a gap.
- `CliMenu`: the menu, with the class `Menu` for the state that
  `add_option` and `start_menu` change.

A failed run is modelled explicitly. The failures are:

- a file name that does not parse;
- a missing sheet;
- a start day that is not an integer or not a day of the month;
- a previous end date that is not a date;
- a date outside `datetime`'s range;
- a formula that is not text.

Each failure is a `Failure` value. The outcome `Aborted(failure, saved)`
carries what the file holds at that point.

The round trip of the file name holds for years from 1000 to 9999 only.
`%Y` needs exactly four digits, and `str(year)` writes fewer for earlier
years. `FileNames.ShortYearNameNotParsed` states that side.

## Model

One row per function, method and lemma that models an operation or a rule of the source, or states a property of one. Members without an `ensures` say so in their row and name the lemmas that give their meaning. Predicates and helpers that only name a shape of the data (cell references, sheet-presence tests, digit arithmetic) and the step lemmas inside longer proofs have no row.

| member | source | states |
|---|---|---|
| Numerals.NatToString | personal_finance_tools/services/biweekly_finances/src/biweekly_finances.py:34 | `str(n)` is a non-empty run of decimal digits, a single digit exactly when n < 10; what it denotes is given by NatToStringValue and NatToStringLength |
| Numerals.ParseInt | command_line_interface/cli_menu.py:68 | no ensures; its meaning is given by ParseIntAccepts (what it accepts) and ParseIntRoundTrip (it reads back what NatToString writes) |
| Numerals.NatToStringValue | personal_finance_tools/services/biweekly_finances/src/biweekly_finances.py:34 | the digits `str(n)` writes denote n |
| Numerals.NatToStringLength | personal_finance_tools/services/biweekly_finances/src/biweekly_finances.py:34 | `str(year)` has exactly four digits for years 1000-9999 and at most three below |
| Numerals.ParseIntRoundTrip | command_line_interface/cli_menu.py:68 | `int` reads back the numeral `str` writes, with or without a minus sign |
| Numerals.ParseIntAccepts | command_line_interface/cli_menu.py:68 | `int` accepts only an optional sign followed by at least one digit |
| Calendar.MonthName | personal_finance_tools/services/biweekly_finances/src/biweekly_finances.py:35 | `calendar.month_name[m]` has at least three letters and starts with a capital; MonthAbbr, MatchMonth and MonthFileSuffixesDistinct say more about it |
| Calendar.ToOrdinal | personal_finance_tools/services/biweekly_finances/src/biweekly_finances.py:119-122 | no ensures; its meaning is given by OrdinalOfDay, OrdinalInRange, DaysInYear and MonthEndFollowedByNextMonth |
| Calendar.LastDayOfMonth | personal_finance_tools/services/biweekly_finances/src/biweekly_finances.py:158-159 | no ensures; its meaning is given by MonthEndFollowedByNextMonth (the next day is the next month's first) and OrdinalOfDay (it is the first day plus the month's length less one) |
| Calendar.IsLeapYear | personal_finance_tools/services/biweekly_finances/src/biweekly_finances.py:158 | no ensures; `calendar.isleap`, whose meaning is given through DaysInMonth and DaysInYear |
| Calendar.IsValidDate | personal_finance_tools/services/biweekly_finances/src/biweekly_finances.py:121 | no ensures; the dates `datetime` accepts, years 1 to 9999 and days within DaysInMonth, as used by OrdinalInRange and StartDayAnchor |
| Calendar.DaysInMonth | personal_finance_tools/services/biweekly_finances/src/biweekly_finances.py:158 | every month has 28 to 31 days |
| Calendar.DaysInYear | personal_finance_tools/services/biweekly_finances/src/biweekly_finances.py:158-159 | day numbers advance by 366 over a Gregorian leap year and by 365 otherwise |
| Calendar.MonthEndFollowedByNextMonth | personal_finance_tools/services/biweekly_finances/src/biweekly_finances.py:158-159 | the day after a month's last day is the first day of the next month |
| Calendar.OrdinalOfDay | personal_finance_tools/services/biweekly_finances/src/biweekly_finances.py:119-122 | day d of a month is d - 1 days after its first day, and the month's last day is its length minus one after it |
| Calendar.OrdinalInRange | personal_finance_tools/services/biweekly_finances/src/biweekly_finances.py:121 | every valid date has a day number from 1 to that of 31 December 9999 |
| Calendar.MonthAbbr | personal_finance_tools/services/biweekly_finances/src/biweekly_finances.py:56 | the `%b` abbreviation is the first three letters of the `%B` month name |
| Calendar.Previous | personal_finance_tools/services/biweekly_finances/src/biweekly_finances.py:19 | the previous month is a valid month exactly one month earlier |
| Strings.IsSpace | personal_finance_tools/services/biweekly_finances/src/biweekly_finances.py:228 | no ensures; the characters `\s` matches, the ones `str.isspace` accepts, as SkipSpaces uses them |
| Strings.EqualsIgnoreCase | personal_finance_tools/services/biweekly_finances/src/biweekly_finances.py:228 | no ensures; equality up to ASCII case, the comparison MatchMonth and MonthFileSuffixesDistinct use |
| Strings.SkipSpaces | personal_finance_tools/services/biweekly_finances/src/biweekly_finances.py:228 | what is left is the suffix of s after its leading run of whitespace: every character skipped is whitespace, and the rest is empty or starts with a non-space |
| Strings.Split | personal_finance_tools/services/biweekly_finances/src/biweekly_finances.py:151-152 | the split has at least one piece, and the first piece is a prefix of s; SplitPiecesFree and JoinSplit say more |
| Strings.Join | personal_finance_tools/services/biweekly_finances/src/biweekly_finances.py:151-152 | no ensures; its meaning is given by JoinSplit and ReplaceIsJoinOfSplit |
| Strings.JoinSplit | personal_finance_tools/services/biweekly_finances/src/biweekly_finances.py:151-152 | joining the pieces of a split with the separator gives back the string |
| Strings.Replace | personal_finance_tools/services/biweekly_finances/src/biweekly_finances.py:151-152 | no ensures; its meaning is given by ReplaceIsJoinOfSplit (it equals split-then-join) and ReplaceAbsent |
| Strings.ReplaceIsJoinOfSplit | personal_finance_tools/services/biweekly_finances/src/biweekly_finances.py:151-152 | `s.replace(pat, rep)` is s split at every occurrence of pat, joined with rep |
| Strings.SplitPiecesFree | personal_finance_tools/services/biweekly_finances/src/biweekly_finances.py:151-152 | no piece of the split contains the separator |
| Strings.ReplaceAbsent | personal_finance_tools/services/biweekly_finances/src/biweekly_finances.py:151-152 | a formula without the pattern is left unchanged |
| FileNames.MatchMonth | personal_finance_tools/services/biweekly_finances/src/biweekly_finances.py:228 | `%B.xlsx` matches exactly the month whose name plus ".xlsx" equals the text up to ASCII case, and none when no month does |
| FileNames.AfterSeparator | personal_finance_tools/services/biweekly_finances/src/biweekly_finances.py:228 | no ensures; what follows the whitespace, "-" and whitespace of the format, as SeparatorSkipped and ParseOfSeparatedName use it |
| FileNames.ParseFileName | personal_finance_tools/services/biweekly_finances/src/biweekly_finances.py:220-228 | a parsed name always yields a valid year and month |
| FileNames.ParseAfterYear | personal_finance_tools/services/biweekly_finances/src/biweekly_finances.py:228 | what follows the year parses only to a valid year and month |
| FileNames.ParseOfSeparatedName | personal_finance_tools/services/biweekly_finances/src/biweekly_finances.py:228 | "dddd - x" parses as year dddd and the month x spells, and fails when x spells no month |
| FileNames.FileName | personal_finance_tools/services/biweekly_finances/src/biweekly_finances.py:34-35 | no ensures; its meaning is given by FileNameRoundTrip (it parses back for years from 1000) and ShortYearNameNotParsed |
| FileNames.FileNameRoundTrip | personal_finance_tools/services/biweekly_finances/src/biweekly_finances.py:220-228 | parsing the name given to the document of (year, month) returns that year and month, for years from 1000 |
| FileNames.ShortYearNameNotParsed | personal_finance_tools/services/biweekly_finances/src/biweekly_finances.py:34-35 | for a year below 1000 the name formatted on lines 34-35 does not parse |
| FileNames.MonthFileSuffixesDistinct | personal_finance_tools/services/biweekly_finances/src/biweekly_finances.py:35 | no two months spell the same "<Month>.xlsx", whatever the case |
| FileNames.PredecessorFileNameAsWritten | personal_finance_tools/services/biweekly_finances/src/biweekly_finances.py:39-40 | no ensures; the previous month's name as the code builds it, with the month as a number; AsWrittenPredecessorNameNeverParses says it never parses |
| FileNames.AsWrittenPredecessorNameNeverParses | personal_finance_tools/services/biweekly_finances/src/biweekly_finances.py:39-40 | the previous month's name built with the numeric month never parses |
| FileNames.PredecessorFileName | personal_finance_tools/services/biweekly_finances/src/biweekly_finances.py:39-40 | no ensures; the previous month's name in the format of lines 34-35; PredecessorFileNameParses says it parses back to the previous month |
| FileNames.PredecessorFileNameParses | personal_finance_tools/services/biweekly_finances/src/biweekly_finances.py:39-40 | the name built with the month's name parses back to the previous month |
| Spreadsheet.Retitled | personal_finance_tools/services/biweekly_finances/src/biweekly_finances.py:60-62 | retitling moves the sheet to its new title, and every other sheet keeps its title and contents |
| Spreadsheet.WithCell | personal_finance_tools/services/biweekly_finances/src/biweekly_finances.py:113 | writing a cell changes that cell of that sheet and nothing else |
| Spreadsheet.WithSheet | personal_finance_tools/services/biweekly_finances/src/biweekly_finances.py:153-154 | replacing one sheet leaves the titles and the other sheets as they were |
| Spreadsheet.Workbook.Load | personal_finance_tools/services/biweekly_finances/src/biweekly_finances.py:54 | after loading, memory and the file hold the same sheets |
| Spreadsheet.Workbook.Retitle | personal_finance_tools/services/biweekly_finances/src/biweekly_finances.py:60-62 | `ws.title = to` retitles in memory and leaves the file as it was |
| Spreadsheet.Workbook.SetCell | personal_finance_tools/services/biweekly_finances/src/biweekly_finances.py:113 | a cell assignment changes memory only |
| Spreadsheet.Workbook.Remove | personal_finance_tools/services/biweekly_finances/src/biweekly_finances.py:162-163 | `remove` drops the sheet from memory only |
| Spreadsheet.Workbook.Save | personal_finance_tools/services/biweekly_finances/src/biweekly_finances.py:63 | `save` makes the file hold exactly what memory holds |
| Spreadsheet.Workbook.Reload | personal_finance_tools/services/biweekly_finances/src/biweekly_finances.py:66 | reloading makes memory hold what the file holds |
| RollForward.TemplatePayTitle | personal_finance_tools/services/biweekly_finances/src/biweekly_finances.py:60-62 | "Pay k" ends in the digit k |
| RollForward.ReceiptTitle | personal_finance_tools/services/biweekly_finances/src/biweekly_finances.py:70-72 | "Receipt k" has nine characters and ends in the digit k, shape facts that MonthTitlesDistinct rests on |
| RollForward.PayTitle | personal_finance_tools/services/biweekly_finances/src/biweekly_finances.py:60-62 | "<abbr> - Pay k" is eight characters longer than abbr and ends in the digit k |
| RollForward.SubPeriodTitlesDistinct | personal_finance_tools/services/biweekly_finances/src/biweekly_finances.py:67-72 | different sub-periods have different pay, receipt and template titles |
| RollForward.MonthTitlesDistinct | personal_finance_tools/services/biweekly_finances/src/biweekly_finances.py:67-72 | the six sheets of a month have six different titles, and no pay title is a receipt title |
| RollForward.NoCollisionMeansAbsent | personal_finance_tools/services/biweekly_finances/src/biweekly_finances.py:60-62 | a template with no title that clashes with a month's pay titles contains none of them |
| RollForward.MissingPaySheet | personal_finance_tools/services/biweekly_finances/src/biweekly_finances.py:60-62 | the renaming fails exactly when a "Pay k" is missing, naming the first missing one |
| RollForward.MissingReceiptSheet | personal_finance_tools/services/biweekly_finances/src/biweekly_finances.py:70-72 | the lookup fails exactly when a "Receipt k" is missing, naming a missing one |
| RollForward.Renamed | personal_finance_tools/services/biweekly_finances/src/biweekly_finances.py:60-62 | "Pay k" becomes "<abbr> - Pay k" with the same contents; every other sheet keeps its title and contents; no sheet is added or lost |
| RollForward.MostRecentPay | personal_finance_tools/services/biweekly_finances/src/biweekly_finances.py:92-103 | the chosen pay sheet is the highest-numbered one present, Pay 1 when neither 2 nor 3 is |
| RollForward.CarriedForward | personal_finance_tools/services/biweekly_finances/src/biweekly_finances.py:108-113 | each C of rows 2-21 of Pay 1 takes the source's H on that row, blanks included, and no other cell or sheet changes |
| RollForward.DateChain | personal_finance_tools/services/biweekly_finances/src/biweekly_finances.py:126-131 | sub-period k runs from lastEnd + 14(k - 1) + 1 to lastEnd + 14k |
| RollForward.WithSubPeriodDates | personal_finance_tools/services/biweekly_finances/src/biweekly_finances.py:134-145 | pay sheet k shows the span in B25/B26 and receipt sheet k in B24/B25, and no other cell changes |
| RollForward.OtherDatesKept | personal_finance_tools/services/biweekly_finances/src/biweekly_finances.py:134-145 | writing one sub-period's dates keeps another's |
| RollForward.WithDates | personal_finance_tools/services/biweekly_finances/src/biweekly_finances.py:134-145 | all three sub-periods show their spans, only the twelve date cells change, and other sheets are untouched |
| RollForward.ReanchoredSheet | personal_finance_tools/services/biweekly_finances/src/biweekly_finances.py:149-154 | each C of rows 2-21 holds the replaced formula, and no other cell changes |
| RollForward.Reanchored | personal_finance_tools/services/biweekly_finances/src/biweekly_finances.py:149-154 | "Pay 1" is replaced in Pay 2's formulas and "Pay 2" in Pay 3's; every other sheet, Pay 1 included, is untouched |
| RollForward.FirstNonTextFormula | personal_finance_tools/services/biweekly_finances/src/biweekly_finances.py:149-152 | the formula loop raises exactly when some C of rows 2-21 of Pay 2 or Pay 3 is not text |
| RollForward.Pruned | personal_finance_tools/services/biweekly_finances/src/biweekly_finances.py:158-169 | sub-period 3's sheets are kept iff it ends by the last day, and likewise sub-period 2's; sub-period 1's are always kept and nothing is added |
| RollForward.SourceTitle | personal_finance_tools/services/biweekly_finances/src/biweekly_finances.py:87-103 | a source title exists exactly when the previous document's name parses |
| RollForward.AnchorOnPredecessor | personal_finance_tools/services/biweekly_finances/src/biweekly_finances.py:86-113 | carrying forward keeps the set of sheets |
| RollForward.AnchorOnStartDay | personal_finance_tools/services/biweekly_finances/src/biweekly_finances.py:116-122 | reading the start day changes no sheet |
| RollForward.AnchorOf | personal_finance_tools/services/biweekly_finances/src/biweekly_finances.py:85-122 | anchoring keeps the set of sheets, with or without a previous document |
| Populate.CarryForward | personal_finance_tools/services/biweekly_finances/src/biweekly_finances.py:108-113 | the copy loop leaves the sheets `CarriedForward` describes |
| Populate.WriteSubPeriodDates | personal_finance_tools/services/biweekly_finances/src/biweekly_finances.py:134-145 | four cell writes of one sub-period leave `WithSubPeriodDates` |
| Populate.WriteDates | personal_finance_tools/services/biweekly_finances/src/biweekly_finances.py:134-145 | the twelve date writes leave `WithDates` |
| Populate.ReanchoredNothing | personal_finance_tools/services/biweekly_finances/src/biweekly_finances.py:149 | before its first row the formula loop has changed nothing |
| Populate.ReanchoredAhead | personal_finance_tools/services/biweekly_finances/src/biweekly_finances.py:151-152 | the row the loop is about to read still holds the template's formula |
| Populate.ReanchoredStep | personal_finance_tools/services/biweekly_finances/src/biweekly_finances.py:151-154 | one more row re-pointed is the two cell writes of that row |
| Populate.ReanchorRow | personal_finance_tools/services/biweekly_finances/src/biweekly_finances.py:150-154 | one row re-pointed, or the failure of the first non-text formula of the row; the file is untouched |
| Populate.ReanchorFormulas | personal_finance_tools/services/biweekly_finances/src/biweekly_finances.py:149-154 | the loop fails with `FirstNonTextFormula`, or else leaves `Reanchored`; the file is untouched |
| Populate.PruneOverflow | personal_finance_tools/services/biweekly_finances/src/biweekly_finances.py:158-169 | the removals leave `Pruned`, saved |
| Populate.RenamePaySheets | personal_finance_tools/services/biweekly_finances/src/biweekly_finances.py:60-63 | the file holds `Renamed` after the save, or is unchanged when a pay sheet is missing |
| Populate.CarryFromPredecessor | personal_finance_tools/services/biweekly_finances/src/biweekly_finances.py:86-114 | the result, memory and file are what `AnchorOnPredecessor` says, and the file is unchanged on failure |
| Populate.AnchorFromPrevious | personal_finance_tools/services/biweekly_finances/src/biweekly_finances.py:85-122 | the end date, sheets and file are what `AnchorOf` says |
| Populate.CompleteDated | personal_finance_tools/services/biweekly_finances/src/biweekly_finances.py:148-169 | the file and the failure are what `FinishDated` says |
| Populate.FinishFromAnchor | personal_finance_tools/services/biweekly_finances/src/biweekly_finances.py:124-169 | the file and the failure are what `Finish` says |
| Populate.PopulateRenamed | personal_finance_tools/services/biweekly_finances/src/biweekly_finances.py:66-169 | the file and the failure are what `RunRenamed` says |
| Populate.PopulateFromPreviousMonth | personal_finance_tools/services/biweekly_finances/src/biweekly_finances.py:47-169 | the whole procedure leaves in the file what `Run` says and raises the failure `Run` gives |
| RollForward.Finish | personal_finance_tools/services/biweekly_finances/src/biweekly_finances.py:124-169 | no ensures; its meaning is given by FinishCompletes, FinishPhases, FinishLaidOut, FinishKeeps and FinishFormulas, and Populate.FinishFromAnchor runs it |
| RollForward.FinishDated | personal_finance_tools/services/biweekly_finances/src/biweekly_finances.py:148-169 | no ensures; its meaning is given by FinishDatedResult, and Populate.CompleteDated runs it |
| RollForward.RunRenamed | personal_finance_tools/services/biweekly_finances/src/biweekly_finances.py:66-169 | no ensures; its meaning is given by RunPhases and PredecessorRunCompletes, and Populate.PopulateRenamed runs it |
| RollForward.Run | personal_finance_tools/services/biweekly_finances/src/biweekly_finances.py:47-169 | no ensures; its meaning is given by CompletesWithoutPredecessor and CompletesWithPredecessor (when it completes), RunPhases, CompletedWithoutPredecessor and CompletedWithPredecessor (what a completed run holds) and ConsecutiveRunsAreContiguous; Populate.PopulateFromPreviousMonth is proved to leave its file and failure |
| RollForwardProperties.TotalCellNotDateCell | personal_finance_tools/services/biweekly_finances/src/biweekly_finances.py:75-79 | the date cells are in column B, not in column C |
| RollForwardProperties.DatesKeepTotals | personal_finance_tools/services/biweekly_finances/src/biweekly_finances.py:134-145 | writing the dates changes no "total amount" cell |
| RollForwardProperties.ReanchoringKeepsCell | personal_finance_tools/services/biweekly_finances/src/biweekly_finances.py:149-154 | re-pointing formulas changes no cell outside C2-C21 |
| RollForwardProperties.ReanchoredShowsDates | personal_finance_tools/services/biweekly_finances/src/biweekly_finances.py:149-154 | re-pointing the formulas keeps every sub-period's dates |
| RollForwardProperties.PrunedLaidOut | personal_finance_tools/services/biweekly_finances/src/biweekly_finances.py:158-169 | pruning a document dated from day s keeps sub-period 2 or 3 exactly when it ends by the last day, with its dates, and always keeps sub-period 1 |
| RollForwardProperties.FinishDatedResult | personal_finance_tools/services/biweekly_finances/src/biweekly_finances.py:148-169 | after dating, the run fails at the first non-text formula with the dated file, or completes with the re-pointed, pruned sheets |
| RollForwardProperties.FinishEndsOnDate | personal_finance_tools/services/biweekly_finances/src/biweekly_finances.py:126-131 | a completed run started from a date whose 42nd following day is in range |
| RollForwardProperties.FinishLaidOut | personal_finance_tools/services/biweekly_finances/src/biweekly_finances.py:126-169 | a completed document shows sub-period k from s + 14(k - 1) to s + 14k - 1, keeps sub-periods 2 and 3 exactly when they end within the month, and always keeps sub-period 1 |
| RollForwardProperties.KeptOutsideTransitive | personal_finance_tools/services/biweekly_finances/src/biweekly_finances.py:124-169 | "no cell outside the rewritten ones changed" composes across phases |
| RollForwardProperties.DatesKeepOutside | personal_finance_tools/services/biweekly_finances/src/biweekly_finances.py:134-145 | the date phase writes only date cells |
| RollForwardProperties.ReanchoringKeepsOutside | personal_finance_tools/services/biweekly_finances/src/biweekly_finances.py:149-154 | the formula phase writes only C2-C21 of Pay 2 and Pay 3 |
| RollForwardProperties.PruningKeepsOutside | personal_finance_tools/services/biweekly_finances/src/biweekly_finances.py:158-169 | pruning only removes sheets |
| RollForwardProperties.FinishPhases | personal_finance_tools/services/biweekly_finances/src/biweekly_finances.py:124-169 | a completed finish is dates, then formulas, then pruning, with every formula text |
| RollForwardProperties.FinishKeeps | personal_finance_tools/services/biweekly_finances/src/biweekly_finances.py:124-169 | after the anchoring only date cells and C2-C21 of Pay 2 and Pay 3 change, and sheets outside the month are kept as they are |
| RollForwardProperties.FinishFormulas | personal_finance_tools/services/biweekly_finances/src/biweekly_finances.py:149-154 | every kept Pay 2 and Pay 3 formula of rows 2-21 is the original with "Pay 1", respectively "Pay 2", replaced by the month's title |
| RollForwardProperties.PayTitleNotTemplateTitle | personal_finance_tools/services/biweekly_finances/src/biweekly_finances.py:60-62 | a month's pay title is never a template "Pay k" |
| RollForwardProperties.RenamedOrigins | personal_finance_tools/services/biweekly_finances/src/biweekly_finances.py:60-62 | every sheet after the renaming is a template sheet, under its old or its new title |
| RollForwardProperties.RenamedFromTemplate | personal_finance_tools/services/biweekly_finances/src/biweekly_finances.py:60-62 | the renamed book is the template with only the pay sheets retitled |
| RollForwardProperties.FinishIsFinishedFrom | personal_finance_tools/services/biweekly_finances/src/biweekly_finances.py:124-169 | a completed finish is traced back cell by cell to the anchored document |
| RollForwardProperties.TracedToTemplate | personal_finance_tools/services/biweekly_finances/src/biweekly_finances.py:60-169 | renaming, anchoring and finishing together leave every cell outside the written ones as in the template, with the formulas re-pointed |
| RollForwardProperties.RunPhases | personal_finance_tools/services/biweekly_finances/src/biweekly_finances.py:54-169 | a completed run had all template pay and receipt sheets, anchored, and is the finish of that anchor |
| RollForwardProperties.PredecessorAnchor | personal_finance_tools/services/biweekly_finances/src/biweekly_finances.py:92-113 | anchoring on a previous document copies its most recent pay sheet's H2-H21 into Pay 1 and takes its B26 |
| RollForwardProperties.StartDayAnchor | personal_finance_tools/services/biweekly_finances/src/biweekly_finances.py:117-122 | anchoring on a start day means the answer is a day of the month, and the end taken is the day before it |
| RollForwardProperties.Pay1TotalsKept | personal_finance_tools/services/biweekly_finances/src/biweekly_finances.py:149-154 | the later phases leave Pay 1's column C as carried forward |
| RollForwardProperties.PredecessorLaidOut | personal_finance_tools/services/biweekly_finances/src/biweekly_finances.py:104-145 | the new month starts the day after the previous most recent pay sheet's B26 |
| RollForwardProperties.PredecessorContents | personal_finance_tools/services/biweekly_finances/src/biweekly_finances.py:108-113 | the carried balances and the template cells survive to the finished document |
| RollForwardProperties.CompletedWithPredecessor | personal_finance_tools/services/biweekly_finances/src/biweekly_finances.py:85-169 | with a previous document, a completed run is laid out from the day after its most recent pay sheet's end; Pay 1's C2-C21 are that sheet's H2-H21; everything else comes from the template |
| RollForwardProperties.PrunedLatestFirst | personal_finance_tools/services/biweekly_finances/src/biweekly_finances.py:158-169 | sub-period 2 is only removed along with sub-period 3, and sub-period 1 is never removed |
| RollForwardProperties.LaidOutFromDay | personal_finance_tools/services/biweekly_finances/src/biweekly_finances.py:158-169 | laid out from day d, the month keeps sub-period 2 iff d + 27 is within it, and never keeps sub-period 3 |
| RollForwardProperties.FinishedOnStartDay | personal_finance_tools/services/biweekly_finances/src/biweekly_finances.py:116-169 | from a start day, the document is laid out from exactly that day and Pay 1 keeps the template's totals |
| RollForwardProperties.CompletedWithoutPredecessor | personal_finance_tools/services/biweekly_finances/src/biweekly_finances.py:116-169 | without a previous document, a completed run starts on the typed day, keeps sub-period 2 iff it fits, drops sub-period 3, and keeps the template's Pay 1 totals |
| RollForwardProperties.FinishCompletes | personal_finance_tools/services/biweekly_finances/src/biweekly_finances.py:124-169 | once anchored, the run completes iff the last day is a date, the 42 days after it are in range, and the formulas of Pay 2 and Pay 3 are all text |
| RollForwardProperties.RenamedReceipts | personal_finance_tools/services/biweekly_finances/src/biweekly_finances.py:60-72 | the renamed document has the receipt sheets and the month's sheets exactly when the template has the receipt sheets |
| RollForwardProperties.CompletesWithoutPredecessor | personal_finance_tools/services/biweekly_finances/src/biweekly_finances.py:54-169 | without a previous document, the run completes iff the name parses, the template has its pay and receipt sheets with text formulas in Pay 2 and Pay 3, and the answer is an integer naming a day of that month, other than 1 January of year 1, from which the 42 days of the three sub-periods stay in range |
| RollForwardProperties.PredecessorRunCompletes | personal_finance_tools/services/biweekly_finances/src/biweekly_finances.py:86-169 | with a previous document, anchoring and finishing succeed iff its name parses, its most recent pay sheet exists and ends on a date whose 42-day successor is in range, and Pay 2 and Pay 3 have text formulas |
| RollForwardProperties.CompletesWithPredecessor | personal_finance_tools/services/biweekly_finances/src/biweekly_finances.py:54-169 | with a previous document, the run completes iff the name parses, the template has its sheets with text formulas in Pay 2 and Pay 3, and the previous document's most recent pay sheet exists and ends on a date whose 42-day successor is in range |
| RollForwardProperties.MostRecentPayIsLastKept | personal_finance_tools/services/biweekly_finances/src/biweekly_finances.py:92-104 | in a laid-out document the most recent pay sheet is the last kept sub-period, and its B26 is its last day |
| RollForwardProperties.LaidOutPredecessor | personal_finance_tools/services/biweekly_finances/src/biweekly_finances.py:92-104 | read back as the previous document, a laid-out month hands over the last day of its last kept sub-period |
| RollForwardProperties.ConsecutiveRunsAreContiguous | personal_finance_tools/services/biweekly_finances/src/biweekly_finances.py:85-145 | next month's run starts the day after this month's last kept sub-period ends and carries that sheet's new totals |
| CliMenu.IsValidSelection | command_line_interface/cli_menu.py:61-79 | no ensures; its meaning is given by IndexNumeralSelects, ValidSelectionIsIndex and NoOptionsNoSelection |
| CliMenu.SelectedOption | command_line_interface/cli_menu.py:50-59 | an option is returned iff the answer is a valid selection, and it is one of the options |
| CliMenu.NoOptionsNoSelection | command_line_interface/cli_menu.py:69 | with no options every answer is invalid |
| CliMenu.IndexNumeralSelects | command_line_interface/cli_menu.py:61-79 | the numeral of every index is valid and selects the option at that index |
| CliMenu.ValidSelectionIsIndex | command_line_interface/cli_menu.py:61-79 | a valid answer is an optional sign and digits, and selects the option at the index it denotes |
| CliMenu.Listing | command_line_interface/cli_menu.py:23-26 | no ensures; its meaning is given by ListingAppend and ListingPrefix |
| CliMenu.Prompt | command_line_interface/cli_menu.py:22-27 | no ensures; its meaning is given by OptionShownInPrompt, and CliMenu.Menu.BuildPrompt builds it with the loop |
| CliMenu.ListingAppend | command_line_interface/cli_menu.py:23-26 | an appended option adds its line at the end of the listing |
| CliMenu.ListingPrefix | command_line_interface/cli_menu.py:23-26 | the lines of the first n options are a prefix of the listing |
| CliMenu.OptionShownInPrompt | command_line_interface/cli_menu.py:22-27 | "i) <text>\n" stands in the prompt right after the header and the lines of options 0 to i - 1 |
| CliMenu.FirstQuit | command_line_interface/cli_menu.py:34-39 | the position found is the first answer that picks a quitting option, or there is none |
| CliMenu.Menu.constructor | command_line_interface/cli_menu.py:8-13 | a new menu has its name and no options |
| CliMenu.Menu.AddOption | command_line_interface/cli_menu.py:43-48 | the option is appended; the earlier options keep their places |
| CliMenu.Menu.BuildPrompt | command_line_interface/cli_menu.py:22-27 | the loop builds the header, one numbered line per option in order, then the footer |
| CliMenu.Menu.StartMenu | command_line_interface/cli_menu.py:34-41 | reads answers up to the first that picks a quitting option and performs that option once; options and name are unchanged |

## Left out

- File system and process plumbing: creating directories, copying the template, the config JSON lookup, and `main`'s argument handling (biweekly_finances.py:171-248). The new document's initial contents are a parameter of `Run` instead, and so is its file name.
- Opening the previous document and testing that its file exists. A `Predecessor` value is given when the file exists, and none otherwise. That document is a value, so the procedure cannot change it.
- The predecessor path built on lines 39-41 is not modelled as a path. The join under the output *file* path and the current year is left out. The file-name half of it appears in the findings.
- All `print` output, and the menu's header lines and error message (cli_menu.py:30-31, 36, 76-77).
- `input()` at biweekly_finances.py:117-118 and cli_menu.py:35. The answers typed are parameters: one string for the start day, and a sequence of strings for the menu.
- `load_workbook(..., data_only=True)` for the previous document. It is given as the cached values it holds.
- openpyxl's behaviour when a sheet is retitled to a title already in use, which it silently changes. `NoRetitleCollision` excludes templates where this could happen.
- Sheet order within a workbook, the time of day of dates, and cell types other than empty, text, number and date.
- `strptime` is modelled for the C locale's month names only. Its case-insensitive match is modelled for ASCII letters only; Unicode characters that Python folds to ASCII letters are not.
- Numerals.ParseInt: `int()` also accepts surrounding whitespace, underscores between digits and non-ASCII digits; the model does not.
- FileNames.ParseFileName: `%Y` in `strptime` matches `\d\d\d\d` and `int` reads Unicode decimal digits, so a name such as "٢٠٢٤ - March.xlsx" (Arabic-Indic digits) parses in Python; the model accepts ASCII digits only.
- RollForward.AnchorOnStartDay: a typed start day too large for a C integer makes `datetime(...)` raise `OverflowError` rather than `ValueError`; the model reports both as `StartDayNotInMonth`. Either way the run stops with the same document saved.
- CliMenu.Menu.StartMenu: when the answers run out before one picks a quitting option, Python's `input` raises `EOFError`. The model stops there and performs nothing.
- CliMenu.Menu.StartMenu: an action is modelled as recorded in `performed`; what it does and how it changes an option's quit flag (cli_options.py) are not modelled. An answer that picks an option that does not quit re-shows the prompt without performing that option, as the source does.
- cli_options.py, main.py, definitions.py, user_settings_manager.py and test.py are not part of this model.

## Findings

| source | as written | input that shows it | evidently intended | confidence | as-written member | corrected member |
|---|---|---|---|---|---|---|
| personal_finance_tools/services/biweekly_finances/src/biweekly_finances.py:39-40 | the previous month's file name is built with the month as a number, "2023 - 12.xlsx" | new month January 2024: the name "2023 - 12.xlsx" does not parse with '%Y - %B.xlsx' (line 228), so reading such a document would raise | the month's full name, "2023 - December.xlsx", matching the format on lines 34-35 | not executed | FileNames.PredecessorFileNameAsWritten, FileNames.AsWrittenPredecessorNameNeverParses | FileNames.PredecessorFileName, FileNames.PredecessorFileNameParses |
