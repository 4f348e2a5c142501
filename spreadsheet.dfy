/**
 * The part of an openpyxl workbook the roll-forward touches: sheets by
 * title, each a map from cell address to value. Formulas are their text,
 * as openpyxl stores them; dates are day ordinals.
 */
module Spreadsheet {
  import opened Calendar

  /** A cell address such as "C2": column letters and a row number. */
  datatype CellRef = CellRef(column: string, row: int)

  /** What a cell holds. Money amounts are copied and never computed on. */
  datatype Value = Empty | Text(text: string) | Number(amount: real) | Date(day: Ordinal)

  type Sheet = map<CellRef, Value>

  /** The sheets of a workbook by title. Sheet order is not modelled. */
  type Book = map<string, Sheet>

  /** A cell's value; a cell never written reads as empty, as openpyxl reads None. */
  function Get(sheet: Sheet, c: CellRef): Value {
    if c in sheet then sheet[c] else Empty
  }

  /** The book with sheet `from` now titled `to`, as `ws.title = to` leaves it. */
  function Retitled(b: Book, from: string, to: string): (r: Book)
    requires from in b && to !in b
    ensures r.Keys == b.Keys - {from} + {to}
    ensures r[to] == b[from]
    ensures forall t :: t in b && t != from ==> r[t] == b[t]
  {
    (b - {from})[to := b[from]]
  }

  /** The book after `ws[c] = v` on the sheet titled `title`. */
  function WithCell(b: Book, title: string, c: CellRef, v: Value): (r: Book)
    requires title in b
    ensures r.Keys == b.Keys
    ensures forall t :: t in b && t != title ==> r[t] == b[t]
    ensures Get(r[title], c) == v
    ensures forall d :: d != c ==> Get(r[title], d) == Get(b[title], d)
  {
    b[title := b[title][c := v]]
  }

  /** The book with the sheet titled `title` replaced by `sheet`. */
  function WithSheet(b: Book, title: string, sheet: Sheet): (r: Book)
    requires title in b
    ensures r.Keys == b.Keys
    ensures r[title] == sheet
    ensures forall t :: t in b && t != title ==> r[t] == b[t]
  {
    b[title := sheet]
  }

  /** Two books with the same titles and the same sheet under each title are the same book. */
  lemma SameBook(a: Book, b: Book)
    requires a.Keys == b.Keys && forall t :: t in a ==> a[t] == b[t]
    ensures a == b
  {
  }

  /**
   * A workbook opened with `load_workbook`: the sheets in memory, and what
   * the file it was loaded from holds, which only `save` changes.
   */
  class Workbook {
    var sheets: Book
    var saved: Book

    /** `load_workbook(path)` on a file holding `contents`. */
    constructor Load(contents: Book)
      ensures sheets == contents && saved == contents
    {
      sheets := contents;
      saved := contents;
    }

    /** `wb[from].title = to`. */
    method Retitle(from: string, to: string)
      requires from in sheets && to !in sheets
      modifies this
      ensures sheets == Retitled(old(sheets), from, to) && saved == old(saved)
    {
      sheets := (sheets - {from})[to := sheets[from]];
    }

    /** `wb[title][c] = v`. */
    method SetCell(title: string, c: CellRef, v: Value)
      requires title in sheets
      modifies this
      ensures sheets == WithCell(old(sheets), title, c, v) && saved == old(saved)
    {
      sheets := sheets[title := sheets[title][c := v]];
    }

    /** `wb.remove(wb[title])`. */
    method Remove(title: string)
      requires title in sheets
      modifies this
      ensures sheets == old(sheets) - {title} && saved == old(saved)
    {
      sheets := sheets - {title};
    }

    /** `wb.save(path)`: the file now holds exactly what is in memory. */
    method Save()
      modifies this
      ensures saved == sheets && sheets == old(sheets)
    {
      saved := sheets;
    }

    /** `wb = load_workbook(path)` again: memory now holds what the file holds. */
    method Reload()
      modifies this
      ensures sheets == saved && saved == old(saved)
    {
      sheets := saved;
    }
  }
}
