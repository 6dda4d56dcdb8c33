/**
  The registration recorder (`store_registration`, bot.py:203-220): the
  spreadsheet is a map from worksheet name to its rows; the worksheet is
  named after the event date and gets the header row when it is created.
 */
module Sheets {

  type Row = seq<string>
  type Book = map<string, seq<Row>>

  const Header: Row := ["Ім'я", "Телефон", "Telegram", "Джерело"]

  /** `user_data.get(key)`: a missing value is written as an empty cell. */
  function Cell(userData: map<string, string>, key: string): string {
    if key in userData then userData[key] else ""
  }

  /** Lines 213-218: the data row, in the header's column order. */
  function RowOf(userData: map<string, string>): (row: Row)
    ensures |row| == |Header|
  {
    [Cell(userData, "name"), Cell(userData, "phone"), Cell(userData, "username"), Cell(userData, "source")]
  }

  /** Lines 207-218: the book after recording `row` in the worksheet `name`. */
  function Recorded(book: Book, name: string, row: Row): (r: Book)
    ensures r.Keys == book.Keys + {name}
    ensures forall other :: other in book && other != name ==> r[other] == book[other]
  {
    book[name := (if name in book then book[name] else [Header]) + [row]]
  }

  /** The book after recording each row in turn in the same worksheet. */
  function RecordAll(book: Book, name: string, rows: seq<Row>): Book
    decreases |rows|
  {
    if rows == [] then book else RecordAll(Recorded(book, name, rows[0]), name, rows[1..])
  }

  /**
    A new worksheet holds the header once, followed by every recorded row in
    order; an existing one only gains the rows.
   */
  lemma {:induction false} RecordAllRows(book: Book, name: string, rows: seq<Row>)
    requires rows != []
    ensures name in RecordAll(book, name, rows)
    ensures RecordAll(book, name, rows)[name] ==
      (if name in book then book[name] else [Header]) + rows
    decreases |rows|
  {
    var next := Recorded(book, name, rows[0]);
    if |rows| > 1 {
      RecordAllRows(next, name, rows[1..]);
      assert [rows[0]] + rows[1..] == rows;
    }
  }

  /** Recording in one worksheet leaves every other worksheet unchanged. */
  lemma {:induction false} RecordAllOthers(book: Book, name: string, rows: seq<Row>, other: string)
    requires other != name
    ensures other in RecordAll(book, name, rows) <==> other in book
    ensures other in book ==> RecordAll(book, name, rows)[other] == book[other]
    decreases |rows|
  {
    if rows != [] {
      RecordAllOthers(Recorded(book, name, rows[0]), name, rows[1..], other);
    }
  }

  class Workbook {
    var sheets: Book

    constructor (sheets: Book)
      ensures this.sheets == sheets
    {
      this.sheets := sheets;
    }

    /**
      `store_registration`: the row goes to the worksheet named after the
      event date, which is created with the header first; when the
      spreadsheet service fails nothing is recorded.
     */
    method StoreRegistration(sheetName: string, userData: map<string, string>, serviceOk: bool)
      modifies this
      ensures sheets == if serviceOk then Recorded(old(sheets), sheetName, RowOf(userData)) else old(sheets)
    {
      if serviceOk {
        var rows := if sheetName in sheets then sheets[sheetName] else [Header];
        sheets := sheets[sheetName := rows + [RowOf(userData)]];
      }
    }
  }
}
