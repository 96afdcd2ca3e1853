/** The spreadsheet side: worksheets as append-only lists of positional rows,
    the rows the three entry forms append, and how the dashboard reads them back. */
module Forms {
  import opened Records
  import opened Seqs
  import opened Text
  import opened Flock
  import opened Dashboard

  datatype Option<T> = None | Some(value: T)

  /** One spreadsheet cell. Dates are written as dates, money in cents. */
  datatype Cell = TextCell(text: string) | NumberCell(number: int) | DateCell(day: Date)

  /** A worksheet of the farm's spreadsheet: its rows in insertion order. */
  class Worksheet {
    const title: string
    var rows: seq<seq<Cell>>

    /** A worksheet holding `rows` as fetched. */
    constructor (title: string, rows: seq<seq<Cell>>)
      ensures this.title == title && this.rows == rows
    {
      this.title := title;
      this.rows := rows;
    }

    /** Appends `row` at the end of the sheet; `accepted` is the store's answer,
        and a rejected append leaves the sheet as it was. */
    method AppendRow(row: seq<Cell>, accepted: bool) returns (saved: bool)
      modifies this
      ensures saved == accepted
      ensures rows == if accepted then old(rows) + [row] else old(rows)
    {
      saved := accepted;
      if accepted {
        rows := rows + [row];
      }
    }
  }

  /** Reads every row of a sheet with `parse`; one unreadable row fails the whole table. */
  function ParseTable<T>(rows: seq<seq<Cell>>, parse: seq<Cell> -> Option<T>): (table: Option<seq<T>>)
    ensures table.Some? <==> forall i :: 0 <= i < |rows| ==> parse(rows[i]).Some?
    ensures table.Some? ==> |table.value| == |rows|
    ensures table.Some? ==> forall i :: 0 <= i < |rows| ==> parse(rows[i]) == Some(table.value[i])
  {
    if rows == [] then Some([])
    else
      var rest := ParseTable(rows[1..], parse);
      if parse(rows[0]).Some? && rest.Some? then
        Some([parse(rows[0]).value] + rest.value)
      else
        None
  }

  /** Appending a readable row to a readable sheet appends its record to the table. */
  lemma ParseTableAppend<T>(rows: seq<seq<Cell>>, row: seq<Cell>, parse: seq<Cell> -> Option<T>)
    requires ParseTable(rows, parse).Some? && parse(row).Some?
    ensures ParseTable(rows + [row], parse) == Some(ParseTable(rows, parse).value + [parse(row).value])
  {
    var table := ParseTable(rows + [row], parse);
    assert forall i :: 0 <= i < |rows + [row]| ==> parse((rows + [row])[i]).Some?;
    assert table.value == ParseTable(rows, parse).value + [parse(row).value];
  }

  /** The cell in column `i` of a fetched row; the store pads a short row with
      empty text. */
  function CellAt(row: seq<Cell>, i: nat): Cell
  {
    if i < |row| then row[i] else TextCell("")
  }

  /** The text of a cell a substring test is applied to: a date cell is fetched
      as its formatted date, which mentions no flock action, so it is read as
      text that mentions none. */
  function ActionText(c: Cell): string
  {
    if c.TextCell? then c.text else ""
  }

  // The Daily_Log sheet: Date, Eggs_Collected, Feed bags opened, Notes.
  // The dashboard reads Date and Eggs_Collected.

  /** Reads what the dashboard uses of a Daily_Log row: a date and a number of eggs. */
  function ParseDailyRow(row: seq<Cell>): (r: Option<EggCount>)
    ensures r.Some? <==> CellAt(row, 0).DateCell? && CellAt(row, 1).NumberCell?
    ensures r.Some? ==> CellAt(row, 0) == DateCell(r.value.date) && CellAt(row, 1) == NumberCell(r.value.eggs)
  {
    if CellAt(row, 0).DateCell? && CellAt(row, 1).NumberCell? then
      Some(EggCount(CellAt(row, 0).day, CellAt(row, 1).number))
    else
      None
  }

  /** The row the daily-log form appends; the dashboard reads back its date and eggs. */
  function DailyRow(e: DailyEntry): (row: seq<Cell>)
    ensures |row| == 4 && row[0] == DateCell(e.date)
    ensures row[2] == NumberCell(e.feedBags) && row[3] == TextCell(e.notes)
    ensures ParseDailyRow(row) == Some(EggCountOf(e))
  {
    [DateCell(e.date), NumberCell(e.eggs), NumberCell(e.feedBags), TextCell(e.notes)]
  }

  // The Sales sheet: Date, Customer, Dozens, Total_Price, Status.
  // The dashboard reads Date and Total_Price.

  /** Reads what the dashboard uses of a Sales row: a date and a total price. */
  function ParseSaleRow(row: seq<Cell>): (r: Option<SaleAmount>)
    ensures r.Some? <==> CellAt(row, 0).DateCell? && CellAt(row, 3).NumberCell?
    ensures r.Some? ==> CellAt(row, 0) == DateCell(r.value.date) && CellAt(row, 3) == NumberCell(r.value.price)
  {
    if CellAt(row, 0).DateCell? && CellAt(row, 3).NumberCell? then
      Some(SaleAmount(CellAt(row, 0).day, CellAt(row, 3).number))
    else
      None
  }

  /** The row the sales form appends; the dashboard reads back its date and price. */
  function SaleRow(e: SaleEntry): (row: seq<Cell>)
    ensures |row| == 5 && row[0] == DateCell(e.date) && row[3] == NumberCell(e.price)
    ensures row[1] == TextCell(e.customer) && row[2] == NumberCell(e.dozens)
    ensures row[4] == TextCell(StatusLabel(e.status))
    ensures ParseSaleRow(row) == Some(SaleAmountOf(e))
  {
    [DateCell(e.date), TextCell(e.customer), NumberCell(e.dozens), NumberCell(e.price),
     TextCell(StatusLabel(e.status))]
  }

  // The Flock sheet: Date, Action, Quantity, Reason.
  // The dashboard reads Action, and Quantity only on a row it counts.

  /** Reads what the flock loop uses of a Flock row. A number in the Action column
      fails the substring test; a counted row needs a number in the Quantity column,
      since the loop adds or subtracts it. A row that is not counted never has its
      Quantity read: a cell there that is not a number is recorded as 0. */
  function ParseFlockRow(row: seq<Cell>): (r: Option<FlockChange>)
    ensures r.Some? <==> !CellAt(row, 1).NumberCell?
                         && (IsCounted(FlockChange(ActionText(CellAt(row, 1)), 0)) ==> CellAt(row, 2).NumberCell?)
    ensures r.Some? ==> r.value.action == ActionText(CellAt(row, 1))
    ensures r.Some? && IsCounted(r.value) ==> CellAt(row, 2) == NumberCell(r.value.quantity)
    ensures r.Some? && !IsCounted(r.value) ==> Effect(r.value) == 0
  {
    var action, quantity := CellAt(row, 1), CellAt(row, 2);
    if action.NumberCell? then None
    else
      var text := ActionText(action);
      if IsCounted(FlockChange(text, 0)) then
        if quantity.NumberCell? then Some(FlockChange(text, quantity.number)) else None
      else
        Some(FlockChange(text, if quantity.NumberCell? then quantity.number else 0))
  }

  /** The row the flock form appends; the dashboard reads back its action and quantity. */
  function FlockRow(e: FlockEntry): (row: seq<Cell>)
    ensures |row| == 4 && row[0] == DateCell(e.date) && row[3] == TextCell(e.reason)
    ensures row[1] == TextCell(e.action) && row[2] == NumberCell(e.quantity)
    ensures ParseFlockRow(row) == Some(FlockChangeOf(e))
  {
    [DateCell(e.date), TextCell(e.action), NumberCell(e.quantity), TextCell(e.reason)]
  }

  /** The record the flock form saves: the date, the chosen action's label, the
      quantity and the reason. */
  function FormEntry(date: Date, action: FlockAction, quantity: int, reason: string): (e: FlockEntry)
    ensures FlockChangeOf(e) == FormChange(action, quantity)
    ensures e.date == date && e.reason == reason
  {
    FlockEntry(date, ActionLabel(action), quantity, reason)
  }

  /** The daily-log form: its number inputs accept no value below 0. */
  method SubmitDailyLog(ws: Worksheet, date: Date, eggs: int, feed: int, notes: string, accepted: bool)
    returns (saved: bool)
    requires eggs >= 0 && feed >= 0
    modifies ws
    ensures saved == accepted
    ensures ws.rows == if accepted then old(ws.rows) + [DailyRow(DailyEntry(date, eggs, feed, notes))]
                       else old(ws.rows)
  {
    var row := DailyRow(DailyEntry(date, eggs, feed, notes));
    saved := ws.AppendRow(row, accepted);
  }

  /** The sales form: at least one dozen, a price of at least 0. */
  method SubmitSale(ws: Worksheet, date: Date, customer: string, dozens: int, price: int,
                    status: PaymentStatus, accepted: bool)
    returns (saved: bool)
    requires dozens >= 1 && price >= 0
    modifies ws
    ensures saved == accepted
    ensures ws.rows == if accepted then old(ws.rows) + [SaleRow(SaleEntry(date, customer, dozens, price, status))]
                       else old(ws.rows)
  {
    var row := SaleRow(SaleEntry(date, customer, dozens, price, status));
    saved := ws.AppendRow(row, accepted);
  }

  /** The flock form: one of its two actions and a quantity of at least 1. */
  method SubmitFlockChange(ws: Worksheet, date: Date, action: FlockAction, quantity: int, reason: string,
                           accepted: bool)
    returns (saved: bool)
    requires quantity >= 1
    modifies ws
    ensures saved == accepted
    ensures ws.rows == if accepted then old(ws.rows) + [FlockRow(FormEntry(date, action, quantity, reason))]
                       else old(ws.rows)
  {
    var row := FlockRow(FormEntry(date, action, quantity, reason));
    saved := ws.AppendRow(row, accepted);
  }

  /** The dashboard's flock size: fetch the Flock sheet and fold over it;
      a sheet with an unreadable row gives no figure. */
  method DashboardFlockSize(ws: Worksheet) returns (size: Option<int>)
    ensures size.Some? <==> ParseTable(ws.rows, ParseFlockRow).Some?
    ensures size.Some? ==> size.value == FlockSize(ParseTable(ws.rows, ParseFlockRow).value)
  {
    var flockData := ParseTable(ws.rows, ParseFlockRow);
    if flockData.Some? {
      var n := CurrentFlockSize(flockData.value);
      size := Some(n);
    } else {
      size := None;
    }
  }

  /** A saved flock-form row moves the flock size the dashboard shows by
      exactly its quantity: up for added birds, down for removed birds. */
  lemma FlockSubmissionMovesFlockSize(rows: seq<seq<Cell>>, date: Date, action: FlockAction,
                                      quantity: int, reason: string)
    requires quantity >= 1
    requires ParseTable(rows, ParseFlockRow).Some?
    ensures ParseTable(rows + [FlockRow(FormEntry(date, action, quantity, reason))], ParseFlockRow).Some?
    ensures FlockSize(ParseTable(rows + [FlockRow(FormEntry(date, action, quantity, reason))], ParseFlockRow).value)
         == FlockSize(ParseTable(rows, ParseFlockRow).value) + (if action == AddBirds then quantity else -quantity)
  {
    var e := FormEntry(date, action, quantity, reason);
    ParseTableAppend(rows, FlockRow(e), ParseFlockRow);
    FormChangeCounted(ParseTable(rows, ParseFlockRow).value, action, quantity);
  }

  /** A saved daily-log row adds exactly its eggs to the dashboard's total. */
  lemma DailySubmissionAddsEggs(rows: seq<seq<Cell>>, e: DailyEntry)
    requires ParseTable(rows, ParseDailyRow).Some?
    ensures ParseTable(rows + [DailyRow(e)], ParseDailyRow).Some?
    ensures TotalEggs(ParseTable(rows + [DailyRow(e)], ParseDailyRow).value)
         == TotalEggs(ParseTable(rows, ParseDailyRow).value) + e.eggs
  {
    ParseTableAppend(rows, DailyRow(e), ParseDailyRow);
    LoggedDayAddsEggs(ParseTable(rows, ParseDailyRow).value, EggCountOf(e));
  }

  /** A saved sale adds exactly its price to the dashboard's revenue. */
  lemma SaleSubmissionAddsRevenue(rows: seq<seq<Cell>>, e: SaleEntry)
    requires ParseTable(rows, ParseSaleRow).Some?
    ensures ParseTable(rows + [SaleRow(e)], ParseSaleRow).Some?
    ensures TotalRevenue(ParseTable(rows + [SaleRow(e)], ParseSaleRow).value)
         == TotalRevenue(ParseTable(rows, ParseSaleRow).value) + e.price
  {
    ParseTableAppend(rows, SaleRow(e), ParseSaleRow);
    RecordedSaleAddsRevenue(ParseTable(rows, ParseSaleRow).value, SaleAmountOf(e));
  }

  /** A sheet with an added row and a row whose action is neither adding nor
      removing, its Quantity left blank, shows a flock of 5. */
  lemma ExampleSheetWithSkippedRow(d1: Date, d2: Date)
    ensures var rows := [[DateCell(d1), TextCell("Add Birds (+)"), NumberCell(5), TextCell("")],
                         [DateCell(d2), TextCell("Moved to new coop"), TextCell(""), TextCell("")]];
            ParseTable(rows, ParseFlockRow) == Some([FormChange(AddBirds, 5), FlockChange("Moved to new coop", 0)])
            && FlockSize(ParseTable(rows, ParseFlockRow).value) == 5
  {
    var row1 := [DateCell(d1), TextCell("Add Birds (+)"), NumberCell(5), TextCell("")];
    var row2 := [DateCell(d2), TextCell("Moved to new coop"), TextCell(""), TextCell("")];
    AddedRowRead(row1);
    MovedRowSkipped(row2);
    ParseTableOfTwo(row1, row2, ParseFlockRow);
    ExampleSkippedRow(0);
  }

  /** A sheet of two readable rows reads as their two records. */
  lemma ParseTableOfTwo<T>(row1: seq<Cell>, row2: seq<Cell>, parse: seq<Cell> -> Option<T>)
    requires parse(row1).Some? && parse(row2).Some?
    ensures ParseTable([row1, row2], parse) == Some([parse(row1).value, parse(row2).value])
  {
    assert [row2][1..] == [];
    assert ParseTable([], parse) == Some([]);
    assert [parse(row2).value] + [] == [parse(row2).value];
    assert ParseTable([row2], parse) == Some([parse(row2).value]);
    assert [row1, row2][1..] == [row2];
    assert [parse(row1).value] + [parse(row2).value] == [parse(row1).value, parse(row2).value];
  }

  /** The add-birds row of the example is read as its label and quantity. */
  lemma AddedRowRead(row: seq<Cell>)
    requires |row| == 4 && row[1] == TextCell("Add Birds (+)") && row[2] == NumberCell(5)
    ensures ParseFlockRow(row) == Some(FormChange(AddBirds, 5))
  {
    ActionLabelsRecognised();
  }

  /** The moved-birds row of the example is read, blank Quantity and all, as a row
      that is not counted. */
  lemma MovedRowSkipped(row: seq<Cell>)
    requires |row| == 4 && row[1] == TextCell("Moved to new coop") && row[2] == TextCell("")
    ensures ParseFlockRow(row) == Some(FlockChange("Moved to new coop", 0))
  {
    MovedNotCounted(0);
  }

  /** An added-birds row with a blank Quantity leaves the sheet without a flock figure. */
  lemma ExampleBlankAddQuantity(d: Date)
    ensures ParseFlockRow([DateCell(d), TextCell("Add Birds (+)"), TextCell(""), TextCell("")]) == None
  {
    ActionLabelsRecognised();
  }
}
