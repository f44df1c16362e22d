/**
 * The Google Sheets client: reading the article and the search query from
 * cells A1 and B1, and writing one result row (time, article, position)
 * below a header row that is added when the sheet appears to lack one.
 *
 * The remote spreadsheet is modelled in memory as the rows of columns A..C
 * that a values().get of range A:C returns, in order, each a list of cell
 * texts. A failed API call is an input saying which call raised.
 */
module Sheets {
  import opened Wrappers

  /** The cell texts of one sheet row, from column A on. */
  type Row = seq<string>

  const TimeHeading: string := "Время"

  /** The header row the client writes to A2:C2. */
  const HeaderRow: Row := ["Время", "Артикул", "Позиция"]

  const HeaderRowNumber: nat := 2

  /** What is written in the position column: a position, or a text marker. */
  datatype PositionValue = Position(value: nat) | Marker(text: string)

  /** One values().update call: the row number n of range An:Cn and its cells. */
  datatype Update = Update(rowNumber: nat, cells: Row)

  /** Which API call of add_position_data raises, if any. */
  datatype WriteFault = NoFault | ReadFails | HeaderUpdateFails | DataUpdateFails

  /** The updates add_position_data performs, in order, and what it returns. */
  datatype AddResult = AddResult(updates: seq<Update>, ok: bool)

  /** The reply of the A1:B1 read: its 'values' (empty when absent), or the call raised. */
  datatype ConfigReply = Fetched(values: seq<Row>) | FetchRaised

  /** A call of add_position_data, with the fault its API calls run into. */
  datatype Call = Call(timestamp: string, article: string, position: PositionValue, fault: WriteFault)

  // ---------------------------------------------------------------------
  // The sheet as rows
  // ---------------------------------------------------------------------

  /** Cell `column` (0 for A) of row `rowNumber` (1-based), if it holds something. */
  function CellAt(rows: seq<Row>, rowNumber: nat, column: nat): Option<string> {
    if 1 <= rowNumber <= |rows| && column < |rows[rowNumber - 1]| then Some(rows[rowNumber - 1][column])
    else None
  }

  /** Writing row n: an existing row is replaced; past the end, empty rows fill the gap. */
  function SetRow(rows: seq<Row>, rowNumber: nat, cells: Row): (r: seq<Row>)
    requires rowNumber >= 1
    ensures |r| == if rowNumber <= |rows| then |rows| else rowNumber
    ensures r[rowNumber - 1] == cells
    ensures forall i :: 0 <= i < |rows| && i != rowNumber - 1 ==> r[i] == rows[i]
  {
    if rowNumber <= |rows| then rows[rowNumber - 1 := cells]
    else rows + seq(rowNumber - 1 - |rows|, _ => []) + [cells]
  }

  function ApplyUpdates(rows: seq<Row>, updates: seq<Update>): seq<Row>
    decreases |updates|
  {
    if updates == [] then rows
    else if updates[0].rowNumber == 0 then ApplyUpdates(rows, updates[1..])
    else ApplyUpdates(SetRow(rows, updates[0].rowNumber, updates[0].cells), updates[1..])
  }

  /** A cell value that holds text: present and not the empty string (Python reads it as true). */
  predicate Present(value: Option<string>) {
    value.Some? && value.value != ""
  }

  /** A row as the Sheets API returns it: trailing empty cells are dropped. */
  function DropTrailingEmpty(cells: Row): Row
    decreases |cells|
  {
    if |cells| > 0 && cells[|cells| - 1] == "" then DropTrailingEmpty(cells[..|cells| - 1]) else cells
  }

  /**
   * What the A1:B1 read returns: the first two cells of row 1 without their
   * trailing empty cells, and no row at all when nothing is left.
   */
  function ConfigRange(rows: seq<Row>): seq<Row> {
    var first := if |rows| == 0 then [] else DropTrailingEmpty(rows[0][..if |rows[0]| < 2 then |rows[0]| else 2]);
    if first == [] then [] else [first]
  }

  /**
   * Cell A1 or B1 as that read shows it: the sheet's cell, when it or a cell
   * after it within A1:B1 holds text, and nothing otherwise.
   */
  function ShownCell(rows: seq<Row>, column: nat): Option<string>
    requires column < 2
  {
    if Present(CellAt(rows, 1, column)) || (column == 0 && Present(CellAt(rows, 1, 1)))
    then CellAt(rows, 1, column) else None
  }

  // ---------------------------------------------------------------------
  // get_config_data
  // ---------------------------------------------------------------------

  /**
   * The (article, query) pair taken from the A1:B1 reply: (None, None) when
   * the call raised or the reply has no rows, else the first and second cell
   * of its first row, each None when the row is too short.
   */
  function ConfigData(reply: ConfigReply): (Option<string>, Option<string>) {
    match reply
    case FetchRaised => (None, None)
    case Fetched(values) =>
      if |values| == 0 then (None, None)
      else
        var row := values[0];
        var article := if |row| > 0 then Some(row[0]) else None;
        var searchQuery := if |row| > 1 then Some(row[1]) else None;
        (article, searchQuery)
  }

  /**
   * Reading the config from a sheet gives cells A1 and B1 as the read shows
   * them; whether each holds text, and its text when it does, is the sheet's.
   */
  lemma ConfigOfSheet(rows: seq<Row>)
    ensures ConfigData(Fetched(ConfigRange(rows))) == (ShownCell(rows, 0), ShownCell(rows, 1))
    ensures Present(ShownCell(rows, 0)) <==> Present(CellAt(rows, 1, 0))
    ensures Present(ShownCell(rows, 1)) <==> Present(CellAt(rows, 1, 1))
    ensures Present(CellAt(rows, 1, 0)) ==> ShownCell(rows, 0) == CellAt(rows, 1, 0)
    ensures Present(CellAt(rows, 1, 1)) ==> ShownCell(rows, 1) == CellAt(rows, 1, 1)
  {
    if |rows| > 0 {
      var cells := rows[0][..if |rows[0]| < 2 then |rows[0]| else 2];
      if |cells| == 2 && cells[1] == "" {
        assert DropTrailingEmpty(cells) == DropTrailingEmpty(cells[..1]);
      }
      if |cells| >= 1 && cells[0] == "" {
        assert DropTrailingEmpty(cells[..1]) == DropTrailingEmpty([]);
      }
    }
  }

  // ---------------------------------------------------------------------
  // add_position_data
  // ---------------------------------------------------------------------

  function CellText(position: PositionValue): string {
    match position
    case Position(n) => DecimalText(n)
    case Marker(text) => text
  }

  /** The decimal digits of n, as the sheet shows a number. */
  function DecimalText(n: nat): string
    decreases n
  {
    if n < 10 then [DigitChar(n)] else DecimalText(n / 10) + [DigitChar(n % 10)]
  }

  function DigitChar(d: nat): char
    requires d < 10
  {
    "0123456789"[d]
  }

  function DataRow(timestamp: string, article: string, position: PositionValue): Row {
    [timestamp, article, CellText(position)]
  }

  /**
   * add_position_data over the rows it reads: with no rows, or one row whose
   * first cell is not the time heading, the header goes to row 2 and the data
   * to row 3; with one row headed by the time heading the data goes to row 3;
   * otherwise to the row after the last. Reading `values[0][0]` of a single
   * empty row raises. Any raising call ends it with False.
   */
  function AddRow(rows: seq<Row>, timestamp: string, article: string, position: PositionValue,
                  fault: WriteFault): AddResult
  {
    if fault.ReadFails? then AddResult([], false)
    else
      var nextRow := |rows| + 1;
      var data := DataRow(timestamp, article, position);
      if nextRow != 1 && |rows| == 1 && |rows[0]| == 0 then AddResult([], false)
      else if nextRow == 1 || (|rows| == 1 && rows[0][0] != TimeHeading) then
        if fault.HeaderUpdateFails? then AddResult([], false)
        else if fault.DataUpdateFails? then AddResult([Update(HeaderRowNumber, HeaderRow)], false)
        else AddResult([Update(HeaderRowNumber, HeaderRow), Update(3, data)], true)
      else
        var next := if nextRow == 2 then 3 else nextRow;
        if fault.DataUpdateFails? then AddResult([], false)
        else AddResult([Update(next, data)], true)
  }

  /** Whether the updates include writing the header row. */
  predicate WritesHeader(updates: seq<Update>) {
    Update(HeaderRowNumber, HeaderRow) in updates
  }

  /** The row number the data goes to, for a sheet of n rows. */
  function DataRowNumber(n: nat): nat {
    if n <= 1 then 3 else n + 1
  }

  /** The sheet looks headerless: no rows, or one row not headed by the time heading. */
  predicate HeaderMissing(rows: seq<Row>) {
    |rows| == 0 || (|rows| == 1 && |rows[0]| > 0 && rows[0][0] != TimeHeading)
  }

  /** A single row with no cells, whose first cell the header test cannot read. */
  predicate LoneEmptyRow(rows: seq<Row>) {
    |rows| == 1 && |rows[0]| == 0
  }

  /** The header is written exactly when it is missing and neither the read nor its own update raises. */
  lemma HeaderWhenMissing(rows: seq<Row>, timestamp: string, article: string, position: PositionValue,
                          fault: WriteFault)
    ensures WritesHeader(AddRow(rows, timestamp, article, position, fault).updates)
            <==> !fault.ReadFails? && !fault.HeaderUpdateFails? && HeaderMissing(rows)
  {
  }

  /**
   * Every update goes to a row past the ones read, in increasing order, the
   * header (when written) first: no row that was read is overwritten. The
   * call succeeds exactly when the read and the data update do not raise,
   * the header update does not raise when it is made, and the sheet is not a
   * single empty row; then the data row is the last update, at row 3 for
   * a sheet of at most one row and after the last row otherwise.
   */
  lemma RowPlacement(rows: seq<Row>, timestamp: string, article: string, position: PositionValue,
                     fault: WriteFault)
    ensures var r := AddRow(rows, timestamp, article, position, fault);
            && (forall i :: 0 <= i < |r.updates| ==> r.updates[i].rowNumber > |rows|)
            && (forall i, j :: 0 <= i < j < |r.updates| ==> r.updates[i].rowNumber < r.updates[j].rowNumber)
            && (r.ok <==> (&& !fault.ReadFails? && !fault.DataUpdateFails? && !LoneEmptyRow(rows)
                           && (HeaderMissing(rows) ==> !fault.HeaderUpdateFails?)))
            && (r.ok ==> r.updates[|r.updates| - 1]
                         == Update(DataRowNumber(|rows|), DataRow(timestamp, article, position)))
            && (WritesHeader(r.updates) ==> r.updates[0] == Update(HeaderRowNumber, HeaderRow))
  {
  }

  // ---------------------------------------------------------------------
  // What the updates do to the sheet
  // ---------------------------------------------------------------------

  /** Updates that all go past the current rows, in increasing order, only extend the sheet. */
  lemma {:induction false} AppendingUpdates(rows: seq<Row>, updates: seq<Update>)
    requires forall i :: 0 <= i < |updates| ==> updates[i].rowNumber > |rows|
    requires forall i, j :: 0 <= i < j < |updates| ==> updates[i].rowNumber < updates[j].rowNumber
    ensures var after := ApplyUpdates(rows, updates);
            && rows <= after
            && (updates != [] ==> |after| == updates[|updates| - 1].rowNumber)
            && (forall i :: 0 <= i < |updates| ==> after[updates[i].rowNumber - 1] == updates[i].cells)
    decreases |updates|
  {
    if updates != [] {
      var u := updates[0];
      var next := SetRow(rows, u.rowNumber, u.cells);
      assert rows <= next;
      assert |next| == u.rowNumber;
      AppendingUpdates(next, updates[1..]);
      var after := ApplyUpdates(next, updates[1..]);
      assert after == ApplyUpdates(rows, updates);
      forall i | 0 <= i < |updates|
        ensures after[updates[i].rowNumber - 1] == updates[i].cells
      {
        if i > 0 {
          assert updates[i] == updates[1..][i - 1];
        } else {
          assert next <= after;
        }
      }
    }
  }

  /**
   * One call of add_position_data never changes a row it read; after a
   * successful call the sheet has at least three rows and the data row holds
   * (time, article, position).
   */
  lemma AddRowAppendsOnly(rows: seq<Row>, timestamp: string, article: string, position: PositionValue,
                          fault: WriteFault)
    ensures var r := AddRow(rows, timestamp, article, position, fault);
            var after := ApplyUpdates(rows, r.updates);
            && rows <= after
            && (r.ok ==> |after| == DataRowNumber(|rows|) && after[DataRowNumber(|rows|) - 1] == DataRow(timestamp, article, position))
            && (WritesHeader(r.updates) ==> |after| >= HeaderRowNumber && after[HeaderRowNumber - 1] == HeaderRow)
  {
    var r := AddRow(rows, timestamp, article, position, fault);
    RowPlacement(rows, timestamp, article, position, fault);
    AppendingUpdates(rows, r.updates);
    if r.ok {
      assert |ApplyUpdates(rows, r.updates)| == DataRowNumber(|rows|);
    }
    if WritesHeader(r.updates) {
      var k :| 0 <= k < |r.updates| && r.updates[k] == Update(HeaderRowNumber, HeaderRow);
    }
  }

  /** Writing a result row never disturbs the article and query read from A1 and B1. */
  lemma ConfigSurvivesAddRow(rows: seq<Row>, timestamp: string, article: string, position: PositionValue,
                             fault: WriteFault)
    ensures var after := ApplyUpdates(rows, AddRow(rows, timestamp, article, position, fault).updates);
            ConfigData(Fetched(ConfigRange(after))) == ConfigData(Fetched(ConfigRange(rows)))
  {
    var after := ApplyUpdates(rows, AddRow(rows, timestamp, article, position, fault).updates);
    AddRowAppendsOnly(rows, timestamp, article, position, fault);
    ConfigOfSheet(rows);
    ConfigOfSheet(after);
    if |rows| == 0 && |after| > 0 {
      // The only update past an empty sheet that reaches row 1 would be row 1 itself; none is.
      RowPlacement(rows, timestamp, article, position, fault);
      assert after[0] == [] by {
        var r := AddRow(rows, timestamp, article, position, fault);
        assert r.updates[0].rowNumber >= 2;
        SetRowPads(rows, r.updates[0].rowNumber, r.updates[0].cells);
        AppendingUpdates(SetRow(rows, r.updates[0].rowNumber, r.updates[0].cells), r.updates[1..]);
      }
    }
  }

  lemma SetRowPads(rows: seq<Row>, rowNumber: nat, cells: Row)
    requires |rows| < rowNumber - 1
    ensures forall i :: |rows| <= i < rowNumber - 1 ==> SetRow(rows, rowNumber, cells)[i] == []
  {
  }

  // ---------------------------------------------------------------------
  // Repeated calls
  // ---------------------------------------------------------------------

  /** The sheet after a sequence of calls. */
  function AfterCalls(rows: seq<Row>, calls: seq<Call>): seq<Row>
    decreases |calls|
  {
    if calls == [] then rows
    else
      var c := calls[0];
      AfterCalls(ApplyUpdates(rows, AddRow(rows, c.timestamp, c.article, c.position, c.fault).updates), calls[1..])
  }

  /** How many of the calls write the header row. */
  function HeaderWrites(rows: seq<Row>, calls: seq<Call>): nat
    decreases |calls|
  {
    if calls == [] then 0
    else
      var c := calls[0];
      var r := AddRow(rows, c.timestamp, c.article, c.position, c.fault);
      (if WritesHeader(r.updates) then 1 else 0) + HeaderWrites(ApplyUpdates(rows, r.updates), calls[1..])
  }

  lemma {:induction false} NoHeaderOnceTwoRows(rows: seq<Row>, calls: seq<Call>)
    requires |rows| >= 2
    ensures HeaderWrites(rows, calls) == 0
    decreases |calls|
  {
    if calls != [] {
      var c := calls[0];
      var r := AddRow(rows, c.timestamp, c.article, c.position, c.fault);
      HeaderWhenMissing(rows, c.timestamp, c.article, c.position, c.fault);
      AddRowAppendsOnly(rows, c.timestamp, c.article, c.position, c.fault);
      NoHeaderOnceTwoRows(ApplyUpdates(rows, r.updates), calls[1..]);
    }
  }

  /**
   * However many times results are written, the header row is written at
   * most once, and never when the sheet already has two or more rows.
   */
  lemma {:induction false} HeaderAtMostOnce(rows: seq<Row>, calls: seq<Call>)
    ensures HeaderWrites(rows, calls) <= 1
    ensures |rows| >= 2 ==> HeaderWrites(rows, calls) == 0
    decreases |calls|
  {
    if |rows| >= 2 {
      NoHeaderOnceTwoRows(rows, calls);
    } else if calls != [] {
      var c := calls[0];
      var r := AddRow(rows, c.timestamp, c.article, c.position, c.fault);
      var after := ApplyUpdates(rows, r.updates);
      AddRowAppendsOnly(rows, c.timestamp, c.article, c.position, c.fault);
      if WritesHeader(r.updates) {
        NoHeaderOnceTwoRows(after, calls[1..]);
      } else {
        HeaderAtMostOnce(after, calls[1..]);
      }
    }
  }

  /** However many times results are written, every row present at the start stays as it was. */
  lemma {:induction false} CallsAppendOnly(rows: seq<Row>, calls: seq<Call>)
    ensures rows <= AfterCalls(rows, calls)
    decreases |calls|
  {
    if calls != [] {
      var c := calls[0];
      var after := ApplyUpdates(rows, AddRow(rows, c.timestamp, c.article, c.position, c.fault).updates);
      AddRowAppendsOnly(rows, c.timestamp, c.article, c.position, c.fault);
      CallsAppendOnly(after, calls[1..]);
    }
  }

  // ---------------------------------------------------------------------
  // The objects
  // ---------------------------------------------------------------------

  /** In-memory stand-in for the remote spreadsheet, with the history of updates applied to it. */
  class Spreadsheet {
    var rows: seq<Row>
    var history: seq<Update>

    constructor (rows: seq<Row>)
      ensures this.rows == rows && history == []
    {
      this.rows := rows;
      history := [];
    }

    /** values().update of range An:Cn. */
    method UpdateRange(rowNumber: nat, cells: Row)
      requires rowNumber >= 1
      modifies this
      ensures rows == SetRow(old(rows), rowNumber, cells)
      ensures history == old(history) + [Update(rowNumber, cells)]
    {
      rows := SetRow(rows, rowNumber, cells);
      history := history + [Update(rowNumber, cells)];
    }
  }

  class GoogleSheetsClient {
    const spreadsheetId: string
    const service: Spreadsheet

    constructor (spreadsheetId: string, service: Spreadsheet)
      ensures this.spreadsheetId == spreadsheetId && this.service == service
    {
      this.spreadsheetId := spreadsheetId;
      this.service := service;
    }

    /** The article and query from cells A1 and B1; (None, None) when the read raises. */
    function GetConfigData(readFails: bool): (r: (Option<string>, Option<string>))
      reads service
      ensures readFails ==> r == (None, None)
      ensures !readFails ==> r == (ShownCell(service.rows, 0), ShownCell(service.rows, 1))
    {
      ConfigOfSheet(service.rows);
      ConfigData(if readFails then FetchRaised else Fetched(ConfigRange(service.rows)))
    }

    /**
     * Reads the rows, writes the header when it seems missing, then writes
     * (time, article, position) to the next row; True once both updates ran.
     */
    method AddPositionData(timestamp: string, article: string, position: PositionValue, fault: WriteFault)
      returns (ok: bool)
      modifies service
      ensures var r := AddRow(old(service.rows), timestamp, article, position, fault);
              && ok == r.ok
              && service.history == old(service.history) + r.updates
              && service.rows == ApplyUpdates(old(service.rows), r.updates)
    {
      if fault.ReadFails? {
        return false;
      }
      var values := service.rows;
      var nextRow := |values| + 1;
      var headerMissing := false;
      if nextRow == 1 {
        headerMissing := true;
      } else if |values| == 1 {
        if |values[0]| == 0 {
          return false;
        }
        headerMissing := values[0][0] != TimeHeading;
      }
      ghost var written: seq<Update> := [];
      if headerMissing {
        if fault.HeaderUpdateFails? {
          return false;
        }
        service.UpdateRange(HeaderRowNumber, HeaderRow);
        written := [Update(HeaderRowNumber, HeaderRow)];
        nextRow := 3;
      } else if nextRow == 2 {
        nextRow := 3;
      }
      assert service.rows == ApplyUpdates(values, written);
      if fault.DataUpdateFails? {
        assert AddRow(values, timestamp, article, position, fault).updates == written;
        return false;
      }
      var data := Update(nextRow, DataRow(timestamp, article, position));
      service.UpdateRange(data.rowNumber, data.cells);
      assert ApplyUpdates(values, written + [data]) == ApplyUpdates(ApplyUpdates(values, written), [data]) by {
        if written != [] {
          assert (written + [data])[1..] == [data];
        }
      }
      assert AddRow(values, timestamp, article, position, fault).updates == written + [data];
      assert ApplyUpdates(SetRow(ApplyUpdates(values, written), data.rowNumber, data.cells), []) == service.rows;
      assert ApplyUpdates(ApplyUpdates(values, written), [data]) == service.rows;
      ok := true;
    }
  }
}
