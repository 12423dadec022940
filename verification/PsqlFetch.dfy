/**
Fetching a result set window by window: each call copies the next rows into the
buffer, over what the call before left there.
*/
module PsqlFetch {
  import opened Wrappers
  import opened Arithmetic
  import opened PsqlCells

  /** A row as the server sent it; no text is SQL NULL. */
  type Row = seq<Option<string>>

  /** One cell of the result buffer: its storage, zero when fresh, and its length or null flag. */
  datatype Slot = Slot(value: Option<Cell>, indicator: int)

  type Window = seq<seq<Slot>>

  const NULL_DATA := -1
  const FRESH := Slot(None, 0)

  predicate IsString(t: ColumnType) {
    t.CString? || t.BString?
  }

  function Length(c: Cell): nat {
    match c
    case TextCell(text) => |text|
    case BytesCell(bytes) => |bytes|
    case _ => 0
  }

  /** The value is shown as null: it is, or it cannot be converted. */
  predicate Nulled(t: ColumnType, text: Option<string>) {
    text.None? || Store(t, text.value).None?
  }

  /** The body of the inner loop of fetch(): only strings write their indicator on success. */
  function StoreInto(t: ColumnType, slot: Slot, text: Option<string>): Slot {
    if Nulled(t, text) then slot.(indicator := NULL_DATA)
    else
      var cell := Store(t, text.value);
      Slot(cell, if IsString(t) then Length(cell.value) else slot.indicator)
  }

  predicate Shaped(columns: seq<ColumnType>, w: Window) {
    forall r | 0 <= r < |w| :: |w[r]| == |columns|
  }

  /** PQgetisnull() and PQgetvalue(): a column the result set does not have is null. */
  function CellAt(row: Row, c: nat): Option<string> {
    if c < |row| then row[c] else None
  }

  function FilledRow(columns: seq<ColumnType>, slots: seq<Slot>, row: Row): (filled: seq<Slot>)
    requires |slots| == |columns|
    ensures |filled| == |columns|
  {
    seq(|columns|, c requires 0 <= c < |columns| => StoreInto(columns[c], slots[c], CellAt(row, c)))
  }

  /** The buffer after `count` source rows from `from` on were copied into it. */
  function Filled(columns: seq<ColumnType>, source: seq<Row>, from: nat, count: nat, w: Window): (filled: Window)
    requires Shaped(columns, w) && from + count <= |source| && count <= |w|
    ensures |filled| == |w| && Shaped(columns, filled)
  {
    seq(|w|, r requires 0 <= r < |w| =>
      if r < count then FilledRow(columns, w[r], source[from + r]) else w[r])
  }

  datatype Error = Resized | NoResultSet | Server(message: string)

  class Query {
    const columns: seq<ColumnType>
    var rows: Option<seq<Row>>
    var nextRow: nat
    var totalRows: nat
    var rowsFetched: nat
    // the result buffer
    var window: Window
    var occupied: nat
    var layout: nat
    var boundLayout: nat

    ghost predicate Valid()
      reads this
    {
      && |window| >= 1 && Shaped(columns, window)
      && (rows.Some? ==> nextRow <= totalRows == |rows.value|)
    }

    constructor (columns: seq<ColumnType>, size: nat)
      ensures Valid() && this.columns == columns && rows.None?
      ensures window == Blank(columns, if size == 0 then 1 else size)
    {
      this.columns := columns;
      rows, nextRow, totalRows, rowsFetched, occupied := None, 0, 0, 0, 0;
      window := Blank(columns, if size == 0 then 1 else size);
      layout, boundLayout := 1, 0;
    }

    /** set_buffer_size(): a buffer of zero rows becomes one of one row; everything in it is new. */
    method SetBufferSize(size: nat)
      requires Valid()
      modifies this
      ensures Valid() && rows == old(rows) && nextRow == old(nextRow) && boundLayout == old(boundLayout)
      ensures window == Blank(columns, if size == 0 then 1 else size) && layout == old(layout) + 1
    {
      window := Blank(columns, if size == 0 then 1 else size);
      layout := layout + 1;
    }

    /** The part of prepare() after the server has answered: only success binds the layout. */
    method Prepare(accepted: bool)
      requires Valid()
      modifies this`boundLayout
      ensures Valid() && boundLayout == if accepted then layout else old(boundLayout)
    {
      if accepted {
        boundLayout := layout;
      }
    }

    /** The part of execute() after the server has answered. */
    method Execute(answer: Result<seq<Row>, string>) returns (r: Result<(), Error>)
      requires Valid()
      modifies this
      ensures Valid() && window == old(window) && layout == old(layout) && boundLayout == old(boundLayout)
      ensures r.Ok? <==> layout == boundLayout && answer.Ok?
      ensures r.Ok? ==> rows == Some(answer.value) && nextRow == 0
      ensures r.Err? ==> rows == old(rows) && nextRow == old(nextRow)
    {
      if layout != boundLayout {
        return Err(Resized);
      }
      if answer.Err? {
        return Err(Server(answer.error));
      }
      totalRows, nextRow, rows := |answer.value|, 0, Some(answer.value);
      return Ok(());
    }

    /** fetch(): the next rows, as many as the buffer holds and the result set still has. */
    method Fetch() returns (r: Result<bool, Error>)
      requires Valid()
      modifies this
      ensures Valid() && rows == old(rows) && layout == old(layout) && boundLayout == old(boundLayout)
      ensures r.Err? <==> layout != boundLayout || rows.None?
      ensures r.Err? ==> nextRow == old(nextRow) && window == old(window)
      ensures r.Ok? ==>
                var count := Min(|rows.value| - old(nextRow), |old(window)|);
                && r.value == (count > 0)
                && nextRow == old(nextRow) + count && occupied == rowsFetched == count
                && window == Filled(columns, rows.value, old(nextRow), count, old(window))
    {
      if layout != boundLayout {
        return Err(Resized);
      }
      if rows.None? {
        return Err(NoResultSet);
      }
      var count := Min(totalRows - nextRow, |window|);
      var n := 0;
      while n < count
        invariant 0 <= n <= count && Valid()
        invariant rows == old(rows) && layout == old(layout) && boundLayout == old(boundLayout)
        invariant nextRow == old(nextRow) && |window| == |old(window)|
        invariant forall i | 0 <= i < n :: window[i] == FilledRow(columns, old(window)[i], rows.value[nextRow + i])
        invariant forall i | n <= i < |window| :: window[i] == old(window)[i]
      {
        CopyRow(n);
        n := n + 1;
      }
      nextRow := nextRow + count;
      rowsFetched := count;
      occupied := count;
      return Ok(count > 0);
    }

    /** The inner loop: one row, column by column. */
    method CopyRow(n: nat)
      requires Valid() && rows.Some? && n < |window| && nextRow + n < |rows.value|
      modifies this`window
      ensures Valid()
      ensures window == old(window)[n := FilledRow(columns, old(window)[n], rows.value[nextRow + n])]
    {
      var row := rows.value[nextRow + n];
      var c := 0;
      while c < |columns|
        invariant 0 <= c <= |columns| && |window| == |old(window)| && Valid()
        invariant forall i | 0 <= i < |window| && i != n :: window[i] == old(window)[i]
        invariant forall i | 0 <= i < c :: window[n][i] == StoreInto(columns[i], old(window)[n][i], CellAt(row, i))
        invariant forall i | c <= i < |columns| :: window[n][i] == old(window)[n][i]
      {
        var slot := StoreInto(columns[c], window[n][c], CellAt(row, c));
        window := window[n := window[n][c := slot]];
        c := c + 1;
      }
      assert window[n] == FilledRow(columns, old(window)[n], row);
    }
  }

  function Blank(columns: seq<ColumnType>, size: nat): (w: Window)
    ensures |w| == size && Shaped(columns, w)
  {
    seq(size, r => seq(|columns|, c => FRESH))
  }
}
