/**
 * The time-series loader of App.py (`load_data` and the two halting checks
 * after it). The provider's answer is an abstract table: column labels,
 * a date index and one row of cells per date.
 */
module Loader {
  import opened Wrappers
  import opened Calendar

  /** One column label of a multi-level header: its level-0 entry and the deeper levels. */
  datatype LabelTuple = LabelTuple(level0: string, deeper: seq<string>)

  /** Column labels: a flat index or a multi-level index (pandas MultiIndex). */
  datatype Columns = Flat(names: seq<string>) | Multi(tuples: seq<LabelTuple>)

  /** A price table as the provider returns it. */
  datatype Table = Table(columns: Columns, index: seq<Date>, cells: seq<seq<real>>)

  /** The provider's reply: a table, or an exception raised while downloading. */
  datatype Download = Fetched(table: Table) | Failed

  /** Why the dashboard stops before showing anything. */
  datatype Halt = NoData | MissingClose(found: seq<string>)

  /** The outcome of the two checks that guard the rest of the script. */
  datatype Gate = Halted(reason: Halt) | Proceed(currentPrice: real)

  const CloseLabel := "Close"

  function Width(c: Columns): nat {
    match c
    case Flat(names) => |names|
    case Multi(tuples) => |tuples|
  }

  /** The labels at level 0, one per column and in column order. */
  function Labels(c: Columns): (r: seq<string>)
    ensures |r| == Width(c)
    ensures c.Flat? ==> r == c.names
    ensures c.Multi? ==> forall i :: 0 <= i < |r| ==> r[i] == c.tuples[i].level0
  {
    match c
    case Flat(names) => names
    case Multi(tuples) => seq(|tuples|, i requires 0 <= i < |tuples| => tuples[i].level0)
  }

  /** Every pandas frame is rectangular: one cell per column in each row. */
  predicate Rectangular(t: Table) {
    |t.cells| == |t.index|
    && forall r :: 0 <= r < |t.cells| ==> |t.cells[r]| == Width(t.columns)
  }

  /** pandas' `DataFrame.empty`: no rows or no columns. */
  function IsEmpty(t: Table): (e: bool)
    requires Rectangular(t)
    ensures e <==> forall r :: 0 <= r < |t.cells| ==> |t.cells[r]| == 0
  {
    assert |t.index| > 0 ==> |t.cells[0]| == Width(t.columns);
    |t.index| == 0 || Width(t.columns) == 0
  }

  /** What a successful load guarantees to the rest of the script. */
  predicate Loaded(t: Table) {
    Rectangular(t) && !IsEmpty(t) && t.columns.Flat?
  }

  /** Position of the first column with the given label, if any. */
  function ColumnIndex(names: seq<string>, name: string): (r: Option<nat>)
    ensures r.None? <==> name !in names
    ensures r.Some? ==> r.value < |names| && names[r.value] == name
    ensures r.Some? ==> forall j :: 0 <= j < r.value ==> names[j] != name
  {
    if |names| == 0 then None
    else if names[0] == name then Some(0)
    else match ColumnIndex(names[1..], name)
      case None => None
      case Some(i) => Some(i + 1)
  }

  /** `df.columns.get_level_values(0)`: each column renamed to its level-0 label. */
  function Flatten(c: Columns): (r: Columns)
    ensures r.Flat?
    ensures Width(r) == Width(c)
    ensures Labels(r) == Labels(c)
    ensures c.Flat? ==> r == c
  {
    Flat(Labels(c))
  }

  /**
   * What `load_data` returns, as a value: nothing for a failed download
   * or an empty frame, otherwise the frame with a flattened header.
   */
  function Normalise(d: Download): (r: Option<Table>)
    requires d.Fetched? ==> Rectangular(d.table)
    ensures r.None? <==> d.Failed? || IsEmpty(d.table)
    ensures r.Some? ==> Loaded(r.value)
    ensures r.Some? ==> r.value.index == d.table.index && r.value.cells == d.table.cells
    ensures r.Some? ==> Labels(r.value.columns) == Labels(d.table.columns)
    ensures r.Some? && d.table.columns.Flat? ==> r.value == d.table
  {
    match d
    case Failed => None
    case Fetched(t) =>
      if IsEmpty(t) then None
      else if t.columns.Multi? then Some(Table(Flatten(t.columns), t.index, t.cells))
      else Some(t)
  }

  /** `df['Close'].iloc[-1]`: the Close cell of the last row. */
  function LastClose(t: Table): (p: real)
    requires Rectangular(t) && |t.index| > 0 && CloseLabel in Labels(t.columns)
    ensures exists c :: 0 <= c < Width(t.columns) && Labels(t.columns)[c] == CloseLabel
                        && p == t.cells[|t.cells| - 1][c]
  {
    var c := ColumnIndex(Labels(t.columns), CloseLabel).value;
    t.cells[|t.cells| - 1][c]
  }

  /** `df.tail(n)`: the last min(n, rows) rows, in their original order. */
  function Tail(t: Table, n: nat): (r: Table)
    requires Rectangular(t)
    ensures Rectangular(r) && r.columns == t.columns
    ensures |r.index| == if n < |t.index| then n else |t.index|
    ensures forall i :: 0 <= i < |r.index| ==>
              r.index[i] == t.index[|t.index| - |r.index| + i]
              && r.cells[i] == t.cells[|t.index| - |r.index| + i]
  {
    var k := if n < |t.index| then n else |t.index|;
    var from := |t.index| - k;
    Table(t.columns, t.index[from..], t.cells[from..])
  }

  /** The daily chart shows the last 60 rows. */
  const DailyRows: nat := 60

  /** The daily view ends on the row the current price is read from. */
  lemma TailKeepsLastClose(t: Table, n: nat)
    requires Rectangular(t) && |t.index| > 0 && CloseLabel in Labels(t.columns) && n > 0
    ensures |Tail(t, n).index| > 0
    ensures LastClose(Tail(t, n)) == LastClose(t)
  {
    var r := Tail(t, n);
    assert r.cells[|r.cells| - 1] == t.cells[|t.cells| - 1];
  }

  /** The pandas frame `load_data` builds and then updates in place. */
  class DataFrame {
    var columns: Columns
    var index: seq<Date>
    var cells: seq<seq<real>>

    function Snapshot(): (t: Table)
      reads this
      ensures t.columns == columns && t.index == index && t.cells == cells
    {
      Table(columns, index, cells)
    }

    constructor (t: Table)
      ensures Snapshot() == t
    {
      columns, index, cells := t.columns, t.index, t.cells;
    }

    /** `df.columns = df.columns.get_level_values(0)`. */
    method FlattenColumns()
      modifies this
      ensures columns == Flatten(old(columns))
      ensures index == old(index) && cells == old(cells)
    {
      columns := Flatten(columns);
    }
  }

  /**
   * `load_data`: null for a failed download or an empty frame; otherwise
   * a new frame whose multi-level header has been flattened in place.
   */
  method LoadData(d: Download) returns (df: DataFrame?)
    requires d.Fetched? ==> Rectangular(d.table)
    ensures df == null <==> Normalise(d).None?
    ensures df != null ==> fresh(df) && Normalise(d) == Some(df.Snapshot())
  {
    if d.Failed? {
      return null;
    }
    var t := d.table;
    if IsEmpty(t) {
      return null;
    }
    df := new DataFrame(t);
    if df.columns.Multi? {
      df.FlattenColumns();
    }
  }

  /**
   * The two checks after `load_data`: stop when there is no frame or no
   * Close column; otherwise read the current price from the last row.
   */
  method CheckLoaded(df: DataFrame?) returns (g: Gate)
    requires df != null ==> Loaded(df.Snapshot())
    ensures g == Halted(NoData) <==> df == null
    ensures g.Halted? && g.reason.MissingClose? <==> df != null && CloseLabel !in df.columns.names
    ensures g.Halted? && g.reason.MissingClose? ==> g.reason.found == df.columns.names
    ensures g.Proceed? ==> df != null && |df.index| > 0 && CloseLabel in df.columns.names
    ensures g.Proceed? ==> g.currentPrice == LastClose(df.Snapshot())
  {
    if df == null {
      return Halted(NoData);
    }
    if CloseLabel !in df.columns.names {
      return Halted(MissingClose(df.columns.names));
    }
    g := Proceed(LastClose(df.Snapshot()));
  }
}
