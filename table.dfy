/** The tabular values the core passes around: a cell of a pandas frame or
    of a record dictionary, a row as a dictionary from column name to cell,
    and a frame as a set of columns with its rows. */
module Table {

  /** A cell: a string, a number, pandas' NaN, or Python's None. */
  datatype Cell = Text(s: string) | Number(v: real) | NaN | Null

  /** A record, as `df.to_dict(orient='records')` gives it. */
  type Row = map<string, Cell>

  /** A frame. Column order is not kept: every consumer selects columns
      by name. */
  datatype Frame = Frame(columns: set<string>, rows: seq<Row>)

  /** Every row of a frame has exactly the frame's columns. */
  predicate WellFormed(f: Frame) {
    forall i :: 0 <= i < |f.rows| ==> f.rows[i].Keys == f.columns
  }

  /** What pandas' `isna` reports as missing. */
  predicate IsMissing(c: Cell) {
    c.NaN? || c.Null?
  }

  /** `Series.fillna(fill)` on one cell. */
  function FillMissing(c: Cell, fill: Cell): (r: Cell)
    ensures IsMissing(c) ==> r == fill
    ensures !IsMissing(c) ==> r == c
  {
    if IsMissing(c) then fill else c
  }

  /** `row.get(key, default)`: a key that is present yields its cell even
      when that cell is missing. */
  function Get(row: Row, key: string, default: Cell): (r: Cell)
    ensures key in row ==> r == row[key]
    ensures key !in row ==> r == default
  {
    if key in row then row[key] else default
  }

  /** Python's `str(cell)`; how a float prints is left to `showNumber`. */
  function Str(c: Cell, showNumber: real -> string): string {
    match c
    case Text(s) => s
    case Number(v) => showNumber(v)
    case NaN => "nan"
    case Null => "None"
  }
}
