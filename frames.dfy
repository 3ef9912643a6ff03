/** Tabular input as the pipeline sees it: a table is an ordered list of
    column names and a list of rows, each row mapping column names to cells.
    This stands for the data frames the billing exports are read into. */
module Frames {

  datatype Option<T> = None | Some(value: T)

  datatype Result<T, E> = Ok(value: T) | Err(error: E)

  /** A cell of a raw table: a number, a piece of text, or missing (NaN). */
  datatype Cell = Num(n: real) | Text(s: string) | Empty

  type Row = map<string, Cell>

  datatype Table = Table(columns: seq<string>, rows: seq<Row>)

  /** The cell of row `r` in column `c`; a row without that column reads as missing. */
  function Get(r: Row, c: string): Cell
  {
    if c in r then r[c] else Empty
  }

  /** No cell of column `col` holds text. */
  predicate Numeric(rows: seq<Row>, col: string)
  {
    forall i :: 0 <= i < |rows| ==> !Get(rows[i], col).Text?
  }

  /** The cell of `row` in column `col` is not `v`. */
  predicate CellIsNot(row: Row, col: string, v: Cell)
  {
    Get(row, col) != v
  }

  /** The rows whose cell in `col` is not `v`, in order and each as often as
      before: the boolean-mask filter that drops a total row or a row with a
      missing key. */
  function RowsWithout(rows: seq<Row>, col: string, v: Cell): (r: seq<Row>)
    ensures forall row :: row in r <==> row in rows && CellIsNot(row, col, v)
    ensures |r| <= |rows|
  {
    if rows == [] then []
    else (if CellIsNot(rows[0], col, v) then [rows[0]] else []) + RowsWithout(rows[1..], col, v)
  }

  /** Each kept row occurs in the result exactly as often as in the input. */
  lemma {:induction false} RowsWithoutCounts(rows: seq<Row>, col: string, v: Cell)
    ensures forall row :: multiset(RowsWithout(rows, col, v))[row] == (if CellIsNot(row, col, v) then multiset(rows)[row] else 0)
  {
    if rows != [] {
      assert rows == [rows[0]] + rows[1..];
      RowsWithoutCounts(rows[1..], col, v);
    }
  }

  /** The filter distributes over concatenation, so it keeps the order. */
  lemma {:induction false} RowsWithoutAppend(a: seq<Row>, b: seq<Row>, col: string, v: Cell)
    ensures RowsWithout(a + b, col, v) == RowsWithout(a, col, v) + RowsWithout(b, col, v)
  {
    if a == [] {
      assert a + b == b;
    } else {
      assert (a + b)[1..] == a[1..] + b;
      RowsWithoutAppend(a[1..], b, col, v);
    }
  }

  /** A parsed calendar timestamp (time of day is not modelled). */
  datatype Date = Date(year: int, month: int, day: int)

  /** Date parsing is supplied by the caller: `None` means the cell cannot be
      read as a date. */
  type DateParser = Cell -> Option<Date>

  /** The numeric value a sum or a comparison sees in a cell: a missing cell
      counts as nothing, text is not a number. */
  function Amount(c: Cell): (r: Option<real>)
    ensures r.None? <==> c.Text?
    ensures c.Num? ==> r == Some(c.n)
    ensures c.Empty? ==> r == Some(0.0)
  {
    match c
    case Num(v) => Some(v)
    case Empty => Some(0.0)
    case Text(_) => None
  }

  predicate StartsWith(s: string, prefix: string)
  {
    |prefix| <= |s| && s[..|prefix|] == prefix
  }

  predicate EndsWith(s: string, suffix: string)
  {
    |suffix| <= |s| && s[|s| - |suffix|..] == suffix
  }

  /** `sub` occurs somewhere in `s`. */
  predicate Contains(s: string, sub: string)
    decreases |s|
  {
    StartsWith(s, sub) || (|s| > 0 && Contains(s[1..], sub))
  }

  /** Lower-casing of the ASCII letters A to Z; every other character is kept. */
  function Lower(s: string): (r: string)
    ensures |r| == |s|
    ensures forall i :: 0 <= i < |s| ==>
      r[i] == if 'A' <= s[i] <= 'Z' then (s[i] as int + 32) as char else s[i]
  {
    seq(|s|, i requires 0 <= i < |s| =>
      if 'A' <= s[i] <= 'Z' then (s[i] as int + 32) as char else s[i])
  }

  /** The position of the first element of `xs` that satisfies `p`, if any. */
  function FirstIndex(xs: seq<string>, p: string -> bool): (r: Option<nat>)
    ensures r.None? <==> forall i :: 0 <= i < |xs| ==> !p(xs[i])
    ensures r.Some? ==> r.value < |xs| && p(xs[r.value]) &&
                        forall j :: 0 <= j < r.value ==> !p(xs[j])
  {
    if xs == [] then None
    else if p(xs[0]) then Some(0)
    else
      match FirstIndex(xs[1..], p)
      case None => None
      case Some(k) => Some(k + 1)
  }

  /** The elements of `xs` that satisfy `p`, in order and each as often as in `xs`. */
  function Filter(xs: seq<string>, p: string -> bool): (r: seq<string>)
    ensures forall x :: x in r <==> x in xs && p(x)
    ensures |r| <= |xs|
  {
    if xs == [] then []
    else (if p(xs[0]) then [xs[0]] else []) + Filter(xs[1..], p)
  }

  /** Each kept element occurs in the result exactly as often as in `xs`. */
  lemma {:induction false} FilterCounts(xs: seq<string>, p: string -> bool)
    ensures forall x :: multiset(Filter(xs, p))[x] == if p(x) then multiset(xs)[x] else 0
  {
    if xs != [] {
      assert xs == [xs[0]] + xs[1..];
      FilterCounts(xs[1..], p);
    }
  }

  /** The filter distributes over concatenation, so it keeps the order. */
  lemma {:induction false} FilterAppend(xs: seq<string>, ys: seq<string>, p: string -> bool)
    ensures Filter(xs + ys, p) == Filter(xs, p) + Filter(ys, p)
  {
    if xs == [] {
      assert xs + ys == ys;
    } else {
      assert (xs + ys)[1..] == xs[1..] + ys;
      FilterAppend(xs[1..], ys, p);
    }
  }
}
