/** In-memory tables as the pipeline sees them: a pandas DataFrame is a
    sequence of named, typed columns of equal height, and a numpy array is a
    rectangular grid of cells. */
module Frames {
  import opened Errors

  /** One table cell.  `Missing` is pandas' NaN. */
  datatype Cell = Int(i: int) | Real(r: real) | Text(s: string) | Missing

  /** The dtype tag pandas infers for a column (inference itself is not modelled). */
  datatype Kind = Int64 | Int32 | Float64 | ObjectKind | BoolKind

  datatype Column = Column(name: string, kind: Kind, cells: seq<Cell>)

  predicate DistinctNames(cols: seq<Column>) {
    forall i, j :: 0 <= i < j < |cols| ==> cols[i].name != cols[j].name
  }

  predicate Rectangular(cols: seq<Column>, height: nat) {
    forall i :: 0 <= i < |cols| ==> |cols[i].cells| == height
  }

  datatype Table = Table(columns: seq<Column>, height: nat)

  /** A DataFrame read from CSV: column labels are unique (pandas renames
      repeated headers) and every column has one cell per row. */
  type Frame = t: Table | DistinctNames(t.columns) && Rectangular(t.columns, t.height)
    witness Table([], 0)

  function Names(cols: seq<Column>): (ns: seq<string>)
    ensures |ns| == |cols|
    ensures forall i :: 0 <= i < |cols| ==> ns[i] == cols[i].name
  {
    seq(|cols|, i requires 0 <= i < |cols| => cols[i].name)
  }

  predicate HasColumn(f: Table, name: string) {
    name in Names(f.columns)
  }

  /** Position of the first column carrying `name`. */
  function IndexOf(cols: seq<Column>, name: string): (k: nat)
    requires name in Names(cols)
    ensures k < |cols| && cols[k].name == name
    ensures forall j :: 0 <= j < k ==> cols[j].name != name
  {
    if cols[0].name == name then 0
    else
      assert name in Names(cols[1..]) by {
        var i :| 0 <= i < |cols| && Names(cols)[i] == name;
        assert Names(cols[1..])[i - 1] == name;
      }
      1 + IndexOf(cols[1..], name)
  }

  /** The cells of the column called `name`. */
  function CellsOf(f: Frame, name: string): (cells: seq<Cell>)
    requires HasColumn(f, name)
    ensures |cells| == f.height
  {
    f.columns[IndexOf(f.columns, name)].cells
  }

  /** `df[name]`: the cells of the named column, or a KeyError. */
  function Select(f: Frame, name: string): (r: Result<seq<Cell>>)
    ensures r.Ok? <==> HasColumn(f, name)
    ensures r.Err? ==> r.error == KeyError(name)
    ensures r.Ok? ==> r.value == CellsOf(f, name)
  {
    if HasColumn(f, name) then Ok(CellsOf(f, name))
    else Err(KeyError(name))
  }

  /** With distinct names, the column at position `i` is the one `name` selects. */
  lemma CellsOfPosition(f: Frame, i: nat)
    requires i < |f.columns|
    ensures HasColumn(f, f.columns[i].name) && CellsOf(f, f.columns[i].name) == f.columns[i].cells
  {
    assert Names(f.columns)[i] == f.columns[i].name;
  }

  /** With distinct names, a column with the same name as `f.columns[i]`
      is `f.columns[i]`. */
  lemma IndexOfPosition(f: Frame, i: nat)
    requires i < |f.columns|
    ensures HasColumn(f, f.columns[i].name) && IndexOf(f.columns, f.columns[i].name) == i
  {
    CellsOfPosition(f, i);
  }

  /** A frame whose columns are all columns of `f` selects the same cells as
      `f` does. */
  lemma CellsOfSubset(f: Frame, g: Frame, name: string)
    requires HasColumn(g, name)
    requires forall c :: c in g.columns ==> c in f.columns
    ensures HasColumn(f, name) && CellsOf(g, name) == CellsOf(f, name)
  {
    var c := g.columns[IndexOf(g.columns, name)];
    assert c in g.columns;
    var i :| 0 <= i < |f.columns| && f.columns[i] == c;
    IndexOfPosition(f, i);
  }

  /** `df.drop(columns=[name])`: every other column, in order, or a KeyError. */
  function Drop(f: Frame, name: string): (r: Result<Frame>)
    ensures r.Ok? <==> HasColumn(f, name)
    ensures r.Err? ==> r.error == KeyError(name)
    ensures r.Ok? ==> r.value.height == f.height && !HasColumn(r.value, name)
    ensures r.Ok? ==> |r.value.columns| == |f.columns| - 1
    ensures r.Ok? ==> forall c :: c in f.columns && c.name != name ==> c in r.value.columns
    ensures r.Ok? ==> forall c :: c in r.value.columns ==> c in f.columns
    ensures r.Ok? ==> exists k :: 0 <= k < |f.columns| && f.columns[k].name == name
                                  && r.value.columns == f.columns[..k] + f.columns[k + 1..]
  {
    if !HasColumn(f, name) then Err(KeyError(name))
    else
      var k := IndexOf(f.columns, name);
      var cols := f.columns[..k] + f.columns[k + 1..];
      RemoveAt(f.columns, f.height, k);
      Ok(Table(cols, f.height))
  }

  /** Removing the column of the same name from two equally named column
      lists leaves equally named lists. */
  lemma RemoveSameName(a: seq<Column>, b: seq<Column>, i: nat, j: nat)
    requires Names(a) == Names(b) && DistinctNames(a)
    requires i < |a| && j < |b| && a[i].name == b[j].name
    ensures Names(a[..i] + a[i + 1..]) == Names(b[..j] + b[j + 1..])
  {
    assert Names(a)[j] == b[j].name;
    assert i == j;
    var fa := a[..i] + a[i + 1..];
    var fb := b[..j] + b[j + 1..];
    forall n | 0 <= n < |fa|
      ensures Names(fa)[n] == Names(fb)[n]
    {
      var m := if n < i then n else n + 1;
      assert fa[n] == a[m] && fb[n] == b[m];
      assert Names(a)[m] == Names(b)[m];
    }
  }

  /** Removing the column at `k` keeps the others, in order, and the name
      of column `k` is then gone when names were distinct. */
  lemma RemoveAt(cols: seq<Column>, height: nat, k: nat)
    requires k < |cols| && DistinctNames(cols) && Rectangular(cols, height)
    ensures var rest := cols[..k] + cols[k + 1..];
      && |rest| == |cols| - 1
      && DistinctNames(rest) && Rectangular(rest, height)
      && cols[k].name !in Names(rest)
      && (forall c :: c in cols && c.name != cols[k].name ==> c in rest)
      && (forall c :: c in rest ==> c in cols)
  {
    var rest := cols[..k] + cols[k + 1..];
    assert forall i :: 0 <= i < |rest| ==> rest[i] == cols[if i < k then i else i + 1];
    assert cols[k].name !in Names(rest) by {
      forall i | 0 <= i < |rest|
        ensures Names(rest)[i] != cols[k].name
      {
        assert rest[i] == cols[if i < k then i else i + 1];
      }
    }
    forall c | c in cols && c.name != cols[k].name
      ensures c in rest
    {
      var j :| 0 <= j < |cols| && cols[j] == c;
      assert rest[if j < k then j else j - 1] == c;
    }
  }

  /** Apply `g` to every cell, keeping names, dtype tags and shape. */
  function MapCells(f: Frame, g: Cell -> Cell): (r: Frame)
    ensures r.height == f.height && Names(r.columns) == Names(f.columns)
    ensures forall i :: 0 <= i < |f.columns| ==> r.columns[i].kind == f.columns[i].kind
    ensures forall i, j :: 0 <= i < |f.columns| && 0 <= j < f.height ==>
      r.columns[i].cells[j] == g(f.columns[i].cells[j])
  {
    var cols := seq(|f.columns|, i requires 0 <= i < |f.columns| =>
      Column(f.columns[i].name, f.columns[i].kind,
             seq(f.height, j requires 0 <= j < f.height => g(f.columns[i].cells[j]))));
    assert Names(cols) == Names(f.columns);
    Table(cols, f.height)
  }

  /** Mapping cells maps the cells of every named column. */
  lemma MapCellsSelect(f: Frame, g: Cell -> Cell, name: string)
    requires HasColumn(f, name)
    ensures var r := MapCells(f, g);
      && HasColumn(r, name)
      && forall j :: 0 <= j < f.height ==> CellsOf(r, name)[j] == g(CellsOf(f, name)[j])
  {
    var r := MapCells(f, g);
    var k := IndexOf(f.columns, name);
    assert Names(r.columns)[k] == name;
    IndexOfPosition(r, k);
  }

  /** Mapping cells keeps every column's name and kind, so the same names are
      present before and after. */
  lemma MapCellsColumns(f: Frame, g: Cell -> Cell)
    ensures var r := MapCells(f, g);
      && (forall c :: c in r.columns ==> exists d :: d in f.columns && d.name == c.name && d.kind == c.kind)
      && (forall d :: d in f.columns ==> d.name in Names(r.columns))
      && (forall n :: HasColumn(r, n) <==> HasColumn(f, n))
  {
    var r := MapCells(f, g);
    forall c | c in r.columns
      ensures exists d :: d in f.columns && d.name == c.name && d.kind == c.kind
    {
      var i :| 0 <= i < |r.columns| && r.columns[i] == c;
      assert Names(r.columns)[i] == Names(f.columns)[i];
      assert f.columns[i] in f.columns;
    }
    forall d | d in f.columns
      ensures d.name in Names(r.columns)
    {
      var i :| 0 <= i < |f.columns| && f.columns[i] == d;
      assert Names(r.columns)[i] == d.name;
    }
  }

  /** A numpy array: `rows` of `width` cells each; `width` is kept even when
      there are no rows, because indexing a zero-width array still fails. */
  datatype Grid = Grid(rows: seq<seq<Cell>>, width: nat)

  predicate RectangularGrid(g: Grid) {
    forall i :: 0 <= i < |g.rows| ==> |g.rows[i]| == g.width
  }

  type Matrix = g: Grid | RectangularGrid(g) witness Grid([], 0)
}
