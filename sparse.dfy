/**
 * The sparse path of the triangle encoder (`sparse_out`): the value array
 * read as a (k*v*o) x d matrix, NaN mapped to 0, and only its nonzero cells
 * kept as (row, col) -> value pairs, which are JSON-encoded into a string.
 * Also its reader, which fills a zero grid from those pairs.
 */
module SparseCoo {
  import opened Wrappers
  import opened Json
  import opened Cells

  /** One stored cell of the coordinate matrix. */
  datatype Entry = Entry(row: nat, col: nat, value: real)

  function FlatIndex(e: Entry, cols: nat): nat {
    e.row * cols + e.col
  }

  /** The nonzero cells of z from flat position i on, z read as a matrix
      with `cols` columns, in row-major scan order. */
  function EntriesFrom(z: seq<real>, cols: nat, i: nat): (es: seq<Entry>)
    requires cols > 0 && i <= |z|
    ensures forall j :: 0 <= j < |es| ==>
      es[j].col < cols && i <= FlatIndex(es[j], cols) < |z| &&
      es[j].value != 0.0 && z[FlatIndex(es[j], cols)] == es[j].value
    ensures forall j1, j2 :: 0 <= j1 < j2 < |es| ==> FlatIndex(es[j1], cols) < FlatIndex(es[j2], cols)
    decreases |z| - i
  {
    if i == |z| then []
    else if z[i] != 0.0 then
      var e := Entry(i / cols, i % cols, z[i]);
      assert FlatIndex(e, cols) == i;
      [e] + EntriesFrom(z, cols, i + 1)
    else EntriesFrom(z, cols, i + 1)
  }

  /** `coo_matrix(np.nan_to_num(out.reshape((rows, cols))))`: its row, col
      and data arrays zipped together. */
  function Coo(cells: seq<Cell>, rows: nat, cols: nat): seq<Entry>
    requires |cells| == rows * cols
  {
    if cols == 0 then [] else EntriesFrom(Zeroed(cells), cols, 0)
  }

  /** The `array` field of the sparse path: the dict from "(row, col)" to
      value, itself JSON-encoded into a string. */
  function SparseJson(cells: seq<Cell>, rows: nat, cols: nat): Json
    requires |cells| == rows * cols
  {
    var es := Coo(cells, rows, cols);
    JDoc(JObj(seq(|es|, j requires 0 <= j < |es| => (Coord(es[j].row, es[j].col), JNum(es[j].value)))))
  }

  /** Every entry names a cell inside the matrix whose value is a nonzero
      number, the value stored; no NaN and no zero cell is ever an entry.
      Entries come in strictly increasing row-major order, so no coordinate
      appears twice. */
  lemma CooSound(cells: seq<Cell>, rows: nat, cols: nat)
    requires |cells| == rows * cols
    ensures var es := Coo(cells, rows, cols);
      forall j :: 0 <= j < |es| ==>
        es[j].row < rows && es[j].col < cols && FlatIndex(es[j], cols) < |cells| &&
        es[j].value != 0.0 && cells[FlatIndex(es[j], cols)] == Num(es[j].value)
    ensures var es := Coo(cells, rows, cols);
      forall j1, j2 :: 0 <= j1 < j2 < |es| ==> FlatIndex(es[j1], cols) < FlatIndex(es[j2], cols)
  {
    var es := Coo(cells, rows, cols);
    forall j | 0 <= j < |es|
      ensures es[j].row < rows
    {
      RowBound(es[j].row, es[j].col, rows, cols);
    }
  }

  /** A flat position inside rows * cols lies on one of the rows. */
  lemma RowBound(row: nat, col: nat, rows: nat, cols: nat)
    requires row * cols + col < rows * cols
    ensures row < rows
  {
    assert row * cols < rows * cols;
    assert (rows - row) * cols > 0;
  }

  /** The sparse path keeps exactly the cells that are neither zero nor NaN,
      so when it is chosen it stores fewer than 60 percent of the cells. */
  lemma CooSize(cells: seq<Cell>, rows: nat, cols: nat)
    requires |cells| == rows * cols
    ensures |Coo(cells, rows, cols)| == NonzeroCount(cells)
    ensures UseSparse(cells) ==> 5 * |Coo(cells, rows, cols)| < 3 * |cells|
  {
    CountsPartition(cells);
    if cols > 0 {
      EntriesCount(cells, cols, 0);
      assert cells[0..] == cells;
    } else {
      assert cells == [];
    }
  }

  lemma {:induction false} EntriesCount(cells: seq<Cell>, cols: nat, i: nat)
    requires cols > 0 && i <= |cells|
    ensures |EntriesFrom(Zeroed(cells), cols, i)| == NonzeroCount(cells[i..])
    decreases |cells| - i
  {
    if i < |cells| {
      EntriesCount(cells, cols, i + 1);
      assert cells[i..][1..] == cells[i + 1..];
    }
  }

  function Zeros(n: nat): (g: seq<real>)
    ensures |g| == n && forall i :: 0 <= i < n ==> g[i] == 0.0
  {
    seq(n, _ => 0.0)
  }

  /** Writes each entry's value into the flat grid g, in order. */
  function Scatter(g: seq<real>, cols: nat, es: seq<Entry>): (r: seq<real>)
    requires forall j :: 0 <= j < |es| ==> FlatIndex(es[j], cols) < |g|
    ensures |r| == |g|
    decreases es
  {
    if es == [] then g
    else Scatter(g[FlatIndex(es[0], cols) := es[0].value], cols, es[1..])
  }

  lemma {:induction false} ScatterFrom(z: seq<real>, cols: nat, i: nat, g: seq<real>)
    requires cols > 0 && i <= |z| && |g| == |z|
    requires forall j :: i <= j < |g| ==> g[j] == 0.0
    ensures Scatter(g, cols, EntriesFrom(z, cols, i)) == g[..i] + z[i..]
    decreases |z| - i
  {
    if i == |z| {
      assert g[..i] + z[i..] == g;
    } else {
      var g' := g[i := z[i]];
      ScatterStep(z, cols, i, g);
      ScatterFrom(z, cols, i + 1, g');
      FillStep(z, i, g);
    }
  }

  /** One scan step: a nonzero value is written at its own position, a zero
      one leaves the grid, which already holds 0 there, as it is. */
  lemma ScatterStep(z: seq<real>, cols: nat, i: nat, g: seq<real>)
    requires cols > 0 && i < |z| && |g| == |z| && g[i] == 0.0
    ensures Scatter(g, cols, EntriesFrom(z, cols, i)) == Scatter(g[i := z[i]], cols, EntriesFrom(z, cols, i + 1))
  {
    if z[i] != 0.0 {
      var es := EntriesFrom(z, cols, i);
      assert FlatIndex(es[0], cols) == i && es[1..] == EntriesFrom(z, cols, i + 1);
    } else {
      assert g[i := z[i]] == g;
    }
  }

  lemma FillStep(z: seq<real>, i: nat, g: seq<real>)
    requires i < |z| && |g| == |z|
    ensures g[i := z[i]][..i + 1] + z[i + 1..] == g[..i] + z[i..]
  {
  }

  /** Round trip on the matrix: filling a zero grid with the entries gives
      back the NaN-zeroed values exactly. NaN and 0 come back alike. */
  lemma CooRoundTrip(cells: seq<Cell>, rows: nat, cols: nat)
    requires |cells| == rows * cols
    ensures var es := Coo(cells, rows, cols);
      (forall j :: 0 <= j < |es| ==> FlatIndex(es[j], cols) < rows * cols) &&
      Scatter(Zeros(rows * cols), cols, es) == Zeroed(cells)
  {
    if cols > 0 {
      var z := Zeroed(cells);
      ScatterFrom(z, cols, 0, Zeros(rows * cols));
      assert Zeros(rows * cols)[..0] + z[0..] == z;
    }
  }

  /** Reads the stored pairs back: every key must be a coordinate inside
      the matrix and every value a number. */
  function ReadEntries(ms: seq<(Key, Json)>, rows: nat, cols: nat): (r: Option<seq<Entry>>)
    ensures r.Some? ==> |r.value| == |ms|
    ensures r.Some? ==> forall j :: 0 <= j < |r.value| ==> r.value[j].row < rows && r.value[j].col < cols
  {
    if ms == [] then Some([])
    else if ms[0].0.Coord? && ms[0].1.JNum? && ms[0].0.row < rows && ms[0].0.col < cols then
      match ReadEntries(ms[1..], rows, cols)
      case None => None
      case Some(rest) => Some([Entry(ms[0].0.row, ms[0].0.col, ms[0].1.x)] + rest)
    else None
  }

  /** Decodes a sparse `array` field into the flat grid of rows * cols cells,
      zero wherever no pair is given. */
  function DecodeSparse(j: Json, rows: nat, cols: nat): (r: Option<seq<real>>)
    ensures r.Some? ==> |r.value| == rows * cols
  {
    if !j.JDoc? || !j.doc.JObj? then None
    else match ReadEntries(j.doc.members, rows, cols)
      case None => None
      case Some(es) =>
        assert forall i :: 0 <= i < |es| ==> FlatIndex(es[i], cols) < rows * cols by {
          forall i | 0 <= i < |es| ensures FlatIndex(es[i], cols) < rows * cols {
            FlatBound(es[i].row, es[i].col, rows, cols);
          }
        }
        Some(Scatter(Zeros(rows * cols), cols, es))
  }

  lemma {:induction false} ReadEntriesOf(es: seq<Entry>, rows: nat, cols: nat)
    requires forall j :: 0 <= j < |es| ==> es[j].row < rows && es[j].col < cols
    ensures ReadEntries(seq(|es|, j requires 0 <= j < |es| => (Coord(es[j].row, es[j].col), JNum(es[j].value))), rows, cols) == Some(es)
  {
    var ms := seq(|es|, j requires 0 <= j < |es| => (Coord(es[j].row, es[j].col), JNum(es[j].value)));
    if es != [] {
      ReadEntriesOf(es[1..], rows, cols);
      assert ms[1..] == seq(|es[1..]|, j requires 0 <= j < |es[1..]| => (Coord(es[1..][j].row, es[1..][j].col), JNum(es[1..][j].value)));
      assert [es[0]] + es[1..] == es;
    }
  }

  /** Round trip on the encoded field: decoding the sparse `array` gives the
      NaN-zeroed value array, so every NaN of the input comes back as 0. */
  lemma SparseRoundTrip(cells: seq<Cell>, rows: nat, cols: nat)
    requires |cells| == rows * cols
    ensures DecodeSparse(SparseJson(cells, rows, cols), rows, cols) == Some(Zeroed(cells))
  {
    var es := Coo(cells, rows, cols);
    CooSound(cells, rows, cols);
    ReadEntriesOf(es, rows, cols);
    CooRoundTrip(cells, rows, cols);
  }

  /** The sparse encoding only sees the NaN-zeroed values: two arrays that
      differ only by NaN against 0 encode alike. */
  lemma SparseForgetsNaN(a: seq<Cell>, b: seq<Cell>, rows: nat, cols: nat)
    requires |a| == rows * cols && |b| == rows * cols
    requires forall i :: 0 <= i < |a| ==> NanToNum(a[i]) == NanToNum(b[i])
    ensures SparseJson(a, rows, cols) == SparseJson(b, rows, cols)
  {
    assert Zeroed(a) == Zeroed(b);
  }
}
