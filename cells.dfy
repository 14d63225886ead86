/**
 * The cells of a triangle's value array, `np.nan_to_num` on them, and the
 * sparsity policy that decides between the sparse and the dense encoding.
 */
module Cells {

  /** One float64 cell of the value array; NaN marks an absent observation. */
  datatype Cell = NaN | Num(x: real)

  /** `np.nan_to_num` on one cell (infinities are not modelled). */
  function NanToNum(c: Cell): real {
    match c
    case NaN => 0.0
    case Num(x) => x
  }

  /** The NaN-zeroed image of a flat value array. */
  function Zeroed(cells: seq<Cell>): (z: seq<real>)
    ensures |z| == |cells|
    ensures forall i :: 0 <= i < |cells| ==> z[i] == NanToNum(cells[i])
  {
    seq(|cells|, i requires 0 <= i < |cells| => NanToNum(cells[i]))
  }

  /** `np.sum(np.nan_to_num(out) == 0)`: the cells that are zero or NaN. */
  function ZeroCount(cells: seq<Cell>): (n: nat)
    ensures n <= |cells|
  {
    if cells == [] then 0
    else (if NanToNum(cells[0]) == 0.0 then 1 else 0) + ZeroCount(cells[1..])
  }

  /** The sparsity test `zeros / total > 0.40`, stated in integers, where
      total is the number of cells k*v*o*d. */
  predicate UseSparse(cells: seq<Cell>) {
    5 * ZeroCount(cells) > 2 * |cells|
  }

  /** The integer test is the ratio test of the source, on exact reals. With
      no cells at all numpy's 0/0 is NaN, the comparison is false and the
      dense path is taken; at a ratio of exactly 0.40 the path is dense too. */
  lemma SparseThreshold(cells: seq<Cell>)
    ensures UseSparse(cells) <==> |cells| > 0 && (ZeroCount(cells) as real) / (|cells| as real) > 0.4
    ensures 5 * ZeroCount(cells) == 2 * |cells| ==> !UseSparse(cells)
  {
    if |cells| > 0 {
      RatioTest(ZeroCount(cells), |cells|);
    }
  }

  /** For t > 0: z / t > 2/5 exactly when 5z > 2t. */
  lemma RatioTest(z: nat, t: nat)
    requires t > 0
    ensures (z as real) / (t as real) > 0.4 <==> 5 * z > 2 * t
  {
    var zr, tr := z as real, t as real;
    var q := zr / tr;
    assert q * tr == zr;
    assert (5 * z - 2 * t) as real == (5.0 * q - 2.0) * tr;
    if q > 0.4 {
      MulPositive(5.0 * q - 2.0, tr);
    } else {
      MulNonPositive(5.0 * q - 2.0, tr);
    }
  }

  lemma MulPositive(a: real, b: real)
    requires a > 0.0 && b > 0.0
    ensures a * b > 0.0
  {
  }

  lemma MulNonPositive(a: real, b: real)
    requires a <= 0.0 && b > 0.0
    ensures a * b <= 0.0
  {
  }

  /** Cells that are neither zero nor NaN. */
  function NonzeroCount(cells: seq<Cell>): nat {
    if cells == [] then 0
    else (if NanToNum(cells[0]) != 0.0 then 1 else 0) + NonzeroCount(cells[1..])
  }

  lemma {:induction false} CountsPartition(cells: seq<Cell>)
    ensures ZeroCount(cells) + NonzeroCount(cells) == |cells|
  {
    if cells != [] {
      CountsPartition(cells[1..]);
    }
  }

  /** A cell (row, col) of a matrix with `cols` columns lies inside the flat
      array of rows * cols cells. */
  lemma FlatBound(row: nat, col: nat, rows: nat, cols: nat)
    requires row < rows && col < cols
    ensures row * cols + col < rows * cols
  {
    assert row * cols + cols == (row + 1) * cols;
    assert (row + 1) * cols <= rows * cols;
  }

  /** A run of `cols` cells starting at row `row` lies inside rows * cols. */
  lemma RunBound(row: nat, rows: nat, cols: nat)
    requires row < rows
    ensures row * cols + cols <= rows * cols
  {
    assert row * cols + cols == (row + 1) * cols;
    assert (row + 1) * cols <= rows * cols;
  }
}
