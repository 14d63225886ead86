/**
 * The triangle as the JSON encoder sees it: four dimension arrays, the
 * incremental value array stored flat, the scalar fields, and the
 * instance attributes (`vars(self)`) among which sit the sub-triangles and
 * the attached tables.
 */
module Triangles {
  import opened Wrappers
  import opened Json
  import opened Cells
  import opened Dates

  /** One element of a dimension array. */
  datatype Scalar = SInt(i: int) | SReal(x: real) | SStr(s: string)

  /** A dimension's labels: a numpy array, or a pandas DatetimeIndex whose
      elements are nanosecond timestamps. */
  datatype DimArray =
    | NdArray(dtype: string, items: seq<Scalar>)
    | DatetimeIndex(stamps: seq<int>)

  function Length(a: DimArray): nat {
    match a
    case NdArray(_, items) => |items|
    case DatetimeIndex(stamps) => |stamps|
  }

  /** `str(a.dtype)` */
  function DtypeName(a: DimArray): string {
    match a
    case NdArray(dtype, _) => dtype
    case DatetimeIndex(_) => "datetime64[ns]"
  }

  function ScalarJson(x: Scalar): Json {
    match x
    case SInt(i) => JInt(i)
    case SReal(r) => JNum(r)
    case SStr(s) => JStr(s)
  }

  /** `a.tolist()`: a numpy array gives its elements as Python scalars (a
      datetime64[ns] array gives integers); a DatetimeIndex gives Timestamp
      objects. */
  function ToList(a: DimArray): (r: seq<Json>)
    ensures |r| == Length(a)
  {
    match a
    case NdArray(_, items) => seq(|items|, i requires 0 <= i < |items| => ScalarJson(items[i]))
    case DatetimeIndex(stamps) => seq(|stamps|, i requires 0 <= i < |stamps| => JTimestamp(stamps[i]))
  }

  /** `a.values`: a DatetimeIndex yields its datetime64[ns] numpy array; a
      numpy array has no attribute `values`. */
  function ValuesOf(a: DimArray): (r: Option<DimArray>)
    ensures r.Some? <==> a.DatetimeIndex?
    ensures r.Some? ==> r.value.NdArray? && Length(r.value) == Length(a)
  {
    match a
    case DatetimeIndex(stamps) =>
      Some(NdArray("datetime64[ns]", seq(|stamps|, i requires 0 <= i < |stamps| => SInt(stamps[i]))))
    case NdArray(_, _) => None
  }

  /** A pandas Series: a name, an index and one column of cells. */
  datatype Series = Series(name: string, index: seq<Scalar>, data: seq<Cell>)

  /** A pandas DataFrame, column by column. */
  datatype Frame = Frame(columns: seq<string>, index: seq<Scalar>, data: seq<seq<Cell>>)

  /** `s.to_frame()`: the series as a frame with one column named after it. */
  function ToFrame(s: Series): Frame {
    Frame([s.name], s.index, [s.data])
  }

  /** The value of an instance attribute, as far as the encoder tells them
      apart: another triangle, a DataFrame, a Series, or anything else. */
  datatype Attr =
    | SubTriangle(tri: Triangle)
    | DataFrame(frame: Frame)
    | PdSeries(series: Series)
    | OtherAttr

  /** `incr` is the value array after `cum_to_incr()`, flattened in C order
      from shape (k, v, o, d); `valuesDtype` is its dtype name. `attrs` is
      `vars(self)` in its own order. */
  datatype Triangle = Triangle(
    kdims: DimArray,
    vdims: DimArray,
    odims: DimArray,
    ddims: DimArray,
    incr: seq<Cell>,
    valuesDtype: string,
    keyLabels: seq<string>,
    originGrain: string,
    developmentGrain: string,
    isCumulative: bool,
    isValTri: bool,
    valuationDate: Timestamp,
    attrs: seq<(string, Attr)>)

  /** Rows of the (k*v*o) x d matrix view of the values. */
  function Rows(t: Triangle): nat {
    Length(t.kdims) * Length(t.vdims) * Length(t.odims)
  }

  function Cols(t: Triangle): nat {
    Length(t.ddims)
  }

  /** What holds of every triangle: the value array has k*v*o*d cells, the
      valuation date is a real Timestamp, attribute names are unique (they
      are the keys of a dict) and every sub-triangle is a triangle too. */
  predicate Valid(t: Triangle)
    decreases t
  {
    |t.incr| == Rows(t) * Cols(t) &&
    ValidTimestamp(t.valuationDate) &&
    Distinct(Names(t.attrs)) &&
    forall i :: 0 <= i < |t.attrs| ==> t.attrs[i].1.SubTriangle? ==> Valid(t.attrs[i].1.tri)
  }
}
