/**
 * The dense path of the triangle encoder: `out.tolist()`, the value array
 * as a nested list of shape (k, v, o, d) with NaN kept. Also its reader.
 */
module DenseArray {
  import opened Wrappers
  import opened Json
  import opened Cells

  /** A float cell as json.dumps writes it: NaN stays NaN. */
  function CellJson(c: Cell): Json {
    match c
    case NaN => JNaN
    case Num(x) => JNum(x)
  }

  /** Cuts js into n consecutive runs of m values, each run a list. */
  function Group(js: seq<Json>, n: nat, m: nat): (r: seq<Json>)
    requires |js| == n * m
    ensures |r| == n
  {
    seq(n, i requires 0 <= i < n => RunBound(i, n, m); JArr(js[i * m .. i * m + m]))
  }

  /** `out.tolist()` for an array of shape (k, v, o, d) stored flat in
      row-major (C) order. */
  function Dense(cells: seq<Cell>, k: nat, v: nat, o: nat, d: nat): (r: Json)
    requires |cells| == k * v * o * d
    ensures r.JArr? && |r.items| == k
  {
    var flat := seq(|cells|, i requires 0 <= i < |cells| => CellJson(cells[i]));
    JArr(Group(Group(Group(flat, k * v * o, d), k * v, o), k, v))
  }

  /** Cutting a writable list into runs keeps it writable. */
  lemma GroupEncodable(js: seq<Json>, n: nat, m: nat)
    requires |js| == n * m && Encodable(JArr(js))
    ensures Encodable(JArr(Group(js, n, m)))
  {
    forall i | 0 <= i < n
      ensures Encodable(Group(js, n, m)[i])
    {
      RunBound(i, n, m);
      var run := js[i * m .. i * m + m];
      assert forall j :: 0 <= j < |run| ==> run[j] == js[i * m + j];
    }
  }

  /** The dense array holds numbers and NaN only, all of which json.dumps
      writes. */
  lemma DenseEncodable(cells: seq<Cell>, k: nat, v: nat, o: nat, d: nat)
    requires |cells| == k * v * o * d
    ensures Encodable(Dense(cells, k, v, o, d))
  {
    var flat := seq(|cells|, i requires 0 <= i < |cells| => CellJson(cells[i]));
    assert Encodable(JArr(flat));
    GroupEncodable(flat, k * v * o, d);
    GroupEncodable(Group(flat, k * v * o, d), k * v, o);
    GroupEncodable(Group(Group(flat, k * v * o, d), k * v, o), k, v);
  }

  /** Element i of a list, JNull off its end. */
  function Item(j: Json, i: nat): Json {
    if j.JArr? && i < |j.items| then j.items[i] else JNull
  }

  /** Length of a list, 0 for anything else. */
  function Len(j: Json): nat {
    if j.JArr? then |j.items| else 0
  }

  lemma GroupLen(js: seq<Json>, n: nat, m: nat, i: nat)
    requires |js| == n * m && i < n
    ensures Len(Group(js, n, m)[i]) == m
  {
    RunBound(i, n, m);
  }

  lemma GroupAt(js: seq<Json>, n: nat, m: nat, i: nat, j: nat)
    requires |js| == n * m && i < n && j < m
    ensures i * m + j < |js|
    ensures Item(Group(js, n, m)[i], j) == js[i * m + j]
  {
    RunBound(i, n, m);
  }

  /** The flat C-order position of index (a, b, c, e) in an array of shape
      (k, v, o, d); it lies inside the array. */
  function CPos(k: nat, v: nat, o: nat, d: nat, a: nat, b: nat, c: nat, e: nat): (p: nat)
    requires a < k && b < v && c < o && e < d
    ensures p < k * v * o * d
  {
    FlatBound(a, b, k, v);
    FlatBound(a * v + b, c, k * v, o);
    FlatBound((a * v + b) * o + c, e, k * v * o, d);
    ((a * v + b) * o + c) * d + e
  }

  /** The dense array has shape (k, v, o, d), and the cell at (a, b, c, e)
      is the input cell at its C-order position, NaN included. */
  lemma DenseShape(cells: seq<Cell>, k: nat, v: nat, o: nat, d: nat, a: nat, b: nat, c: nat, e: nat)
    requires |cells| == k * v * o * d
    requires a < k && b < v && c < o && e < d
    ensures var t := Dense(cells, k, v, o, d);
      Len(t) == k && Len(Item(t, a)) == v && Len(Item(Item(t, a), b)) == o &&
      Len(Item(Item(Item(t, a), b), c)) == d
    ensures Item(Item(Item(Item(Dense(cells, k, v, o, d), a), b), c), e) ==
      CellJson(cells[CPos(k, v, o, d, a, b, c, e)])
  {
    var flat := seq(|cells|, i requires 0 <= i < |cells| => CellJson(cells[i]));
    var l1 := Group(flat, k * v * o, d);
    var l2 := Group(l1, k * v, o);
    var l3 := Group(l2, k, v);
    var x := a * v + b;
    FlatBound(a, b, k, v);
    var y := x * o + c;
    FlatBound(x, c, k * v, o);
    var z := y * d + e;
    FlatBound(y, e, k * v * o, d);
    GroupLen(l2, k, v, a);
    GroupAt(l2, k, v, a, b);
    assert Item(Item(JArr(l3), a), b) == l2[x];
    GroupLen(l1, k * v, o, x);
    GroupAt(l1, k * v, o, x, c);
    assert Item(Item(Item(JArr(l3), a), b), c) == l1[y];
    GroupLen(flat, k * v * o, d, y);
    GroupAt(flat, k * v * o, d, y, e);
  }

  /** Joins a list of runs that each hold exactly m values. */
  function Ungroup(js: seq<Json>, m: nat): (r: Option<seq<Json>>)
    ensures r.Some? ==> |r.value| == |js| * m
  {
    if js == [] then Some([])
    else if !js[0].JArr? || |js[0].items| != m then None
    else match Ungroup(js[1..], m)
      case None => None
      case Some(rest) => Some(js[0].items + rest)
  }

  lemma {:induction false} UngroupGroup(js: seq<Json>, n: nat, m: nat)
    requires |js| == n * m
    ensures Ungroup(Group(js, n, m), m) == Some(js)
  {
    if n > 0 {
      GroupSplit(js, n, m);
      UngroupGroup(js[m..], n - 1, m);
      assert js[..m] + js[m..] == js;
    }
  }

  /** The first run of a grouping, and the grouping of the rest. */
  lemma GroupSplit(js: seq<Json>, n: nat, m: nat)
    requires |js| == n * m && n > 0
    ensures m <= |js| && |js[m..]| == (n - 1) * m
    ensures Group(js, n, m)[0] == JArr(js[..m])
    ensures Group(js, n, m)[1..] == Group(js[m..], n - 1, m)
  {
    RunBound(0, n, m);
    MulPred(n, m);
    var g := Group(js, n, m);
    var h := Group(js[m..], n - 1, m);
    forall i | 0 <= i < n - 1 ensures g[1..][i] == h[i] {
      RunBound(i + 1, n, m);
      RunBound(i, n - 1, m);
      MulSucc(i, m);
      assert g[1..][i] == JArr(js[i * m + m .. i * m + m + m]);
      assert h[i] == JArr(js[m..][i * m .. i * m + m]);
      assert js[m..][i * m .. i * m + m] == js[i * m + m .. i * m + m + m];
    }
  }

  lemma MulPred(n: nat, m: nat)
    requires n > 0
    ensures (n - 1) * m == n * m - m
  {
  }

  lemma MulSucc(i: nat, m: nat)
    ensures (i + 1) * m == i * m + m
  {
  }

  function ReadCell(j: Json): Option<Cell> {
    match j
    case JNaN => Some(NaN)
    case JNum(x) => Some(Num(x))
    case _ => None
  }

  function ReadCells(js: seq<Json>): (r: Option<seq<Cell>>)
    ensures r.Some? ==> |r.value| == |js|
  {
    if js == [] then Some([])
    else match (ReadCell(js[0]), ReadCells(js[1..]))
      case (Some(c), Some(rest)) => Some([c] + rest)
      case _ => None
  }

  /** Decodes a dense `array` field: a nested list of exactly the shape
      (k, v, o, d), read back to the flat cells. */
  function DecodeDense(j: Json, k: nat, v: nat, o: nat, d: nat): (r: Option<seq<Cell>>)
    ensures r.Some? ==> |r.value| == k * v * o * d
  {
    if !j.JArr? || |j.items| != k then None
    else match Ungroup(j.items, v)
      case None => None
      case Some(l2) => match Ungroup(l2, o)
        case None => None
        case Some(l1) => match Ungroup(l1, d)
          case None => None
          case Some(flat) => ReadCells(flat)
  }

  lemma {:induction false} ReadCellsOf(cells: seq<Cell>)
    ensures ReadCells(seq(|cells|, i requires 0 <= i < |cells| => CellJson(cells[i]))) == Some(cells)
  {
    if cells != [] {
      var js := seq(|cells|, i requires 0 <= i < |cells| => CellJson(cells[i]));
      ReadCellsOf(cells[1..]);
      assert js[1..] == seq(|cells[1..]|, i requires 0 <= i < |cells[1..]| => CellJson(cells[1..][i]));
      assert [cells[0]] + cells[1..] == cells;
    }
  }

  /** Round trip: the dense encoding decodes back to the very same cells,
      NaN included. */
  lemma DenseRoundTrip(cells: seq<Cell>, k: nat, v: nat, o: nat, d: nat)
    requires |cells| == k * v * o * d
    ensures DecodeDense(Dense(cells, k, v, o, d), k, v, o, d) == Some(cells)
  {
    var flat := seq(|cells|, i requires 0 <= i < |cells| => CellJson(cells[i]));
    var l1 := Group(flat, k * v * o, d);
    var l2 := Group(l1, k * v, o);
    UngroupGroup(l2, k, v);
    UngroupGroup(l1, k * v, o);
    UngroupGroup(flat, k * v * o, d);
    ReadCellsOf(cells);
  }
}
