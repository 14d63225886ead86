/**
 * What the triangle document holds, stated against reference definitions:
 * the three attribute dicts (`sub_tris`, the DataFrame part and the Series
 * part of `dfs`) are each the plain list of the attributes of their kind in
 * `vars` order, and each field of the document reads back what the
 * triangle holds.
 */
module TriangleFacts {
  import opened Wrappers
  import opened Json
  import opened Cells
  import opened Dates
  import opened SparseCoo
  import opened DenseArray
  import opened Triangles
  import opened TriangleIO

  /** The attributes `sel` picks, as (name, value) pairs in `vars` order:
      a reference definition of a dict comprehension over `vars(self)`
      that filters on the attribute's type. */
  function Entries(attrs: seq<(string, Attr)>, sel: Attr -> Option<Json>): (r: seq<(Key, Json)>)
    ensures |r| <= |attrs|
  {
    if attrs == [] then []
    else
      var n := |attrs| - 1;
      var rest := Entries(attrs[..n], sel);
      match sel(attrs[n].1)
      case Some(v) => rest + [(Name(attrs[n].0), v)]
      case None => rest
  }

  function FrameSel(enc: Frame -> string): Attr -> Option<Json> {
    (a: Attr) => if a.DataFrame? then Some(JStr(enc(a.frame))) else None
  }

  function SeriesSel(enc: Frame -> string): Attr -> Option<Json> {
    (a: Attr) => if a.PdSeries? then Some(JStr(enc(ToFrame(a.series)))) else None
  }

  /** A sub-triangle that encodes, as the string its own `to_json()` gives. */
  function SubSel(enc: Frame -> string): Attr -> Option<Json> {
    (a: Attr) => if a.SubTriangle? && Valid(a.tri) && TriangleJson(a.tri, enc).Ok?
         then Some(JDoc(TriangleJson(a.tri, enc).value)) else None
  }

  /** A name that no attribute carries is not a key of the entries. */
  lemma {:induction false} EntriesFresh(attrs: seq<(string, Attr)>, sel: Attr -> Option<Json>, x: string)
    requires forall i :: 0 <= i < |attrs| ==> attrs[i].0 != x
    ensures Name(x) !in Keys(Entries(attrs, sel))
  {
    if attrs != [] {
      var n := |attrs| - 1;
      EntriesFresh(attrs[..n], sel, x);
      match sel(attrs[n].1)
      case Some(v) =>
        KeysAppend(Entries(attrs[..n], sel), [(Name(attrs[n].0), v)]);
        assert attrs[n].0 != x;
      case None =>
    }
  }

  lemma DistinctPrefix(attrs: seq<(string, Attr)>, n: nat)
    requires Distinct(Names(attrs)) && n <= |attrs|
    ensures Distinct(Names(attrs[..n]))
    ensures forall i :: 0 <= i < n ==> n < |attrs| ==> attrs[i].0 != attrs[n].0
  {
    forall i | 0 <= i < n && n < |attrs|
      ensures attrs[i].0 != attrs[n].0
    {
      assert Names(attrs)[i] != Names(attrs)[n];
    }
    forall i, j | 0 <= i < j < n
      ensures Names(attrs[..n])[i] != Names(attrs[..n])[j]
    {
      assert Names(attrs)[i] != Names(attrs)[j];
    }
  }

  /** With distinct attribute names, every picked attribute is found under
      its own name with the value `sel` gives it, and every attribute that
      is not picked is absent. */
  lemma {:induction false} EntriesGet(attrs: seq<(string, Attr)>, sel: Attr -> Option<Json>, i: nat)
    requires Distinct(Names(attrs)) && i < |attrs|
    ensures Get(Entries(attrs, sel), Name(attrs[i].0)) == sel(attrs[i].1)
  {
    var n := |attrs| - 1;
    var rest := Entries(attrs[..n], sel);
    DistinctPrefix(attrs, n);
    if i == n {
      EntriesFresh(attrs[..n], sel, attrs[n].0);
      match sel(attrs[n].1)
      case Some(v) =>
        GetAppend(rest, [(Name(attrs[n].0), v)], Name(attrs[n].0));
      case None =>
        IndexOfMissing(rest, Name(attrs[n].0));
    } else {
      EntriesGet(attrs[..n], sel, i);
      match sel(attrs[n].1)
      case Some(v) =>
        GetAppend(rest, [(Name(attrs[n].0), v)], Name(attrs[i].0));
        if Name(attrs[i].0) !in Keys(rest) {
          IndexOfMissing(rest, Name(attrs[i].0));
        }
      case None =>
    }
  }

  /** Line 82: the DataFrame dict is the list of DataFrame attributes, each
      under its name holding the frame's table encoding. */
  lemma {:induction false} FramesAreEntries(t: Triangle, n: nat, enc: Frame -> string)
    requires Distinct(Names(t.attrs)) && n <= |t.attrs|
    ensures FramesUpTo(t, n, enc) == Entries(t.attrs[..n], FrameSel(enc))
  {
    if n > 0 {
      FramesAreEntries(t, n - 1, enc);
      assert t.attrs[..n][..n - 1] == t.attrs[..n - 1];
      DistinctPrefix(t.attrs, n - 1);
      EntriesFresh(t.attrs[..n - 1], FrameSel(enc), t.attrs[n - 1].0);
    }
  }

  /** Line 84: the Series dict is the list of Series attributes, each under
      its name holding the table encoding of its one-column frame. */
  lemma {:induction false} SeriesAreEntries(t: Triangle, n: nat, enc: Frame -> string)
    requires Distinct(Names(t.attrs)) && n <= |t.attrs|
    ensures SeriesUpTo(t, n, enc) == Entries(t.attrs[..n], SeriesSel(enc))
  {
    if n > 0 {
      SeriesAreEntries(t, n - 1, enc);
      assert t.attrs[..n][..n - 1] == t.attrs[..n - 1];
      DistinctPrefix(t.attrs, n - 1);
      EntriesFresh(t.attrs[..n - 1], SeriesSel(enc), t.attrs[n - 1].0);
    }
  }

  /** Lines 78-80: when every child encodes, the sub_tris dict is the list of
      sub-triangle attributes, each under its name holding the child's
      document as a string. */
  lemma {:induction false} SubTrisAreEntries(t: Triangle, n: nat, enc: Frame -> string)
    requires Valid(t) && n <= |t.attrs|
    requires SubTrisUpTo(t, n, enc).Ok?
    ensures SubTrisUpTo(t, n, enc) == Ok(Entries(t.attrs[..n], SubSel(enc)))
    decreases n
  {
    if n > 0 {
      SubTrisStep(t, n, enc);
      SubTrisAreEntries(t, n - 1, enc);
      var name, v := t.attrs[n - 1].0, SubSel(enc)(t.attrs[n - 1].1);
      var e := Entries(t.attrs[..n - 1], SubSel(enc));
      EntriesLast(t.attrs, n, SubSel(enc));
      NextFresh(t.attrs, n, SubSel(enc));
      if v.Some? {
        PutFresh(e, Name(name), v.value);
      }
    }
  }

  /** With distinct names, the name of attribute n - 1 is not yet a key of
      the entries of the attributes before it. */
  lemma NextFresh(attrs: seq<(string, Attr)>, n: nat, sel: Attr -> Option<Json>)
    requires Distinct(Names(attrs)) && 0 < n <= |attrs|
    ensures Name(attrs[n - 1].0) !in Keys(Entries(attrs[..n - 1], sel))
  {
    DistinctPrefix(attrs, n - 1);
    EntriesFresh(attrs[..n - 1], sel, attrs[n - 1].0);
  }

  /** One step of the `sub_tris` comprehension that succeeds: the child, if
      it is one, is put under its name as `SubSel` encodes it. */
  lemma SubTrisStep(t: Triangle, n: nat, enc: Frame -> string)
    requires Valid(t) && 0 < n <= |t.attrs| && SubTrisUpTo(t, n, enc).Ok?
    ensures SubTrisUpTo(t, n - 1, enc).Ok?
    ensures var v, prev := SubSel(enc)(t.attrs[n - 1].1), SubTrisUpTo(t, n - 1, enc).value;
      SubTrisUpTo(t, n, enc).value == if v.Some? then Put(prev, Name(t.attrs[n - 1].0), v.value) else prev
  {
    match t.attrs[n - 1].1
    case SubTriangle(c) =>
      assert Valid(c);
    case _ =>
  }

  /** The step of `Entries` for attribute n - 1. */
  lemma EntriesLast(attrs: seq<(string, Attr)>, n: nat, sel: Attr -> Option<Json>)
    requires 0 < n <= |attrs|
    ensures var v := sel(attrs[n - 1].1);
      Entries(attrs[..n], sel) == if v.Some? then Entries(attrs[..n - 1], sel) + [(Name(attrs[n - 1].0), v.value)]
                                  else Entries(attrs[..n - 1], sel)
  {
    assert attrs[..n][..n - 1] == attrs[..n - 1];
  }

  /** Each of the three attribute dicts has unique keys. */
  lemma {:induction false} EntriesDistinct(attrs: seq<(string, Attr)>, sel: Attr -> Option<Json>)
    requires Distinct(Names(attrs))
    ensures Distinct(Keys(Entries(attrs, sel)))
  {
    if attrs != [] {
      var n := |attrs| - 1;
      var rest := Entries(attrs[..n], sel);
      DistinctPrefix(attrs, n);
      EntriesDistinct(attrs[..n], sel);
      match sel(attrs[n].1)
      case Some(v) =>
        EntriesFresh(attrs[..n], sel, attrs[n].0);
        PutFresh(rest, Name(attrs[n].0), v);
        assert Keys(rest) + [] == Keys(rest);
        DistinctInsert(Keys(rest), Name(attrs[n].0), []);
        assert Keys(rest) + [Name(attrs[n].0)] + [] == Keys(rest) + [Name(attrs[n].0)];
      case None =>
    }
  }

  /** No attribute is both a DataFrame and a Series, so the keys of the
      DataFrame dict and of the Series dict never meet. */
  lemma {:induction false} DfsDistinct(attrs: seq<(string, Attr)>, enc: Frame -> string)
    requires Distinct(Names(attrs))
    ensures Distinct(Keys(Entries(attrs, FrameSel(enc)) + Entries(attrs, SeriesSel(enc))))
  {
    if attrs != [] {
      var n := |attrs| - 1;
      var p := attrs[..n];
      var F, S := Entries(p, FrameSel(enc)), Entries(p, SeriesSel(enc));
      var x := Name(attrs[n].0);
      DistinctPrefix(attrs, n);
      DfsDistinct(p, enc);
      EntriesFresh(p, FrameSel(enc), attrs[n].0);
      EntriesFresh(p, SeriesSel(enc), attrs[n].0);
      KeysAppend(F, S);
      match attrs[n].1
      case DataFrame(f) =>
        var e := (x, JStr(enc(f)));
        assert Entries(attrs, FrameSel(enc)) == F + [e];
        assert Entries(attrs, SeriesSel(enc)) == S;
        KeysAppend(F + [e], S);
        KeysAppend(F, [e]);
        assert Keys([e]) == [x];
        DistinctInsert(Keys(F), x, Keys(S));
      case PdSeries(sr) =>
        var e := (x, JStr(enc(ToFrame(sr))));
        assert Entries(attrs, FrameSel(enc)) == F;
        assert Entries(attrs, SeriesSel(enc)) == S + [e];
        KeysAppend(F, S + [e]);
        KeysAppend(S, [e]);
        assert Keys([e]) == [x];
        assert Keys(F) + Keys(S) + [] == Keys(F) + Keys(S);
        DistinctInsert(Keys(F) + Keys(S), x, []);
        assert Keys(F) + Keys(S) + [x] + [] == Keys(F) + (Keys(S) + [x]);
      case _ =>
        assert Entries(attrs, FrameSel(enc)) == F;
        assert Entries(attrs, SeriesSel(enc)) == S;
    }
  }

  /** The keys of a triangle document, in the order `to_json` sets them. */
  function DocKeys(t: Triangle): seq<Key> {
    DimKeys(t) + [Name("values")] + ScalarKeys + [Name("sub_tris"), Name("dfs")]
  }

  /** No key of the document is set twice. */
  lemma DocKeysDistinct(t: Triangle)
    ensures Distinct(DocKeys(t)) && |DocKeys(t)| == 13
  {
  }

  /** A document that encodes, taken apart. */
  lemma DocParts(t: Triangle, enc: Frame -> string)
    requires Valid(t) && TriangleJson(t, enc).Ok?
    ensures DimMembers(t).Ok? && SubTrisUpTo(t, |t.attrs|, enc).Ok?
    ensures TriangleJson(t, enc).value ==
      JObj(Document(DimMembers(t).value, ValuesRecord(t), ScalarMembers(t),
                    JObj(SubTrisUpTo(t, |t.attrs|, enc).value),
                    JObj(PutAll(FramesUpTo(t, |t.attrs|, enc), SeriesUpTo(t, |t.attrs|, enc)))))
  {
  }

  lemma DocumentKeys(dims: seq<(Key, Json)>, values: Json, scalars: seq<(Key, Json)>, subTris: Json, dfs: Json)
    ensures Keys(Document(dims, values, scalars, subTris, dfs)) ==
      Keys(dims) + [Name("values")] + Keys(scalars) + [Name("sub_tris"), Name("dfs")]
  {
    var a := dims + [(Name("values"), values)];
    var b := a + scalars;
    var c := b + [(Name("sub_tris"), subTris)];
    KeysAppend(dims, [(Name("values"), values)]);
    KeysAppend(a, scalars);
    KeysAppend(b, [(Name("sub_tris"), subTris)]);
    KeysAppend(c, [(Name("dfs"), dfs)]);
  }

  lemma DocumentAt(dims: seq<(Key, Json)>, values: Json, scalars: seq<(Key, Json)>, subTris: Json, dfs: Json)
    ensures var ms, n := Document(dims, values, scalars, subTris, dfs), |dims|;
      |ms| == n + |scalars| + 3 &&
      (forall j :: 0 <= j < n ==> ms[j] == dims[j]) &&
      ms[n] == (Name("values"), values) &&
      (forall j :: 0 <= j < |scalars| ==> ms[n + 1 + j] == scalars[j]) &&
      ms[n + |scalars| + 1] == (Name("sub_tris"), subTris) &&
      ms[n + |scalars| + 2] == (Name("dfs"), dfs)
  {
  }

  /** Lines 27-85: a document that encodes is an object with thirteen keys,
      each once: the four dimensions (`ddims` first for a valuation
      triangle), `values`, the six scalar fields, `sub_tris` and `dfs`. */
  lemma DocKeysInOrder(t: Triangle, enc: Frame -> string)
    requires Valid(t) && TriangleJson(t, enc).Ok?
    ensures TriangleJson(t, enc).value.JObj?
    ensures Keys(TriangleJson(t, enc).value.members) == DocKeys(t)
  {
    DocParts(t, enc);
    var dims, subs := DimMembers(t).value, JObj(SubTrisUpTo(t, |t.attrs|, enc).value);
    var dfs := JObj(PutAll(FramesUpTo(t, |t.attrs|, enc), SeriesUpTo(t, |t.attrs|, enc)));
    DimMembersKeys(t);
    ScalarMembersKeys(t);
    DocumentKeys(dims, ValuesRecord(t), ScalarMembers(t), subs, dfs);
  }

  lemma ScalarMembersKeys(t: Triangle)
    requires ValidTimestamp(t.valuationDate)
    ensures Keys(ScalarMembers(t)) == ScalarKeys
  {
  }

  /** With unique keys, every part of a document is found under its key. */
  lemma DocumentFields(dims: seq<(Key, Json)>, values: Json, scalars: seq<(Key, Json)>, subTris: Json, dfs: Json)
    requires Distinct(Keys(Document(dims, values, scalars, subTris, dfs)))
    ensures var d := Document(dims, values, scalars, subTris, dfs);
      (forall j :: 0 <= j < |dims| ==> Get(d, dims[j].0) == Some(dims[j].1)) &&
      Get(d, Name("values")) == Some(values) &&
      (forall j :: 0 <= j < |scalars| ==> Get(d, scalars[j].0) == Some(scalars[j].1)) &&
      Get(d, Name("sub_tris")) == Some(subTris) &&
      Get(d, Name("dfs")) == Some(dfs)
  {
    DocumentDimFields(dims, values, scalars, subTris, dfs);
    DocumentScalarFields(dims, values, scalars, subTris, dfs);
    DocumentSingleFields(dims, values, scalars, subTris, dfs);
  }

  lemma DocumentDimFields(dims: seq<(Key, Json)>, values: Json, scalars: seq<(Key, Json)>, subTris: Json, dfs: Json)
    requires Distinct(Keys(Document(dims, values, scalars, subTris, dfs)))
    ensures var d := Document(dims, values, scalars, subTris, dfs);
      forall j :: 0 <= j < |dims| ==> Get(d, dims[j].0) == Some(dims[j].1)
  {
    var d := Document(dims, values, scalars, subTris, dfs);
    DocumentAt(dims, values, scalars, subTris, dfs);
    forall j | 0 <= j < |dims|
      ensures Get(d, dims[j].0) == Some(dims[j].1)
    {
      GetAt(d, j);
    }
  }

  lemma DocumentScalarFields(dims: seq<(Key, Json)>, values: Json, scalars: seq<(Key, Json)>, subTris: Json, dfs: Json)
    requires Distinct(Keys(Document(dims, values, scalars, subTris, dfs)))
    ensures var d := Document(dims, values, scalars, subTris, dfs);
      forall j :: 0 <= j < |scalars| ==> Get(d, scalars[j].0) == Some(scalars[j].1)
  {
    var d, n := Document(dims, values, scalars, subTris, dfs), |dims|;
    DocumentAt(dims, values, scalars, subTris, dfs);
    forall j | 0 <= j < |scalars|
      ensures Get(d, scalars[j].0) == Some(scalars[j].1)
    {
      GetAt(d, n + 1 + j);
    }
  }

  lemma DocumentSingleFields(dims: seq<(Key, Json)>, values: Json, scalars: seq<(Key, Json)>, subTris: Json, dfs: Json)
    requires Distinct(Keys(Document(dims, values, scalars, subTris, dfs)))
    ensures var d := Document(dims, values, scalars, subTris, dfs);
      Get(d, Name("values")) == Some(values) &&
      Get(d, Name("sub_tris")) == Some(subTris) &&
      Get(d, Name("dfs")) == Some(dfs)
  {
    var d, n := Document(dims, values, scalars, subTris, dfs), |dims|;
    DocumentAt(dims, values, scalars, subTris, dfs);
    GetAt(d, n);
    GetAt(d, n + |scalars| + 1);
    GetAt(d, n + |scalars| + 2);
  }

  /** Every part of a document that encodes is found under its key. */
  lemma DocFields(t: Triangle, enc: Frame -> string)
    requires Valid(t) && TriangleJson(t, enc).Ok?
    ensures DimMembers(t).Ok? && SubTrisUpTo(t, |t.attrs|, enc).Ok?
    ensures var ms, dims := TriangleJson(t, enc).value.members, DimMembers(t).value;
      (forall j :: 0 <= j < |dims| ==> Get(ms, dims[j].0) == Some(dims[j].1)) &&
      Get(ms, Name("values")) == Some(ValuesRecord(t)) &&
      (forall j :: 0 <= j < 6 ==> Get(ms, ScalarMembers(t)[j].0) == Some(ScalarMembers(t)[j].1)) &&
      Get(ms, Name("sub_tris")) == Some(JObj(SubTrisUpTo(t, |t.attrs|, enc).value)) &&
      Get(ms, Name("dfs")) == Some(JObj(PutAll(FramesUpTo(t, |t.attrs|, enc), SeriesUpTo(t, |t.attrs|, enc))))
  {
    DocParts(t, enc);
    DocKeysInOrder(t, enc);
    DocKeysDistinct(t);
    DocumentFields(DimMembers(t).value, ValuesRecord(t), ScalarMembers(t),
                   JObj(SubTrisUpTo(t, |t.attrs|, enc).value),
                   JObj(PutAll(FramesUpTo(t, |t.attrs|, enc), SeriesUpTo(t, |t.attrs|, enc))));
  }

  /** The record of a valuation triangle's `ddims`: its nanosecond values
      as integers, under the dtype of `.values`. */
  function StampRecord(stamps: seq<int>): Json {
    DimRecord("datetime64[ns]", seq(|stamps|, j requires 0 <= j < |stamps| => JInt(stamps[j])))
  }

  /** The dimension records one by one. */
  lemma DimMembersList(t: Triangle)
    requires DimMembers(t).Ok?
    ensures t.isValTri ==> (t.ddims.DatetimeIndex? &&
      DimMembers(t).value == [(Name("ddims"), StampRecord(t.ddims.stamps)),
                              (Name("kdims"), DimJson(t.kdims)), (Name("vdims"), DimJson(t.vdims)),
                              (Name("odims"), DimJson(t.odims))])
    ensures !t.isValTri ==>
      DimMembers(t).value == [(Name("kdims"), DimJson(t.kdims)), (Name("vdims"), DimJson(t.vdims)),
                              (Name("odims"), DimJson(t.odims)), (Name("ddims"), DimJson(t.ddims))]
  {
    if t.isValTri {
      var st := t.ddims.stamps;
      assert ToList(ValuesOf(t.ddims).value) == seq(|st|, j requires 0 <= j < |st| => JInt(st[j]));
    }
  }

  /** Lines 44-56: each dimension is written as its dtype name and its
      `tolist()`; for a valuation triangle `ddims` is written from its
      nanosecond values, as integers under the dtype "datetime64[ns]". */
  lemma DimFields(t: Triangle, enc: Frame -> string)
    requires Valid(t) && TriangleJson(t, enc).Ok?
    ensures var ms := TriangleJson(t, enc).value.members;
      Get(ms, Name("kdims")) == Some(DimJson(t.kdims)) &&
      Get(ms, Name("vdims")) == Some(DimJson(t.vdims)) &&
      Get(ms, Name("odims")) == Some(DimJson(t.odims))
    ensures !t.isValTri ==> Get(TriangleJson(t, enc).value.members, Name("ddims")) == Some(DimJson(t.ddims))
    ensures t.isValTri ==> (t.ddims.DatetimeIndex? &&
      Get(TriangleJson(t, enc).value.members, Name("ddims")) == Some(StampRecord(t.ddims.stamps)))
  {
    DocFields(t, enc);
    DimMembersList(t);
    var dims := DimMembers(t).value;
    var ms := TriangleJson(t, enc).value.members;
    assert Get(ms, dims[0].0) == Some(dims[0].1) && Get(ms, dims[1].0) == Some(dims[1].1);
    assert Get(ms, dims[2].0) == Some(dims[2].1) && Get(ms, dims[3].0) == Some(dims[3].1);
  }

  /** Lines 46-47: a valuation triangle whose `ddims` is a plain numpy array
      fails on the lookup of `.values`. */
  lemma ValTriNdArrayFails(t: Triangle, enc: Frame -> string)
    requires Valid(t) && t.isValTri && t.ddims.NdArray?
    ensures TriangleJson(t, enc) == Err(AttributeError("values"))
  {
  }

  /** Lines 57-71: the `values` field is the values record. */
  lemma ValuesField(t: Triangle, enc: Frame -> string)
    requires Valid(t) && TriangleJson(t, enc).Ok?
    ensures Get(TriangleJson(t, enc).value.members, Name("values")) == Some(ValuesRecord(t))
  {
    DocFields(t, enc);
  }

  /** Lines 57-71: the values record names its dtype and its encoding, and
      its array reads back: the dense one exactly, NaN included; the sparse
      one with every NaN turned into 0. */
  lemma ValuesReadBack(t: Triangle)
    requires |t.incr| == Rows(t) * Cols(t)
    ensures var ms := ValuesRecord(t).members;
      Keys(ms) == [Name("dtype"), Name("array"), Name("sparse")] &&
      ms[0].1 == JStr(t.valuesDtype) && ms[2].1 == JBool(UseSparse(t.incr)) &&
      (UseSparse(t.incr) ==> DecodeSparse(ms[1].1, Rows(t), Cols(t)) == Some(Zeroed(t.incr))) &&
      (!UseSparse(t.incr) ==>
        DecodeDense(ms[1].1, Length(t.kdims), Length(t.vdims), Length(t.odims), Length(t.ddims)) == Some(t.incr))
  {
    var k, v, o, d := Length(t.kdims), Length(t.vdims), Length(t.odims), Length(t.ddims);
    assert k * v * o == Rows(t) && d == Cols(t);
    if UseSparse(t.incr) {
      SparseRoundTrip(t.incr, Rows(t), Cols(t));
    } else {
      DenseRoundTrip(t.incr, k, v, o, d);
    }
  }

  /** Lines 72-77: the scalar fields are copied, and the valuation date is
      written as "YYYY-MM-DD" text from which its date reads back. */
  lemma ScalarFields(t: Triangle, enc: Frame -> string)
    requires Valid(t) && TriangleJson(t, enc).Ok?
    ensures var ms := TriangleJson(t, enc).value.members;
      Get(ms, Name("key_labels")) == Some(StringList(t.keyLabels)) &&
      Get(ms, Name("origin_grain")) == Some(JStr(t.originGrain)) &&
      Get(ms, Name("development_grain")) == Some(JStr(t.developmentGrain)) &&
      Get(ms, Name("is_cumulative")) == Some(JBool(t.isCumulative)) &&
      Get(ms, Name("is_val_tri")) == Some(JBool(t.isValTri))
    ensures var date := Get(TriangleJson(t, enc).value.members, Name("valuation_date"));
      date.Some? && date.value.JStr? &&
      ParseIsoDate(date.value.s) == Some((t.valuationDate.year, t.valuationDate.month, t.valuationDate.day))
  {
    DocFields(t, enc);
    var sc := ScalarMembers(t);
    assert sc[0].0 == Name("key_labels") && sc[1].0 == Name("origin_grain") && sc[2].0 == Name("development_grain");
    assert sc[3].0 == Name("is_cumulative") && sc[4].0 == Name("is_val_tri") && sc[5].0 == Name("valuation_date");
    IsoDateRoundTrip(t.valuationDate);
  }

  /** Lines 78-80: `sub_tris` lists the sub-triangle attributes in `vars`
      order, each with its own document. */
  lemma SubTrisField(t: Triangle, enc: Frame -> string)
    requires Valid(t) && TriangleJson(t, enc).Ok?
    ensures Get(TriangleJson(t, enc).value.members, Name("sub_tris")) == Some(JObj(Entries(t.attrs, SubSel(enc))))
  {
    DocFields(t, enc);
    SubTrisAreEntries(t, |t.attrs|, enc);
    assert t.attrs[..|t.attrs|] == t.attrs;
  }

  /** Lines 78-80: under the name of each sub-triangle, `sub_tris` holds
      the child's own document; no other attribute has a key there. */
  lemma SubTriEntry(t: Triangle, enc: Frame -> string, i: nat)
    requires Valid(t) && TriangleJson(t, enc).Ok? && i < |t.attrs|
    ensures var a := t.attrs[i].1;
      a.SubTriangle? ==> Valid(a.tri) && TriangleJson(a.tri, enc).Ok?
    ensures var a := t.attrs[i].1;
      Get(JObj(Entries(t.attrs, SubSel(enc))).members, Name(t.attrs[i].0)) ==
        if a.SubTriangle? then Some(JDoc(TriangleJson(a.tri, enc).value)) else None
  {
    if t.attrs[i].1.SubTriangle? && TriangleJson(t.attrs[i].1.tri, enc).Err? {
      ChildErrorFails(t, enc, i);
    }
    EntriesGet(t.attrs, SubSel(enc), i);
  }

  /** Lines 78-80: a sub-triangle that cannot be encoded makes the whole
      encoding fail. */
  lemma ChildErrorFails(t: Triangle, enc: Frame -> string, i: nat)
    requires Valid(t) && i < |t.attrs| && t.attrs[i].1.SubTriangle?
    requires Valid(t.attrs[i].1.tri) && TriangleJson(t.attrs[i].1.tri, enc).Err?
    ensures TriangleJson(t, enc).Err?
  {
    if SubTrisUpTo(t, i, enc).Err? {
      SubTrisErrorSticks(t, i, |t.attrs|, enc);
    } else {
      assert SubTrisUpTo(t, i + 1, enc).Err?;
      SubTrisErrorSticks(t, i + 1, |t.attrs|, enc);
    }
  }

  /** Lines 81-85: `dfs` lists the DataFrame attributes in `vars` order,
      then the Series attributes in `vars` order. */
  lemma DfsField(t: Triangle, enc: Frame -> string)
    requires Valid(t) && TriangleJson(t, enc).Ok?
    ensures Get(TriangleJson(t, enc).value.members, Name("dfs")) ==
      Some(JObj(Entries(t.attrs, FrameSel(enc)) + Entries(t.attrs, SeriesSel(enc))))
  {
    DocFields(t, enc);
    FramesAreEntries(t, |t.attrs|, enc);
    SeriesAreEntries(t, |t.attrs|, enc);
    assert t.attrs[..|t.attrs|] == t.attrs;
    DfsDistinct(t.attrs, enc);
  }

  /** Lines 81-85: under the name of each DataFrame, `dfs` holds the frame's
      table encoding; under the name of each Series, that of the frame
      `to_frame()` makes of it; no other attribute has a key there. */
  lemma DfsEntry(t: Triangle, enc: Frame -> string, i: nat)
    requires Distinct(Names(t.attrs)) && i < |t.attrs|
    ensures var a := t.attrs[i].1;
      Get(Entries(t.attrs, FrameSel(enc)) + Entries(t.attrs, SeriesSel(enc)), Name(t.attrs[i].0)) ==
        if a.DataFrame? then Some(JStr(enc(a.frame)))
        else if a.PdSeries? then Some(JStr(enc(ToFrame(a.series))))
        else None
  {
    var F, S := Entries(t.attrs, FrameSel(enc)), Entries(t.attrs, SeriesSel(enc));
    EntriesGet(t.attrs, FrameSel(enc), i);
    EntriesGet(t.attrs, SeriesSel(enc), i);
    GetAppend(F, S, Name(t.attrs[i].0));
  }

  /** A dimension array json.dumps can write: anything but a DatetimeIndex
      with elements, whose `tolist()` holds Timestamp objects. */
  predicate Writable(a: DimArray) {
    a.NdArray? || |a.stamps| == 0
  }

  lemma DimRecordEncodable(a: DimArray)
    ensures Encodable(DimJson(a)) <==> Writable(a)
  {
    var r := DimJson(a);
    assert r.members[1].1 == JArr(ToList(a));
    if Writable(a) {
      forall i | 0 <= i < |ToList(a)| ensures Encodable(ToList(a)[i]) {
        assert a.NdArray?;
        assert ToList(a)[i] == ScalarJson(a.items[i]);
      }
    } else {
      assert !Encodable(ToList(a)[0]);
    }
  }

  lemma StampRecordEncodable(stamps: seq<int>)
    ensures Encodable(StampRecord(stamps))
  {
  }

  lemma FourEncodable(ms: seq<(Key, Json)>)
    requires |ms| == 4
    ensures Encodable(JObj(ms)) <==> Encodable(ms[0].1) && Encodable(ms[1].1) && Encodable(ms[2].1) && Encodable(ms[3].1)
  {
  }

  lemma DimMembersEncodable(t: Triangle)
    requires DimMembers(t).Ok?
    ensures Encodable(JObj(DimMembers(t).value)) <==>
      Writable(t.kdims) && Writable(t.vdims) && Writable(t.odims) && (t.isValTri || Writable(t.ddims))
  {
    DimRecordEncodable(t.kdims);
    DimRecordEncodable(t.vdims);
    DimRecordEncodable(t.odims);
    DimRecordEncodable(t.ddims);
    DimMembersList(t);
    var ms := DimMembers(t).value;
    FourEncodable(ms);
    if t.isValTri {
      StampRecordEncodable(t.ddims.stamps);
    }
  }

  lemma ValuesEncodable(t: Triangle)
    requires |t.incr| == Rows(t) * Cols(t)
    ensures Encodable(ValuesRecord(t))
  {
    if !UseSparse(t.incr) {
      var k, v, o, d := Length(t.kdims), Length(t.vdims), Length(t.odims), Length(t.ddims);
      assert k * v * o == Rows(t) && d == Cols(t);
      DenseEncodable(t.incr, k, v, o, d);
    }
  }

  lemma {:induction false} FramesEncodable(t: Triangle, n: nat, enc: Frame -> string)
    requires n <= |t.attrs|
    ensures Encodable(JObj(FramesUpTo(t, n, enc)))
  {
    if n > 0 {
      FramesEncodable(t, n - 1, enc);
      if t.attrs[n - 1].1.DataFrame? {
        PutEncodable(FramesUpTo(t, n - 1, enc), Name(t.attrs[n - 1].0), JStr(enc(t.attrs[n - 1].1.frame)));
      }
    }
  }

  lemma {:induction false} SeriesEncodable(t: Triangle, n: nat, enc: Frame -> string)
    requires n <= |t.attrs|
    ensures Encodable(JObj(SeriesUpTo(t, n, enc)))
  {
    if n > 0 {
      SeriesEncodable(t, n - 1, enc);
      if t.attrs[n - 1].1.PdSeries? {
        PutEncodable(SeriesUpTo(t, n - 1, enc), Name(t.attrs[n - 1].0), JStr(enc(ToFrame(t.attrs[n - 1].1.series))));
      }
    }
  }

  lemma {:induction false} SubTrisEncodable(t: Triangle, n: nat, enc: Frame -> string)
    requires Valid(t) && n <= |t.attrs| && SubTrisUpTo(t, n, enc).Ok?
    ensures Encodable(JObj(SubTrisUpTo(t, n, enc).value))
  {
    if n > 0 {
      SubTrisEncodable(t, n - 1, enc);
      if t.attrs[n - 1].1.SubTriangle? {
        var c := t.attrs[n - 1].1.tri;
        PutEncodable(SubTrisUpTo(t, n - 1, enc).value, Name(t.attrs[n - 1].0), JDoc(TriangleJson(c, enc).value));
      }
    }
  }

  /** Line 85: once the dimensions and the children are written, `json.dumps`
      fails exactly when a dimension written by `tolist()` is a non-empty
      DatetimeIndex; everything else in the document is writable. */
  lemma EncodeOutcome(t: Triangle, enc: Frame -> string)
    requires Valid(t) && DimMembers(t).Ok? && SubTrisUpTo(t, |t.attrs|, enc).Ok?
    ensures TriangleJson(t, enc).Ok? <==>
      Writable(t.kdims) && Writable(t.vdims) && Writable(t.odims) && (t.isValTri || Writable(t.ddims))
    ensures TriangleJson(t, enc).Err? ==> TriangleJson(t, enc) == Err(NotSerializable)
  {
    var F, S := FramesUpTo(t, |t.attrs|, enc), SeriesUpTo(t, |t.attrs|, enc);
    DimMembersEncodable(t);
    ValuesEncodable(t);
    FramesEncodable(t, |t.attrs|, enc);
    SeriesEncodable(t, |t.attrs|, enc);
    PutAllEncodable(F, S);
    SubTrisEncodable(t, |t.attrs|, enc);
    ScalarsEncodable(t);
    DocumentEncodable(DimMembers(t).value, ValuesRecord(t), ScalarMembers(t),
                      JObj(SubTrisUpTo(t, |t.attrs|, enc).value), JObj(PutAll(F, S)));
  }

  lemma ScalarsEncodable(t: Triangle)
    requires ValidTimestamp(t.valuationDate)
    ensures Encodable(JObj(ScalarMembers(t)))
  {
  }

  /** Everything but the dimension records is always writable, so a
      document is writable exactly when its dimension records are. */
  lemma DocumentEncodable(dims: seq<(Key, Json)>, values: Json, scalars: seq<(Key, Json)>, subTris: Json, dfs: Json)
    requires Encodable(values) && Encodable(JObj(scalars)) && Encodable(subTris) && Encodable(dfs)
    ensures Encodable(JObj(Document(dims, values, scalars, subTris, dfs))) <==> Encodable(JObj(dims))
  {
    var a := dims + [(Name("values"), values)];
    var b := a + scalars;
    var c := b + [(Name("sub_tris"), subTris)];
    AppendEncodable(dims, [(Name("values"), values)]);
    AppendEncodable(a, scalars);
    AppendEncodable(b, [(Name("sub_tris"), subTris)]);
    AppendEncodable(c, [(Name("dfs"), dfs)]);
  }

  /** The incremental values of the example below, flattened:
      [[10, 20, 20], [NaN, 15, 13], [NaN, NaN, 12]]. */
  function ExampleCells(): seq<Cell> {
    [Num(10.0), Num(20.0), Num(20.0), NaN, Num(15.0), Num(13.0), NaN, NaN, Num(12.0)]
  }

  /** Counted from the last cell back: the three NaN cells are the zeros. */
  lemma ExampleZeros()
    ensures |ExampleCells()| == 9 && ZeroCount(ExampleCells()) == 3
  {
    var c := ExampleCells();
    assert ZeroCount(c[8..]) == 0 by { assert c[8..][1..] == []; }
    assert ZeroCount(c[7..]) == 1 by { assert c[7..][1..] == c[8..]; }
    assert ZeroCount(c[6..]) == 2 by { assert c[6..][1..] == c[7..]; }
    assert ZeroCount(c[5..]) == 2 by { assert c[5..][1..] == c[6..]; }
    assert ZeroCount(c[4..]) == 2 by { assert c[4..][1..] == c[5..]; }
    assert ZeroCount(c[3..]) == 3 by { assert c[3..][1..] == c[4..]; }
    assert ZeroCount(c[2..]) == 3 by { assert c[2..][1..] == c[3..]; }
    assert ZeroCount(c[1..]) == 3 by { assert c[1..][1..] == c[2..]; }
  }

  /** A development triangle of shape (1, 1, 3, 3): origins 2018-2020,
      developments 12, 24 and 36 months. */
  function ExampleTriangle(): Triangle {
    Triangle(
      NdArray("object", [SStr("Total")]),
      NdArray("object", [SStr("paid")]),
      NdArray("int64", [SInt(2018), SInt(2019), SInt(2020)]),
      NdArray("int64", [SInt(12), SInt(24), SInt(36)]),
      ExampleCells(), "float64", ["Total"], "Y", "Y", true, false, Timestamp(2020, 12, 31, 0), [])
  }

  /** Three of the nine cells are NaN, a ratio of 1/3, which is not above
      0.40, so the example takes the dense path. */
  lemma ExampleIsDense()
    ensures var t := ExampleTriangle();
      Valid(t) && ZeroCount(t.incr) == 3 && !UseSparse(t.incr)
  {
    var t := ExampleTriangle();
    ExampleZeros();
    assert Names(t.attrs) == [];
    assert Length(t.kdims) == 1 && Length(t.vdims) == 1 && Length(t.odims) == 3 && Length(t.ddims) == 3;
    assert DaysInMonth(2020, 12) == 31;
  }

  /** The example encodes, its `values` field is the dense record, and its
      values read back exactly. */
  lemma ExampleEncodesDense(enc: Frame -> string)
    ensures Valid(ExampleTriangle()) && TriangleJson(ExampleTriangle(), enc).Ok?
    ensures var t := ExampleTriangle();
      Get(TriangleJson(t, enc).value.members, Name("values")) == Some(ValuesRecord(t)) &&
      ValuesRecord(t).members[2].1 == JBool(false) &&
      DecodeDense(ValuesRecord(t).members[1].1, 1, 1, 3, 3) == Some(t.incr)
  {
    var t := ExampleTriangle();
    ExampleIsDense();
    EncodeOutcome(t, enc);
    ValuesField(t, enc);
    ValuesReadBack(t);
  }
}
