/**
 * `TriangleIO.to_json`: the JSON document of a triangle. `TriangleJson` is
 * the document the source builds, written as a function; `ToJson` builds it
 * the way the source does, key by key into a dict, and is proved to give the
 * same result. The lemmas state what the document holds.
 *
 * The result is the document before the final `json.dumps`; a string the
 * source embeds (a child triangle, the sparse array) is a `JDoc`. The table
 * encoder `DataFrame.to_json` is the parameter `enc`.
 */
module TriangleIO {
  import opened Wrappers
  import opened Json
  import opened Cells
  import opened Dates
  import opened SparseCoo
  import opened DenseArray
  import opened Triangles

  predicate IsDimName(name: string) {
    name == "kdims" || name == "vdims" || name == "odims" || name == "ddims"
  }

  /** `getattr(self, name)` for the four dimension attributes. */
  function Dim(t: Triangle, name: string): DimArray
    requires IsDimName(name)
  {
    if name == "kdims" then t.kdims
    else if name == "vdims" then t.vdims
    else if name == "odims" then t.odims
    else t.ddims
  }

  /** `{'dtype': ..., 'array': ...}` */
  function DimRecord(dtype: string, list: seq<Json>): Json {
    JObj([(Name("dtype"), JStr(dtype)), (Name("array"), JArr(list))])
  }

  /** `{'dtype': ..., 'array': a.tolist()}` for a dimension array. */
  function DimJson(a: DimArray): Json {
    DimRecord(DtypeName(a), ToList(a))
  }

  /** The records the loop over `attributes` writes. */
  function DimRecords(t: Triangle, names: seq<string>): seq<(Key, Json)>
    requires forall i :: 0 <= i < |names| ==> IsDimName(names[i])
  {
    seq(|names|, i requires 0 <= i < |names| =>
      (Name(names[i]), DimJson(Dim(t, names[i]))))
  }

  /** The dimension records, in the order they enter the dict. For a
      valuation triangle `ddims` comes first and is listed from
      `ddims.values`, which a plain numpy array does not have. */
  function DimMembers(t: Triangle): Result<seq<(Key, Json)>, EncodeError> {
    if t.isValTri then
      match ValuesOf(t.ddims)
      case None => Err(AttributeError("values"))
      case Some(vals) =>
        Ok([(Name("ddims"), DimRecord(DtypeName(t.ddims), ToList(vals)))] +
           DimRecords(t, ["kdims", "vdims", "odims"]))
    else Ok(DimRecords(t, ["kdims", "vdims", "odims", "ddims"]))
  }

  /** `json_dict['values']`: sparse when more than 40 percent of the cells
      are zero after NaN is mapped to 0, dense otherwise. */
  function ValuesRecord(t: Triangle): Json
    requires |t.incr| == Rows(t) * Cols(t)
  {
    if UseSparse(t.incr) then
      JObj([(Name("dtype"), JStr(t.valuesDtype)),
            (Name("array"), SparseJson(t.incr, Rows(t), Cols(t))),
            (Name("sparse"), JBool(true))])
    else
      JObj([(Name("dtype"), JStr(t.valuesDtype)),
            (Name("array"), Dense(t.incr, Length(t.kdims), Length(t.vdims), Length(t.odims), Length(t.ddims))),
            (Name("sparse"), JBool(false))])
  }

  function StringList(ss: seq<string>): Json {
    JArr(seq(|ss|, i requires 0 <= i < |ss| => JStr(ss[i])))
  }

  /** The scalar fields, copied in order. */
  function ScalarMembers(t: Triangle): seq<(Key, Json)>
    requires ValidTimestamp(t.valuationDate)
  {
    [(Name("key_labels"), StringList(t.keyLabels)),
     (Name("origin_grain"), JStr(t.originGrain)),
     (Name("development_grain"), JStr(t.developmentGrain)),
     (Name("is_cumulative"), JBool(t.isCumulative)),
     (Name("is_val_tri"), JBool(t.isValTri)),
     (Name("valuation_date"), JStr(Strftime(t.valuationDate)))]
  }

  /** The `sub_tris` dict over the first n attributes: each sub-triangle's
      own document, as the string its `to_json()` returns. The first child
      that fails stops the encoding with its error. */
  function SubTrisUpTo(t: Triangle, n: nat, enc: Frame -> string): Result<seq<(Key, Json)>, EncodeError>
    requires Valid(t) && n <= |t.attrs|
    decreases t, n
  {
    if n == 0 then Ok([])
    else
      match SubTrisUpTo(t, n - 1, enc)
      case Err(e) => Err(e)
      case Ok(ms) =>
        match t.attrs[n - 1].1
        case SubTriangle(c) =>
          (match TriangleJson(c, enc)
           case Err(e) => Err(e)
           case Ok(doc) => Ok(Put(ms, Name(t.attrs[n - 1].0), JDoc(doc))))
        case _ => Ok(ms)
  }

  /** The DataFrame part of `dfs` over the first n attributes. */
  function FramesUpTo(t: Triangle, n: nat, enc: Frame -> string): seq<(Key, Json)>
    requires n <= |t.attrs|
  {
    if n == 0 then []
    else
      var ms := FramesUpTo(t, n - 1, enc);
      match t.attrs[n - 1].1
      case DataFrame(f) => Put(ms, Name(t.attrs[n - 1].0), JStr(enc(f)))
      case _ => ms
  }

  /** The Series part of `dfs` over the first n attributes: each series is
      encoded as the one-column frame `to_frame()` makes of it. */
  function SeriesUpTo(t: Triangle, n: nat, enc: Frame -> string): seq<(Key, Json)>
    requires n <= |t.attrs|
  {
    if n == 0 then []
    else
      var ms := SeriesUpTo(t, n - 1, enc);
      match t.attrs[n - 1].1
      case PdSeries(s) => Put(ms, Name(t.attrs[n - 1].0), JStr(enc(ToFrame(s))))
      case _ => ms
  }

  /** `TriangleIO.to_json` up to the final `json.dumps`, which fails when a
      Timestamp is left in the document. */
  function TriangleJson(t: Triangle, enc: Frame -> string): Result<Json, EncodeError>
    requires Valid(t)
    decreases t, |t.attrs| + 1
  {
    match DimMembers(t)
    case Err(e) => Err(e)
    case Ok(dims) =>
      match SubTrisUpTo(t, |t.attrs|, enc)
      case Err(e) => Err(e)
      case Ok(subs) =>
        var dfs := PutAll(FramesUpTo(t, |t.attrs|, enc), SeriesUpTo(t, |t.attrs|, enc));
        var doc := JObj(Document(dims, ValuesRecord(t), ScalarMembers(t), JObj(subs), JObj(dfs)));
        if Encodable(doc) then Ok(doc) else Err(NotSerializable)
  }

  /** The members of the document, in the order `to_json` sets them. */
  function Document(dims: seq<(Key, Json)>, values: Json, scalars: seq<(Key, Json)>,
                    subTris: Json, dfs: Json): seq<(Key, Json)> {
    dims + [(Name("values"), values)] + scalars + [(Name("sub_tris"), subTris)] + [(Name("dfs"), dfs)]
  }

  /** Once a child has failed, the sub_tris dict stays failed. */
  lemma {:induction false} SubTrisErrorSticks(t: Triangle, n: nat, m: nat, enc: Frame -> string)
    requires Valid(t) && n <= m <= |t.attrs|
    requires SubTrisUpTo(t, n, enc).Err?
    ensures SubTrisUpTo(t, m, enc) == SubTrisUpTo(t, n, enc)
    decreases m
  {
    if n < m {
      SubTrisErrorSticks(t, n, m - 1, enc);
    }
  }

  lemma DimRecordsKeys(t: Triangle, ns: seq<string>)
    requires forall i :: 0 <= i < |ns| ==> IsDimName(ns[i])
    ensures Keys(DimRecords(t, ns)) == NameKeys(ns)
  {
  }

  /** The dimension written at step i of the loop is not yet a key: the
      names written before it are `pre` and the earlier loop names. */
  lemma DimFresh(t: Triangle, start: seq<(Key, Json)>, pre: seq<string>, ns: seq<string>, i: nat)
    requires Keys(start) == NameKeys(pre) && Distinct(pre + ns) && i < |ns|
    requires forall j :: 0 <= j < |ns| ==> IsDimName(ns[j])
    ensures Name(ns[i]) !in Keys(start + DimRecords(t, ns[..i]))
  {
    KeysAppend(start, DimRecords(t, ns[..i]));
    DimRecordsKeys(t, ns[..i]);
    var all := pre + ns;
    assert all[|pre| + i] == ns[i];
    forall j | 0 <= j < |pre|
      ensures NameKeys(pre)[j] != Name(ns[i])
    {
      assert all[j] == pre[j];
    }
    forall j | 0 <= j < i
      ensures NameKeys(ns[..i])[j] != Name(ns[i])
    {
      assert all[|pre| + j] == ns[j];
    }
  }

  lemma DimRecordsSnoc(t: Triangle, ns: seq<string>, i: nat)
    requires i < |ns| && forall j :: 0 <= j < |ns| ==> IsDimName(ns[j])
    ensures DimRecords(t, ns[..i + 1]) ==
      DimRecords(t, ns[..i]) + [(Name(ns[i]), DimJson(Dim(t, ns[i])))]
  {
  }

  /** The names written before the loop and by it are four distinct
      dimension names. */
  lemma DimOrder(valTri: bool, pre: seq<string>, ns: seq<string>)
    requires valTri ==> pre == ["ddims"] && ns == ["kdims", "vdims", "odims"]
    requires !valTri ==> pre == [] && ns == ["kdims", "vdims", "odims", "ddims"]
    ensures Distinct(pre + ns)
  {
  }

  /** Lines 44-56: the dimension records written into `json`. */
  method WriteDims(t: Triangle, json: Dict) returns (err: Option<EncodeError>)
    requires json.members == []
    modifies json
    ensures err.None? <==> DimMembers(t).Ok?
    ensures err.Some? ==> DimMembers(t) == Err(err.value)
    ensures err.None? ==> json.members == DimMembers(t).value
  {
    var attributes: seq<string>;
    ghost var pre: seq<string>;
    if t.isValTri {
      var ddims := t.ddims;
      var vals := ValuesOf(ddims);
      if vals.None? {
        return Some(AttributeError("values"));
      }
      json.Add(Name("ddims"), DimRecord(DtypeName(ddims), ToList(vals.value)));
      attributes := ["kdims", "vdims", "odims"];
      pre := ["ddims"];
    } else {
      attributes := ["kdims", "vdims", "odims", "ddims"];
      pre := [];
    }
    ghost var start := json.members;
    DimOrder(t.isValTri, pre, attributes);
    assert Keys(start) == NameKeys(pre);
    for i := 0 to |attributes|
      invariant json.members == start + DimRecords(t, attributes[..i])
    {
      var a := Dim(t, attributes[i]);
      DimFresh(t, start, pre, attributes, i);
      json.Add(Name(attributes[i]), DimJson(a));
      DimRecordsSnoc(t, attributes, i);
    }
    assert attributes[..|attributes|] == attributes;
    return None;
  }

  /** The keys of the dimension records, in the order they are written. */
  function DimKeys(t: Triangle): seq<Key> {
    if t.isValTri then [Name("ddims"), Name("kdims"), Name("vdims"), Name("odims")]
    else [Name("kdims"), Name("vdims"), Name("odims"), Name("ddims")]
  }

  lemma DimMembersKeys(t: Triangle)
    requires DimMembers(t).Ok?
    ensures Keys(DimMembers(t).value) == DimKeys(t)
  {
    if t.isValTri {
      var ns := ["kdims", "vdims", "odims"];
      DimRecordsKeys(t, ns);
      var first := DimMembers(t).value[0];
      assert DimMembers(t).value == [first] + DimRecords(t, ns);
      KeysAppend([first], DimRecords(t, ns));
      assert NameKeys(ns) == [Name("kdims"), Name("vdims"), Name("odims")];
    } else {
      var ns := ["kdims", "vdims", "odims", "ddims"];
      DimRecordsKeys(t, ns);
      assert NameKeys(ns) == [Name("kdims"), Name("vdims"), Name("odims"), Name("ddims")];
    }
  }

  /** Lines 57-71: the values record. */
  method WriteValues(t: Triangle, json: Dict)
    requires |t.incr| == Rows(t) * Cols(t)
    requires Name("values") !in Keys(json.members)
    modifies json
    ensures json.members == old(json.members) + [(Name("values"), ValuesRecord(t))]
    ensures Keys(json.members) == Keys(old(json.members)) + [Name("values")]
  {
    var out := t.incr;
    var k, v, o, d := Length(t.kdims), Length(t.vdims), Length(t.odims), Length(t.ddims);
    assert k * v * o == Rows(t) && d == Cols(t);
    assert |out| == k * v * o * d;
    if UseSparse(out) {
      json.Add(Name("values"), JObj([(Name("dtype"), JStr(t.valuesDtype)),
                                     (Name("array"), SparseJson(out, k * v * o, d)),
                                     (Name("sparse"), JBool(true))]));
    } else {
      json.Add(Name("values"), JObj([(Name("dtype"), JStr(t.valuesDtype)),
                                     (Name("array"), Dense(out, k, v, o, d)),
                                     (Name("sparse"), JBool(false))]));
    }
  }

  /** The keys of the scalar fields, in the order they are set. */
  const ScalarKeys: seq<Key> := [Name("key_labels"), Name("origin_grain"), Name("development_grain"),
                                 Name("is_cumulative"), Name("is_val_tri"), Name("valuation_date")]

  /** Each scalar key is new when it is set after the dimension records and
      the values record. */
  lemma ScalarKeysFresh(t: Triangle)
    ensures var ks := DimKeys(t) + [Name("values")];
      Name("key_labels") !in ks && Name("origin_grain") !in ks &&
      Name("development_grain") !in ks && Name("is_cumulative") !in ks &&
      Name("is_val_tri") !in ks && Name("valuation_date") !in ks
  {
  }

  /** `sub_tris` and `dfs` are new when they are set last. */
  lemma LateKeysFresh(t: Triangle)
    ensures Name("sub_tris") !in DimKeys(t) + [Name("values")] + ScalarKeys
    ensures Name("dfs") !in DimKeys(t) + [Name("values")] + ScalarKeys + [Name("sub_tris")]
  {
  }

  /** Lines 72-77: the scalar fields. */
  method WriteScalars(t: Triangle, json: Dict)
    requires ValidTimestamp(t.valuationDate)
    requires Name("key_labels") !in Keys(json.members) && Name("origin_grain") !in Keys(json.members)
    requires Name("development_grain") !in Keys(json.members) && Name("is_cumulative") !in Keys(json.members)
    requires Name("is_val_tri") !in Keys(json.members) && Name("valuation_date") !in Keys(json.members)
    modifies json
    ensures json.members == old(json.members) + ScalarMembers(t)
    ensures Keys(json.members) == Keys(old(json.members)) + ScalarKeys
  {
    ghost var m0 := json.members;
    var labels := StringList(t.keyLabels);
    var date := JStr(Strftime(t.valuationDate));
    json.Add(Name("key_labels"), labels);
    json.Add(Name("origin_grain"), JStr(t.originGrain));
    json.Add(Name("development_grain"), JStr(t.developmentGrain));
    json.Add(Name("is_cumulative"), JBool(t.isCumulative));
    json.Add(Name("is_val_tri"), JBool(t.isValTri));
    json.Add(Name("valuation_date"), date);
    AppendSix(m0, (Name("key_labels"), labels), (Name("origin_grain"), JStr(t.originGrain)),
              (Name("development_grain"), JStr(t.developmentGrain)), (Name("is_cumulative"), JBool(t.isCumulative)),
              (Name("is_val_tri"), JBool(t.isValTri)), (Name("valuation_date"), date));
    AppendSix(Keys(m0), Name("key_labels"), Name("origin_grain"), Name("development_grain"),
              Name("is_cumulative"), Name("is_val_tri"), Name("valuation_date"));
  }

  lemma AppendSix<T>(m: seq<T>, a: T, b: T, c: T, d: T, e: T, f: T)
    ensures m + [a] + [b] + [c] + [d] + [e] + [f] == m + [a, b, c, d, e, f]
  {
  }

  /** Lines 78-80: the `sub_tris` dict, one recursive `to_json()` per child. */
  method SubTris(t: Triangle, enc: Frame -> string) returns (r: Result<seq<(Key, Json)>, EncodeError>)
    requires Valid(t)
    ensures r == SubTrisUpTo(t, |t.attrs|, enc)
    decreases t, |t.attrs|
  {
    var subTris := new Dict();
    for i := 0 to |t.attrs|
      invariant SubTrisUpTo(t, i, enc) == Ok(subTris.members)
    {
      match t.attrs[i].1 {
        case SubTriangle(c) =>
          var child := ToJson(c, enc);
          if child.Err? {
            SubTrisErrorSticks(t, i + 1, |t.attrs|, enc);
            return Err(child.error);
          }
          subTris.Set(Name(t.attrs[i].0), JDoc(child.value));
        case _ =>
      }
    }
    return Ok(subTris.members);
  }

  /** Line 82: the DataFrame attributes written into `dfs`. */
  method WriteFrames(t: Triangle, enc: Frame -> string, dfs: Dict)
    requires dfs.members == []
    modifies dfs
    ensures dfs.members == FramesUpTo(t, |t.attrs|, enc)
  {
    for i := 0 to |t.attrs|
      invariant FramesUpTo(t, i, enc) == dfs.members
    {
      if t.attrs[i].1.DataFrame? {
        dfs.Set(Name(t.attrs[i].0), JStr(enc(t.attrs[i].1.frame)));
      }
    }
  }

  /** Line 84: the dict of Series attributes, each as a one-column frame. */
  method SeriesDict(t: Triangle, enc: Frame -> string) returns (ms: seq<(Key, Json)>)
    ensures ms == SeriesUpTo(t, |t.attrs|, enc)
  {
    var series := new Dict();
    for i := 0 to |t.attrs|
      invariant SeriesUpTo(t, i, enc) == series.members
    {
      if t.attrs[i].1.PdSeries? {
        series.Set(Name(t.attrs[i].0), JStr(enc(ToFrame(t.attrs[i].1.series))));
      }
    }
    return series.members;
  }

  /** `to_json` as the source runs it: `json_dict` is filled key by key, and
      `json_dict['dfs']` is the very dict that `.update` later extends. */
  method ToJson(t: Triangle, enc: Frame -> string) returns (r: Result<Json, EncodeError>)
    requires Valid(t)
    ensures r == TriangleJson(t, enc)
    decreases t, |t.attrs| + 1
  {
    var json := new Dict();
    var err := WriteDims(t, json);
    if err.Some? {
      return Err(err.value);
    }
    DimMembersKeys(t);
    WriteValues(t, json);
    ScalarKeysFresh(t);
    WriteScalars(t, json);
    var subs := SubTris(t, enc);
    if subs.Err? {
      return Err(subs.error);
    }
    LateKeysFresh(t);
    json.Add(Name("sub_tris"), JObj(subs.value));
    var dfs := new Dict();
    WriteFrames(t, enc, dfs);
    ghost var before := json.members;
    json.Add(Name("dfs"), JObj(dfs.members));
    var series := SeriesDict(t, enc);
    dfs.Update(series);
    PutLast(before, Name("dfs"), JObj(FramesUpTo(t, |t.attrs|, enc)), JObj(dfs.members));
    json.Set(Name("dfs"), JObj(dfs.members));
    var doc := JObj(json.members);
    if !Encodable(doc) {
      return Err(NotSerializable);
    }
    return Ok(doc);
  }
}
