# chainladder triangle and estimator JSON encoders

This project models `chainladder/core/io.py`, which holds the JSON encoders of the
chainladder actuarial library, and proves properties of the model:

- `TriangleIO.to_json` writes a loss triangle as one JSON document. The document holds:
  - the four dimension arrays (`kdims`, `vdims`, `odims`, `ddims`), each as a `{dtype, array}` record;
  - the incremental value array, dense or as a sparse coordinate map (the inner `sparse_out`), depending on how many of its cells are zero or NaN;
  - the scalar fields;
  - each sub-triangle attribute, as its own document (recursively);
  - each DataFrame or Series attribute, as its table encoding.
- `EstimatorIO.to_json` writes an estimator's shallow parameters and class name. Every estimator-valued parameter is replaced by that estimator's own document.
- `EstimatorIO.__contains__` tells whether an instance attribute is set to something other than None.

Modelling choices:

- A JSON tree (`Json.Json`) stands for the text `json.dumps` would write.
  - `JDoc(d)` is a string whose text is `json.dumps(d)`. The source embeds such strings for the sparse array, for every sub-triangle and for every nested estimator.
  - `JTimestamp` is a pandas Timestamp left in the tree, which `json.dumps` refuses.
  - Python's insertion-ordered `dict` is an association list. The triangle encoder fills it key by key through the `Json.Dict` class.
- A triangle (`Triangles.Triangle`) holds:
  - its dimension arrays;
  - its values, already in incremental form (what `cum_to_incr()` returns) and flattened in C order from shape (k, v, o, d);
  - its scalar fields;
  - `vars(self)`, as an ordered list of (name, attribute) pairs.
- The table encoder `DataFrame.to_json` is a parameter `enc` of the encoder.
- `TriangleIO.ToJson` follows the source statement by statement and is proved equal to the function `TriangleIO.TriangleJson`. The lemmas in `TriangleFacts` state what that document holds.
- Each encoding comes with a partner:
  - decoders for the dense and sparse value arrays, with round-trip lemmas;
  - an independent reference definition (`TriangleFacts.Entries`) of the `sub_tris` and `dfs` dicts;
  - exact conditions under which the final `json.dumps` succeeds.

Behaviour of `io.py` worth noting:

- `__contains__` tests for `None`, not for truthiness, so an attribute holding a falsy value such as 0 or "" is contained.
- A triangle with no cells computes 0/0 in the sparsity test. That is NaN, and NaN is not above 0.40, so the dense path is taken. The model states this as `|cells| > 0` in the sparse test.
- `io.py` has no triangle decoder. The decoders here cover only the value array, and they exist to state the round trips.
- `get_params` returns a dict, so an estimator's parameter names never repeat (`EstimatorIO.WellFormed`). The `params` comprehension is modelled with dict assignment (`Json.Put`), so it behaves as Python does on any input.

## Model

| member | source | states |
|---|---|---|
| `Json.Encodable` | chainladder/core/io.py:85 | `json.dumps` succeeds on a tree exactly when no Timestamp is left in it; an embedded `json.dumps` string is always writable |
| `Json.Get` | chainladder/core/io.py:54-56 | `d.get(k)`: the value of the first member with key k; there is a value exactly when k is a key |
| `Json.Put` | chainladder/core/io.py:54-56 | `d[k] = v`: a new key is appended at the end; an existing key keeps the dict's size |
| `Json.PutGet` | chainladder/core/io.py:54-56 | after `d[k] = v`, `d[k]` is v |
| `Json.PutOther` | chainladder/core/io.py:54-56 | `d[k] = v` leaves every other key's value as it was |
| `Json.PutKeys` | chainladder/core/io.py:54-56 | overwriting an existing key keeps the keys and their order |
| `Json.PutFresh` | chainladder/core/io.py:54-56 | setting a new key appends exactly that pair and that key |
| `Json.PutLast` | chainladder/core/io.py:82-84 | re-setting the last key, which is `dfs` once `.update` has changed the dict, replaces its value in place |
| `Json.GetAppend` | chainladder/core/io.py:84 | a lookup in two joined dicts finds the first one's value when it has the key, and the second one's otherwise |
| `Json.PutAll` | chainladder/core/io.py:84 | `update` with keys not yet present appends the new pairs in their order |
| `Json.AppendEncodable` | chainladder/core/io.py:85 | `json.dumps` of a joined dict succeeds exactly when it succeeds on both parts |
| `Json.PutEncodable` | chainladder/core/io.py:85 | setting a writable value in a writable dict leaves it writable |
| `Json.PutAllEncodable` | chainladder/core/io.py:84-85 | updating a writable dict with a writable dict leaves it writable |
| `Json.Dict.constructor` | chainladder/core/io.py:44 | `json_dict = {}` starts empty |
| `Json.Dict.Set` | chainladder/core/io.py:54-56 | the dict after `d[k] = v` is `Put` of the dict before |
| `Json.Dict.Add` | chainladder/core/io.py:47-49 | setting a key not yet present appends the pair, and the key list grows by that key |
| `Json.Dict.Update` | chainladder/core/io.py:84 | the dict after `d.update(others)` is `PutAll` of the dict before, built by a loop with its invariant |
| `Cells.Zeroed` | chainladder/core/io.py:41 | `np.nan_to_num`: the same number of cells, NaN mapped to 0 and every number kept |
| `Cells.ZeroCount` | chainladder/core/io.py:62 | `np.sum(np.nan_to_num(out) == 0)`: the cells that are zero or NaN, never more than there are cells |
| `Cells.UseSparse` | chainladder/core/io.py:62 | the branch condition: more than 40 percent of the cells are zero or NaN, as `5*zeros > 2*total` |
| `Cells.SparseThreshold` | chainladder/core/io.py:62 | the integer test `5*zeros > 2*total` holds exactly when the array is nonempty and `zeros / total > 0.40`; at exactly 40 percent the dense path is taken |
| `Cells.CountsPartition` | chainladder/core/io.py:62 | every cell is counted either as zero-or-NaN or as nonzero |
| `Dates.Strftime` | chainladder/core/io.py:77 | `valuation_date.strftime('%Y-%m-%d')`: four-digit year, two-digit month and day, joined by dashes; the time of day is dropped |
| `Dates.DigitsRoundTrip` | chainladder/core/io.py:77 | a zero-padded decimal field reads back as the number written |
| `Dates.IsoDateRoundTrip` | chainladder/core/io.py:77 | `strftime('%Y-%m-%d')` is ten characters with dashes at positions 4 and 7, and it parses back to the year, month and day |
| `SparseCoo.Coo` | chainladder/core/io.py:41 | `coo_matrix(np.nan_to_num(out.reshape((k*v*o, d))))`: the row, col and data arrays zipped, as the nonzero cells in row-major order |
| `SparseCoo.SparseJson` | chainladder/core/io.py:34-42 | `sparse_out`: the map from each stored (row, col) to its value, embedded as a `json.dumps` string |
| `SparseCoo.EntriesFrom` | chainladder/core/io.py:41 | the scan yields only nonzero cells inside the matrix, each with its own value, in strictly increasing row-major order |
| `SparseCoo.CooSound` | chainladder/core/io.py:41-42 | every coordinate entry lies inside the (k*v*o) x d matrix, holds a nonzero number equal to that cell, and no coordinate repeats |
| `SparseCoo.CooSize` | chainladder/core/io.py:41-42 | there is one entry per cell that is neither zero nor NaN; when the sparse path is chosen, fewer than 60 percent of the cells are stored |
| `SparseCoo.CooRoundTrip` | chainladder/core/io.py:41 | scattering the entries into a zero grid gives back the NaN-zeroed values |
| `SparseCoo.ReadEntries` | chainladder/core/io.py:42 | reading a coordinate map back gives one entry per pair, each inside the matrix |
| `SparseCoo.DecodeSparse` | chainladder/core/io.py:42 | a decoded sparse array has exactly rows*cols cells |
| `SparseCoo.SparseRoundTrip` | chainladder/core/io.py:34-42 | decoding `sparse_out` gives the NaN-zeroed value array: NaN comes back as 0 |
| `SparseCoo.SparseForgetsNaN` | chainladder/core/io.py:41-42 | two arrays that differ only by NaN against 0 get the same sparse encoding |
| `DenseArray.Dense` | chainladder/core/io.py:70 | `out.tolist()`: the value array as lists nested four deep, k lists at the top |
| `DenseArray.CPos` | chainladder/core/io.py:70 | the C-order position `((a*v+b)*o+c)*d+e` of an index inside shape (k, v, o, d) lies inside the flat array |
| `DenseArray.DenseShape` | chainladder/core/io.py:70 | `out.tolist()` is nested k, v, o, d deep, and element (a, b, c, e) is the cell at its C-order position |
| `DenseArray.UngroupGroup` | chainladder/core/io.py:70 | flattening the nested runs gives back the flat list |
| `DenseArray.DenseRoundTrip` | chainladder/core/io.py:70 | decoding the dense array gives back exactly the incremental cells, NaN included |
| `DenseArray.DenseEncodable` | chainladder/core/io.py:70 | the dense array is always writable by `json.dumps` |
| `Triangles.Valid` | chainladder/core/io.py:27-85 | what every triangle reaching `to_json` satisfies: k*v*o*d cells, a real valuation date, unique attribute names (they are `vars(self)` keys), and valid sub-triangles |
| `Triangles.ValuesOf` | chainladder/core/io.py:49 | `ddims.values`: only a DatetimeIndex has it, and it gives a numpy array of the same length |
| `Triangles.ToFrame` | chainladder/core/io.py:84 | `series.to_frame()`: a one-column frame named after the series, with its index |
| `Triangles.ToList` | chainladder/core/io.py:55-56 | `tolist()` gives one element per label |
| `TriangleIO.DimMembers` | chainladder/core/io.py:44-56 | the dimension records in insertion order: `ddims` from `ddims.values` first for a valuation triangle (AttributeError when it has none), otherwise the four in order with `tolist()` |
| `TriangleIO.ValuesRecord` | chainladder/core/io.py:57-71 | the `values` record: `sparse_out` tagged `sparse: True` when `UseSparse` holds, `out.tolist()` tagged `sparse: False` otherwise |
| `TriangleIO.ScalarMembers` | chainladder/core/io.py:72-77 | the six scalar fields in the order they are set, the valuation date written as `%Y-%m-%d` |
| `TriangleIO.SubTrisUpTo` | chainladder/core/io.py:78-80 | the `sub_tris` dict over the first n attributes: each sub-triangle's `to_json()` string under its name; the first child error ends it |
| `TriangleIO.FramesUpTo` | chainladder/core/io.py:81-82 | the DataFrame dict over the first n attributes: each frame's `to_json()` under its name |
| `TriangleIO.SeriesUpTo` | chainladder/core/io.py:83-84 | the Series dict over the first n attributes: each series' `to_frame().to_json()` under its name |
| `TriangleIO.Document` | chainladder/core/io.py:44-84 | the members of `json_dict` in the order they are set: dimensions, `values`, scalars, `sub_tris`, `dfs` |
| `TriangleIO.TriangleJson` | chainladder/core/io.py:27-85 | `TriangleIO.to_json` as a function: the document, or the first error among `ddims.values`, a child's `to_json()` and the final `json.dumps` |
| `TriangleIO.WriteDims` | chainladder/core/io.py:44-56 | the dimension loop fails exactly when a valuation triangle's `ddims` has no `.values`, with AttributeError; otherwise it leaves the records of `DimMembers` in the dict |
| `TriangleIO.DimFresh` | chainladder/core/io.py:53-56 | each dimension the loop writes is a key not yet in the dict |
| `TriangleIO.DimRecordsKeys` | chainladder/core/io.py:53-56 | the loop writes one record per attribute name, in order |
| `TriangleIO.DimMembersKeys` | chainladder/core/io.py:45-56 | the dimension keys are `ddims, kdims, vdims, odims` for a valuation triangle and `kdims, vdims, odims, ddims` otherwise |
| `TriangleIO.WriteValues` | chainladder/core/io.py:57-71 | appends exactly the `values` record: sparse above 40 percent zeros, dense otherwise |
| `TriangleIO.WriteScalars` | chainladder/core/io.py:72-77 | appends the six scalar fields in source order, including the valuation date as `%Y-%m-%d` |
| `TriangleIO.SubTrisErrorSticks` | chainladder/core/io.py:79-80 | once a child's `to_json()` has raised, the `sub_tris` comprehension ends with that error |
| `TriangleIO.SubTris` | chainladder/core/io.py:78-80 | the loop over `vars` calls `to_json()` recursively and gives the `sub_tris` dict, or the first child's error |
| `TriangleIO.WriteFrames` | chainladder/core/io.py:81-82 | the dict holds each DataFrame attribute's table encoding under its name, in `vars` order |
| `TriangleIO.SeriesDict` | chainladder/core/io.py:83-84 | the dict holds each Series attribute's `to_frame()` table encoding under its name, in `vars` order |
| `TriangleIO.ToJson` | chainladder/core/io.py:27-85 | the key-by-key construction gives the document `TriangleJson`, or the error it raises |
| `TriangleFacts.Entries` | chainladder/core/io.py:78-84 | the reference dict of the attributes a selector keeps has at most one entry per attribute |
| `TriangleFacts.EntriesFresh` | chainladder/core/io.py:78-84 | a name no attribute carries is not a key of such a dict |
| `TriangleFacts.EntriesGet` | chainladder/core/io.py:78-84 | under each attribute's name, such a dict holds what the selector makes of that attribute |
| `TriangleFacts.EntriesDistinct` | chainladder/core/io.py:78-84 | no key of such a dict repeats |
| `TriangleFacts.FramesAreEntries` | chainladder/core/io.py:81-82 | the DataFrame comprehension equals the reference dict of the DataFrame attributes |
| `TriangleFacts.SeriesAreEntries` | chainladder/core/io.py:83-84 | the Series comprehension equals the reference dict of the Series attributes |
| `TriangleFacts.SubTrisAreEntries` | chainladder/core/io.py:78-80 | a `sub_tris` dict that succeeds equals the reference dict of the encoded sub-triangles |
| `TriangleFacts.DfsDistinct` | chainladder/core/io.py:81-84 | the frame keys and the Series keys of `dfs` never clash, so `.update` only appends |
| `TriangleFacts.DocKeysDistinct` | chainladder/core/io.py:44-84 | the document's 13 keys are distinct |
| `TriangleFacts.DocKeysInOrder` | chainladder/core/io.py:44-85 | the encoded document is an object whose keys are exactly the 13 keys, in the order they are set |
| `TriangleFacts.DocumentFields` | chainladder/core/io.py:44-84 | with distinct keys, each part is found under its own key |
| `TriangleFacts.DocFields` | chainladder/core/io.py:44-85 | every field of an encoded triangle document reads back as the value that was set |
| `TriangleFacts.DimMembersList` | chainladder/core/io.py:45-56 | the dimension records one by one; a valuation triangle's `ddims` is a DatetimeIndex written as its nanosecond integers |
| `TriangleFacts.DimFields` | chainladder/core/io.py:45-56 | `kdims`, `vdims`, `odims` and `ddims` each hold their `{dtype, array}` record |
| `TriangleFacts.ValTriNdArrayFails` | chainladder/core/io.py:45-49 | a valuation triangle whose `ddims` is a plain array fails with AttributeError on `values` |
| `TriangleFacts.ValuesField` | chainladder/core/io.py:57-71 | the `values` field is the values record |
| `TriangleFacts.ValuesReadBack` | chainladder/core/io.py:57-71 | the values record has keys `dtype, array, sparse` and the sparse flag is the threshold test; a sparse array decodes to the NaN-zeroed values and a dense one to the exact values |
| `TriangleFacts.ScalarFields` | chainladder/core/io.py:72-77 | the five copied scalar fields hold their values, and `valuation_date` parses back to the date's year, month and day |
| `TriangleFacts.SubTrisField` | chainladder/core/io.py:78-80 | `sub_tris` is the reference dict of the encoded sub-triangles |
| `TriangleFacts.SubTriEntry` | chainladder/core/io.py:78-80 | every sub-triangle of an encoded triangle encodes, and `sub_tris` holds its document under its name; no other attribute has a key there |
| `TriangleFacts.ChildErrorFails` | chainladder/core/io.py:78-80 | a sub-triangle that fails to encode makes the whole encoding fail |
| `TriangleFacts.DfsField` | chainladder/core/io.py:81-84 | `dfs` is the DataFrame entries followed by the Series entries |
| `TriangleFacts.DfsEntry` | chainladder/core/io.py:81-84 | under a DataFrame's name `dfs` holds its table encoding, under a Series' name that of its one-column frame; other attributes are absent |
| `TriangleFacts.DimRecordEncodable` | chainladder/core/io.py:53-56 | a dimension record is writable exactly when it is not a nonempty DatetimeIndex, whose `tolist()` gives Timestamps |
| `TriangleFacts.StampRecordEncodable` | chainladder/core/io.py:47-49 | the `ddims.values` record of a valuation triangle is always writable |
| `TriangleFacts.DimMembersEncodable` | chainladder/core/io.py:44-56 | the dimension records are writable exactly when every dimension written with `tolist()` is writable |
| `TriangleFacts.ValuesEncodable` | chainladder/core/io.py:57-71 | the values record is always writable |
| `TriangleFacts.ScalarsEncodable` | chainladder/core/io.py:72-77 | the scalar fields are always writable |
| `TriangleFacts.FramesEncodable` | chainladder/core/io.py:82 | the DataFrame dict is always writable |
| `TriangleFacts.SeriesEncodable` | chainladder/core/io.py:84 | the Series dict is always writable |
| `TriangleFacts.SubTrisEncodable` | chainladder/core/io.py:79-80 | a `sub_tris` dict that succeeds is writable |
| `TriangleFacts.DocumentEncodable` | chainladder/core/io.py:85 | with every other part writable, the document is writable exactly when its dimension records are |
| `TriangleFacts.EncodeOutcome` | chainladder/core/io.py:85 | once the dimensions and the children succeed, `json.dumps` succeeds exactly when no dimension written with `tolist()` is a nonempty DatetimeIndex; otherwise it raises the not-serializable error |
| `TriangleFacts.ExampleZeros` | chainladder/core/io.py:62 | the example grid `[[10, 20, 20], [NaN, 15, 13], [NaN, NaN, 12]]` has 3 of its 9 cells counted as zero |
| `TriangleFacts.ExampleIsDense` | chainladder/core/io.py:62 | the example triangle of shape (1, 1, 3, 3) is well formed and, at a zero ratio of 1/3, takes the dense path |
| `TriangleFacts.ExampleEncodesDense` | chainladder/core/io.py:57-71 | the example triangle encodes; its `values` field is tagged `sparse: false` and its array decodes back to the exact cells, NaN included |
| `EstimatorIO.WellFormed` | chainladder/core/io.py:111 | `get_params` returns a dict, so no parameter name repeats |
| `EstimatorIO.ParamJson` | chainladder/core/io.py:112 | one entry of the comprehension: an estimator becomes its `to_json()` string (AttributeError when its class has none), any other value stays |
| `EstimatorIO.ParamsUpTo` | chainladder/core/io.py:112-113 | the comprehension over the first n parameters, assigning each entry as `d[k] = v` does; the first error ends it |
| `EstimatorIO.EstimatorJson` | chainladder/core/io.py:104-116 | `EstimatorIO.to_json` as a function: `{params, __class__}`, or the first error, or NotSerializable from `json.dumps` |
| `EstimatorIO.ParamsKeys` | chainladder/core/io.py:111-113 | the `params` dict has one key per parameter, in `get_params` order |
| `EstimatorIO.ParamsAt` | chainladder/core/io.py:112-113 | entry i is parameter i: an estimator as its `to_json()` string, any other value unchanged |
| `EstimatorIO.ParamsOk` | chainladder/core/io.py:112-113 | the comprehension succeeds exactly when every entry does |
| `EstimatorIO.ParamsFirstError` | chainladder/core/io.py:112-113 | when the comprehension fails, it fails with the first failing entry's error |
| `EstimatorIO.ParamEntry` | chainladder/core/io.py:112-113 | with unique names, `params` lists exactly the parameter names, and each name holds that parameter's converted value |
| `EstimatorIO.ParamsEncodable` | chainladder/core/io.py:112-116 | the `params` dict is writable exactly when every plain parameter is; estimator documents are strings already |
| `EstimatorIO.EstimatorFields` | chainladder/core/io.py:111-116 | the document has exactly the keys `params` and `__class__`; `__class__` is the class name; `params` holds every parameter under its own name |
| `EstimatorIO.EstimatorOutcome` | chainladder/core/io.py:111-116 | encoding succeeds exactly when every estimator parameter has `to_json` and encodes, and every other parameter is writable |
| `EstimatorIO.GetField` | chainladder/core/io.py:119 | `self.__dict__.get(value, None)`: the attribute's value, None when it is missing |
| `EstimatorIO.ParamsSnoc` | chainladder/core/io.py:112-113 | with unique names, each parameter's entry is new to the dict and goes at the end |
| `EstimatorIO.Contains` | chainladder/core/io.py:118-121 | `name in est` holds exactly when the attribute is present and not None |
| `EstimatorIO.ContainsCases` | chainladder/core/io.py:118-121 | the test is the None test: missing and None are not contained, and 0, False, "" and [] are |

## Left out

- `to_pickle` (io.py lines 14-25 and 92-102) is a call into joblib's binary snapshot. It has no logic of its own to model.
- The GPU backend branch (`cp.get_array_module` and `cp.asnumpy`, lines 36-40 and 57-61) only copies an array to the host. The model starts from host values.
- `TriangleIO.TriangleJson`: the table encoder `enc` is taken as total. pandas `DataFrame.to_json()` raises ValueError on a frame whose index or columns are not unique (lines 82 and 84), and the model does not capture that error. So `TriangleFacts.EncodeOutcome` covers only the errors from `ddims.values`, from a sub-triangle and from the final `json.dumps`.
- `SparseCoo.SparseJson`: the cells are float64 only. With float32 or integer values, `coo.data` holds numpy scalars that the inner `json.dumps` at line 42 refuses with TypeError, while the dense path writes them through `tolist()`. The model's sparse path always succeeds.
- `cum_to_incr()` is not part of this model. The triangle carries its incremental values directly.
- `DataFrame.to_json` and `Series.to_frame` are pandas internals. The table encoder is the parameter `enc`, and `to_frame` is a one-column frame named after the series.
- The internals of `scipy.sparse.coo_matrix` are left out. Its (row, col, data) output is specified directly as the nonzero cells in row-major order, which is what it yields for a dense input.
- The text `json.dumps` writes is left out: spacing, escaping, number formatting, and the spelling of the sparse keys `str((row, col))`, which depends on the numpy version. A key is kept as its coordinate pair.
- dtype names are opaque strings taken from the arrays.
- `np.nan_to_num` maps infinities to large finite numbers. Cells here are numbers or NaN only.
- The ratio test at line 62 divides in floating point. The model uses exact arithmetic, `5*zeros > 2*total`, so ratios within rounding of 0.40 may fall on the other side than in float64.
- The order of `vars(self)` is taken as a given list of (name, attribute) pairs. `get_params(deep=False)` is a given ordered list, and `__dict__` is a given map.
- Values other than estimators, triangles, frames and series are abstract. Any parameter value is a JSON tree, where `JTimestamp` stands for any value `json.dumps` refuses.
- In the source, `json_dict['dfs']` and the dict that `.update` extends are one object. `TriangleIO.ToJson` re-sets `dfs` after the update instead of sharing the dict, and `Json.PutLast` proves the two give the same document.
- Decoding a whole triangle document is left out, because the source has no decoder. Only the dense and sparse value arrays are decoded, to state the round trips.
