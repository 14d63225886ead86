/**
 * The JSON values the encoders build before `json.dumps` turns them into
 * text, and the insertion-ordered dictionary that Python's `dict` is.
 */
module Json {
  import opened Wrappers

  /** An object key: a plain name, or the "(row, col)" string the sparse
      encoder spells from a coordinate pair. */
  datatype Key = Name(name: string) | Coord(row: nat, col: nat)

  datatype Json =
    | JNull
    | JBool(b: bool)
    | JInt(i: int)
    | JNum(x: real)
    | JNaN                      // the `NaN` token json.dumps writes for a float nan
    | JStr(s: string)
    | JDoc(doc: Json)           // a string whose text is json.dumps(doc)
    | JArr(items: seq<Json>)
    | JObj(members: seq<(Key, Json)>)
    | JTimestamp(ns: int)       // a pandas Timestamp left in the tree; json.dumps refuses it

  /** The exceptions the encoders can raise. */
  datatype EncodeError =
    | AttributeError(attr: string)   // an attribute lookup on an object that lacks it
    | NotSerializable                // json.dumps met a value it cannot write

  /** json.dumps succeeds on a tree exactly when no Timestamp is left in it.
      A JDoc is already text, so it is always writable. */
  predicate Encodable(j: Json) {
    match j
    case JTimestamp(_) => false
    case JArr(items) => forall i :: 0 <= i < |items| ==> Encodable(items[i])
    case JObj(ms) => forall i :: 0 <= i < |ms| ==> Encodable(ms[i].1)
    case _ => true
  }

  function Keys(ms: seq<(Key, Json)>): seq<Key> {
    seq(|ms|, i requires 0 <= i < |ms| => ms[i].0)
  }

  /** The names of a list of named values, in order: the attribute names of
      `vars(self)`, or the parameter names of `get_params()`. */
  function Names<V>(ps: seq<(string, V)>): seq<string> {
    seq(|ps|, i requires 0 <= i < |ps| => ps[i].0)
  }

  /** The keys a list of names gives. */
  function NameKeys(ns: seq<string>): seq<Key> {
    seq(|ns|, i requires 0 <= i < |ns| => Name(ns[i]))
  }

  predicate Distinct<T(==)>(s: seq<T>) {
    forall i, j :: 0 <= i < j < |s| ==> s[i] != s[j]
  }

  /** Position of the first member with key k; |ms| when there is none. */
  function IndexOf(ms: seq<(Key, Json)>, k: Key): (i: nat)
    ensures i <= |ms|
    ensures i < |ms| ==> ms[i].0 == k
    ensures forall j :: 0 <= j < i ==> ms[j].0 != k
  {
    if ms == [] then 0
    else if ms[0].0 == k then 0
    else 1 + IndexOf(ms[1..], k)
  }

  lemma IndexOfMissing(ms: seq<(Key, Json)>, k: Key)
    ensures IndexOf(ms, k) == |ms| <==> k !in Keys(ms)
  {
    var i := IndexOf(ms, k);
    if i < |ms| {
      assert Keys(ms)[i] == k;
    }
  }

  /** The first position holding k is the position IndexOf finds. */
  lemma IndexOfAt(ms: seq<(Key, Json)>, k: Key, i: nat)
    requires i < |ms| && ms[i].0 == k && forall j :: 0 <= j < i ==> ms[j].0 != k
    ensures IndexOf(ms, k) == i
  {
  }

  /** `d.get(k)` on an association list: the first member with key k. */
  function Get(ms: seq<(Key, Json)>, k: Key): (r: Option<Json>)
    ensures r.Some? <==> k in Keys(ms)
  {
    IndexOfMissing(ms, k);
    var i := IndexOf(ms, k);
    if i == |ms| then None else Some(ms[i].1)
  }

  /** `d[k] = v` on a Python dict: a key already present keeps its place and
      takes the new value; a new key goes at the end. */
  function Put(ms: seq<(Key, Json)>, k: Key, v: Json): (r: seq<(Key, Json)>)
    ensures k !in Keys(ms) ==> r == ms + [(k, v)]
    ensures k in Keys(ms) ==> |r| == |ms|
  {
    IndexOfMissing(ms, k);
    var i := IndexOf(ms, k);
    if i == |ms| then ms + [(k, v)] else ms[i := (k, v)]
  }

  /** After `d[k] = v`, `d[k]` is v. */
  lemma PutGet(ms: seq<(Key, Json)>, k: Key, v: Json)
    ensures Get(Put(ms, k, v), k) == Some(v)
  {
    var r := Put(ms, k, v);
    IndexOfMissing(ms, k);
    if IndexOf(ms, k) < |ms| {
      assert IndexOf(r, k) == IndexOf(ms, k) by {
        var i := IndexOf(r, k);
        assert r[IndexOf(ms, k)].0 == k;
        assert forall j :: 0 <= j < IndexOf(ms, k) ==> r[j] == ms[j];
      }
    } else {
      assert r[|ms|].0 == k;
      assert forall j :: 0 <= j < |ms| ==> r[j] == ms[j];
    }
  }

  /** Assigning to a key the dict holds keeps every key in its place. */
  lemma PutKeys(ms: seq<(Key, Json)>, k: Key, v: Json)
    requires k in Keys(ms)
    ensures Keys(Put(ms, k, v)) == Keys(ms)
  {
    IndexOfMissing(ms, k);
  }

  /** Every member of `d` after `d[k] = v` is a member from before or (k, v). */
  lemma PutMembers(ms: seq<(Key, Json)>, k: Key, v: Json)
    ensures var r := Put(ms, k, v);
      (|r| == |ms| || (|r| == |ms| + 1 && r[|ms|] == (k, v))) &&
      forall j :: 0 <= j < |ms| ==> r[j] == ms[j] || r[j] == (k, v)
  {
    IndexOfMissing(ms, k);
  }

  /** `d[k] = v` leaves every other key's value as it was. */
  lemma PutOther(ms: seq<(Key, Json)>, k: Key, v: Json, k': Key)
    requires k' != k
    ensures Get(Put(ms, k, v), k') == Get(ms, k')
  {
    var r := Put(ms, k, v);
    PutMembers(ms, k, v);
    var i' := IndexOf(ms, k');
    IndexOfMissing(ms, k');
    IndexOfMissing(r, k');
    if i' < |ms| {
      assert r[i'] == ms[i'];
      assert forall j :: 0 <= j < i' ==> r[j].0 != k';
    } else {
      assert forall j :: 0 <= j < |r| ==> r[j].0 != k';
      assert k' !in Keys(r);
    }
  }

  /** Assigning a key the dict does not hold appends one member. */
  lemma PutFresh(ms: seq<(Key, Json)>, k: Key, v: Json)
    requires k !in Keys(ms)
    ensures Put(ms, k, v) == ms + [(k, v)]
    ensures Keys(ms + [(k, v)]) == Keys(ms) + [k]
  {
  }

  lemma KeysAppend(a: seq<(Key, Json)>, b: seq<(Key, Json)>)
    ensures Keys(a + b) == Keys(a) + Keys(b)
  {
  }

  /** Looking up a key in two lists joined: the first list wins. */
  lemma GetAppend(a: seq<(Key, Json)>, b: seq<(Key, Json)>, k: Key)
    ensures Get(a + b, k) == if k in Keys(a) then Get(a, k) else Get(b, k)
  {
    IndexOfMissing(a, k);
    IndexOfMissing(a + b, k);
    IndexOfMissing(b, k);
    var i := IndexOf(a, k);
    if i < |a| {
      IndexOfAt(a + b, k, i);
    } else {
      assert forall j :: 0 <= j < |a| ==> (a + b)[j].0 != k;
      var ib := IndexOf(b, k);
      if ib < |b| {
        assert forall j :: |a| <= j < |a| + ib ==> (a + b)[j] == b[j - |a|];
        IndexOfAt(a + b, k, |a| + ib);
      } else {
        assert forall j :: 0 <= j < |a + b| ==> (a + b)[j].0 != k;
      }
    }
  }

  /** Assigning again to the key inserted last replaces its value in place. */
  lemma PutLast(ms: seq<(Key, Json)>, k: Key, v1: Json, v2: Json)
    requires k !in Keys(ms)
    ensures Put(ms + [(k, v1)], k, v2) == ms + [(k, v2)]
  {
    var m := ms + [(k, v1)];
    assert forall j :: 0 <= j < |ms| ==> m[j].0 == Keys(ms)[j];
    assert m[|ms|].0 == k;
  }

  /** With unique keys, looking up the key of any member finds that member. */
  lemma GetAt(ms: seq<(Key, Json)>, i: nat)
    requires Distinct(Keys(ms)) && i < |ms|
    ensures Get(ms, ms[i].0) == Some(ms[i].1)
  {
    forall j | 0 <= j < i
      ensures ms[j].0 != ms[i].0
    {
      assert Keys(ms)[j] != Keys(ms)[i];
    }
  }

  /** `d.update(others)`: each pair of `others` assigned in order. */
  function PutAll(ms: seq<(Key, Json)>, others: seq<(Key, Json)>): (r: seq<(Key, Json)>)
    ensures Distinct(Keys(ms + others)) ==> r == ms + others
  {
    if others == [] then
      assert ms + others == ms;
      ms
    else
      var n := |others| - 1;
      var front := PutAll(ms, others[..n]);
      assert ms + others == (ms + others[..n]) + [others[n]];
      if Distinct(Keys(ms + others)) then
        DistinctSnoc(ms + others[..n], others[n]);
        Put(front, others[n].0, others[n].1)
      else
        Put(front, others[n].0, others[n].1)
  }

  /** Putting a new element between two parts of a list of unique elements
      keeps them unique. */
  lemma DistinctInsert<T>(x: seq<T>, a: T, y: seq<T>)
    requires Distinct(x + y) && a !in x && a !in y
    ensures Distinct(x + [a] + y)
  {
    var s, u := x + [a] + y, x + y;
    forall i, j | 0 <= i < j < |s| ensures s[i] != s[j] {
      if j < |x| {
        assert s[i] == u[i] && s[j] == u[j];
      } else if j == |x| {
        assert s[i] == x[i];
      } else if i < |x| {
        assert s[i] == u[i] && s[j] == u[j - 1];
      } else if i == |x| {
        assert s[j] == y[j - |x| - 1];
      } else {
        assert s[i] == u[i - 1] && s[j] == u[j - 1];
      }
    }
  }

  lemma DistinctSnoc(a: seq<(Key, Json)>, x: (Key, Json))
    requires Distinct(Keys(a + [x]))
    ensures Distinct(Keys(a)) && x.0 !in Keys(a)
  {
    var ks := Keys(a + [x]);
    assert forall i :: 0 <= i < |a| ==> Keys(a)[i] == ks[i];
    forall i | 0 <= i < |a| ensures Keys(a)[i] != x.0 {
      assert ks[|a|] == x.0;
    }
  }

  /** An object joined from two is writable exactly when both parts are. */
  lemma AppendEncodable(a: seq<(Key, Json)>, b: seq<(Key, Json)>)
    ensures Encodable(JObj(a + b)) <==> Encodable(JObj(a)) && Encodable(JObj(b))
  {
    if Encodable(JObj(a)) && Encodable(JObj(b)) {
      forall i | 0 <= i < |a + b| ensures Encodable((a + b)[i].1) {
        if i >= |a| {
          assert (a + b)[i] == b[i - |a|];
        }
      }
    }
    if Encodable(JObj(a + b)) {
      forall i | 0 <= i < |a| ensures Encodable(a[i].1) {
        assert (a + b)[i] == a[i];
      }
      forall i | 0 <= i < |b| ensures Encodable(b[i].1) {
        assert (a + b)[|a| + i] == b[i];
      }
    }
  }

  /** Assigning a writable value keeps a writable dict writable. */
  lemma PutEncodable(ms: seq<(Key, Json)>, k: Key, v: Json)
    requires Encodable(JObj(ms)) && Encodable(v)
    ensures Encodable(JObj(Put(ms, k, v)))
  {
    PutMembers(ms, k, v);
  }

  lemma {:induction false} PutAllEncodable(ms: seq<(Key, Json)>, others: seq<(Key, Json)>)
    requires Encodable(JObj(ms)) && Encodable(JObj(others))
    ensures Encodable(JObj(PutAll(ms, others)))
  {
    if others != [] {
      var n := |others| - 1;
      PutAllEncodable(ms, others[..n]);
      PutEncodable(PutAll(ms, others[..n]), others[n].0, others[n].1);
    }
  }

  /** A Python dict under construction: the `json_dict` the triangle encoder
      fills key by key. `members` lists the items in insertion order. */
  class Dict {
    var members: seq<(Key, Json)>

    constructor ()
      ensures members == []
    {
      members := [];
    }

    /** `d[k] = v` */
    method Set(k: Key, v: Json)
      modifies this
      ensures members == Put(old(members), k, v)
    {
      members := Put(members, k, v);
    }

    /** `d[k] = v` for a key d does not hold yet: the pair goes at the end. */
    method Add(k: Key, v: Json)
      requires k !in Keys(members)
      modifies this
      ensures members == old(members) + [(k, v)]
      ensures Keys(members) == Keys(old(members)) + [k]
    {
      PutFresh(members, k, v);
      Set(k, v);
    }

    /** `d.update(others)` */
    method Update(others: seq<(Key, Json)>)
      modifies this
      ensures members == PutAll(old(members), others)
    {
      for i := 0 to |others|
        invariant members == PutAll(old(members), others[..i])
      {
        assert others[..i + 1][..i] == others[..i];
        members := Put(members, others[i].0, others[i].1);
      }
      assert others[..|others|] == others;
    }
  }
}
