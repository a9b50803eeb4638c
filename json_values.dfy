/**
  Parsed JSON values as Python's json module hands them to the agent: objects
  are dictionaries that keep insertion order, and the agent reads them with
  `dict.get`, writes them with `d[k] = v` and tests them for truthiness.
*/
module JsonValues {
  import opened Wrappers

  datatype Json =
    | Null
    | Bool(b: bool)
    | Num(n: int)
    | Str(s: string)
    | Arr(items: seq<Json>)
    | Obj(fields: Fields)

  /** The (key, value) pairs of a dictionary, in insertion order. */
  type Fields = seq<(string, Json)>

  function Keys(fields: Fields): (ks: seq<string>)
    ensures |ks| == |fields|
    ensures forall i :: 0 <= i < |fields| ==> ks[i] == fields[i].0
  {
    if fields == [] then [] else [fields[0].0] + Keys(fields[1..])
  }

  /** No key occurs twice, as in every Python dictionary. */
  predicate DistinctKeys(fields: Fields) {
    forall i, j :: 0 <= i < j < |fields| ==> fields[i].0 != fields[j].0
  }

  /** `d.get(key)`: the value stored under `key`, if any. */
  function Get(fields: Fields, key: string): (r: Option<Json>)
    ensures r.None? <==> key !in Keys(fields)
    ensures r.Some? ==> (key, r.value) in fields
  {
    if fields == [] then None
    else if fields[0].0 == key then Some(fields[0].1)
    else Get(fields[1..], key)
  }

  /** `d.get(key, default)`. */
  function GetOr(fields: Fields, key: string, default: Json): Json {
    Get(fields, key).GetOr(default)
  }

  /**
    `d[key] = v`: an existing key keeps its position and takes the new value,
    a new key goes to the end.
  */
  function Put(fields: Fields, key: string, v: Json): (r: Fields)
    ensures Get(r, key) == Some(v)
    ensures forall k :: k != key ==> Get(r, k) == Get(fields, k)
  {
    if fields == [] then [(key, v)]
    else if fields[0].0 == key then
      var r := [(key, v)] + fields[1..];
      assert r[1..] == fields[1..];
      r
    else
      var r := [fields[0]] + Put(fields[1..], key, v);
      assert r[1..] == Put(fields[1..], key, v);
      r
  }

  /** Writing a key keeps the order of the keys and appends a new one. */
  lemma {:induction false} PutKeys(fields: Fields, key: string, v: Json)
    ensures key in Keys(fields) ==> Keys(Put(fields, key, v)) == Keys(fields)
    ensures key !in Keys(fields) ==> Keys(Put(fields, key, v)) == Keys(fields) + [key]
  {
    if fields != [] {
      var r := Put(fields, key, v);
      if fields[0].0 == key {
        assert r[1..] == fields[1..];
      } else {
        var rest := Put(fields[1..], key, v);
        PutKeys(fields[1..], key, v);
        assert r[1..] == rest;
        assert Keys(r) == [fields[0].0] + Keys(rest);
        assert Keys(fields) == [fields[0].0] + Keys(fields[1..]);
      }
    }
  }

  /** Writing a key keeps the keys of a dictionary distinct. */
  lemma PutKeepsDistinct(fields: Fields, key: string, v: Json)
    requires DistinctKeys(fields)
    ensures DistinctKeys(Put(fields, key, v))
  {
    var r := Put(fields, key, v);
    PutKeys(fields, key, v);
    var ks, rs := Keys(fields), Keys(r);
    forall i, j | 0 <= i < j < |r| ensures r[i].0 != r[j].0 {
      assert rs[i] == r[i].0 && rs[j] == r[j].0;
      if key in ks {
        assert ks[i] == fields[i].0 && ks[j] == fields[j].0;
      } else if j < |fields| {
        assert ks[i] == fields[i].0 && ks[j] == fields[j].0;
      } else {
        assert rs[j] == key && ks[i] == fields[i].0;
      }
    }
  }

  /** Python truthiness of a JSON value (`if not x`). */
  function Truthy(j: Json): (truthy: bool)
    ensures !truthy <==> j in {Null, Bool(false), Num(0), Str(""), Arr([]), Obj([])}
  {
    match j
    case Null => false
    case Bool(b) => b
    case Num(n) => n != 0
    case Str(s) => s != ""
    case Arr(items) => items != []
    case Obj(fields) => fields != []
  }
}
