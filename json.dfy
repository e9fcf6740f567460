/** JSON values as the Python code sees them after `json.loads` or
    `model_dump()`: objects keep their keys in insertion order, like a `dict`. */
module Json {
  import opened Wrappers

  datatype Json =
    | Null
    | Bool(b: bool)
    | Num(n: int)
    | Str(s: string)
    | Arr(items: seq<Json>)
    | Obj(fields: Fields)

  /** The entries of a `dict`, in insertion order. */
  type Fields = seq<(string, Json)>

  /** `key in d`. */
  predicate HasKey(d: Fields, key: string)
  {
    exists i :: 0 <= i < |d| && d[i].0 == key
  }

  /** `d.get(key)`: the value of the first entry with that key. */
  function Get(d: Fields, key: string): Option<Json>
  {
    if d == [] then None
    else if d[0].0 == key then Some(d[0].1)
    else Get(d[1..], key)
  }

  /** `d.get(key)` finds a value exactly when the key is present, and the
      value it finds is stored under that key. */
  lemma {:induction false} GetFinds(d: Fields, key: string)
    ensures Get(d, key).Some? <==> HasKey(d, key)
    ensures Get(d, key).Some? ==> (key, Get(d, key).value) in d
  {
    if d != [] && d[0].0 != key {
      GetFinds(d[1..], key);
      if HasKey(d, key) {
        var i :| 0 <= i < |d| && d[i].0 == key;
        assert d[1..][i - 1].0 == key;
      }
    }
  }

  /** The first entry with a key is the one `d.get(key)` finds. */
  lemma {:induction false} GetFirst(d: Fields, key: string, i: nat)
    requires i < |d| && d[i].0 == key
    requires forall j :: 0 <= j < i ==> d[j].0 != key
    ensures Get(d, key) == Some(d[i].1)
  {
    if i > 0 {
      GetFirst(d[1..], key, i - 1);
    }
  }

  /** `d.get(key, default)`. */
  function GetOr(d: Fields, key: string, default: Json): Json
  {
    Get(d, key).GetOr(default)
  }

  /** `bool(v)` for a JSON value: empty containers, `""`, `0`, `False` and `None` are false. */
  predicate Truthy(v: Json)
  {
    match v
    case Null => false
    case Bool(b) => b
    case Num(n) => n != 0
    case Str(s) => s != ""
    case Arr(items) => items != []
    case Obj(fields) => fields != []
  }

  /** Adding an entry with a new key at the end (`d[key] = v` when `key not in d`)
      makes `key` map to `v` and leaves every other key's value as it was. */
  lemma GetAppended(d: Fields, key: string, v: Json, other: string)
    requires !HasKey(d, key)
    ensures Get(d + [(key, v)], key) == Some(v)
    ensures other != key ==> Get(d + [(key, v)], other) == Get(d, other)
  {
    if d != [] {
      assert (d + [(key, v)])[1..] == d[1..] + [(key, v)];
      GetAppended(d[1..], key, v, other);
    }
  }
}
