/** The Redis hashes behind proxy_db/db_client.py: one logical table per
    hash name, keyed by string. A table holds the Python object each `put`
    was given (dictionaries are stored as JSON text and read back as the same
    value; strings are stored verbatim). */
module Store {
  import opened Wrappers
  import opened PyValue
  import opened Codecs

  type Table = map<string, Value>

  /** `put(key, val)`: insert or overwrite. */
  function Put(t: Table, k: string, v: Value): (r: Table)
    ensures r.Keys == t.Keys + {k}
    ensures k in r && r[k] == v
    ensures forall j :: j in t && j != k ==> r[j] == t[j]
  {
    t[k := v]
  }

  /** `delete(key)`. */
  function Delete(t: Table, k: string): (r: Table)
    ensures r.Keys == t.Keys - {k}
    ensures forall j :: j in r ==> r[j] == t[j]
  {
    t - {k}
  }

  /** `json.loads` of what `hvals`/`hgetall` return for a stored value: the
      value itself for an object that was stored as JSON, the parse of a
      string stored verbatim (`None` when that string is not JSON). */
  function Loaded(lib: Lib, v: Value): (r: Option<Value>)
    ensures !v.Str? ==> r == Some(v)
  {
    if v.Str? then lib.jsonLoads(v.s) else Some(v)
  }

  /** `keys` lists every key of the table exactly once: the order in which
      Redis enumerates the hash. */
  ghost predicate Enumerates(keys: seq<string>, t: Table) {
    (forall i, j :: 0 <= i < j < |keys| ==> keys[i] != keys[j])
    && (forall k :: k in t <==> k in keys)
  }

  /** `json.loads(get(key))`; `None` when the key is absent (`json.loads(None)`
      raises) or the stored text is not JSON. */
  function GetLoaded(lib: Lib, t: Table, k: string): (r: Option<Value>)
    ensures k !in t ==> r.None?
    ensures k in t ==> r == Loaded(lib, t[k])
  {
    if k in t then Loaded(lib, t[k]) else None
  }

  /** `get_all()`: every stored value parsed back, in the enumeration order
      `keys`; `None` when one of them is not JSON. */
  function GetAll(lib: Lib, t: Table, keys: seq<string>): (r: Option<seq<Value>>)
    requires forall i :: 0 <= i < |keys| ==> keys[i] in t
    ensures r.Some? <==> forall i :: 0 <= i < |keys| ==> Loaded(lib, t[keys[i]]).Some?
    ensures r.Some? ==> |r.value| == |keys|
    ensures r.Some? ==> forall i :: 0 <= i < |keys| ==> r.value[i] == Loaded(lib, t[keys[i]]).value
  {
    if |keys| == 0 then Some([])
    else
      var head := Loaded(lib, t[keys[0]]);
      var rest := GetAll(lib, t, keys[1..]);
      assert forall i :: 1 <= i < |keys| ==> keys[i] == keys[1..][i - 1];
      if head.Some? && rest.Some? then Some([head.value] + rest.value) else None
  }
}
