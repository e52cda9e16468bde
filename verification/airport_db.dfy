/** subscribe/airport_db.py: the `airports` table, keyed by site URL. */
module AirportDb {
  import opened Wrappers
  import opened PyValue
  import opened Codecs
  import opened Store
  import opened Seqs

  const AirportTable: string := "airports"

  /** The record `update` starts from: the stored one, or `{}` when the key
      is absent or its text is not JSON. `None` when the stored JSON is not an
      object (`item.update` raises). */
  function StartRecord(lib: Lib, t: Table, key: string): (r: Option<Record>)
    ensures GetLoaded(lib, t, key).None? ==> r == Some(map[])
    ensures GetLoaded(lib, t, key).Some? && GetLoaded(lib, t, key).value.Dict?
      ==> r == Some(GetLoaded(lib, t, key).value.fields)
    ensures r.None? <==> GetLoaded(lib, t, key).Some? && !GetLoaded(lib, t, key).value.Dict?
  {
    match GetLoaded(lib, t, key)
    case None => Some(map[])
    case Some(Dict(fields)) => Some(fields)
    case Some(_) => None
  }

  /** `update(key, val)`: merge `val` over the stored record, store and
      return the merge; `None` when it raises. */
  function Update(lib: Lib, t: Table, key: string, val: Record): (r: Option<(Table, Record)>)
    ensures r.Some? <==> StartRecord(lib, t, key).Some?
    ensures r.Some? ==> r.value.0 == Put(t, key, Dict(r.value.1))
    ensures r.Some? ==> r.value.1.Keys == StartRecord(lib, t, key).value.Keys + val.Keys
    ensures r.Some? ==> forall k :: k in val ==> r.value.1[k] == val[k]
    ensures (r.Some? ==> forall k :: k in r.value.1 && k !in val ==>
      r.value.1[k] == StartRecord(lib, t, key).value[k])
  {
    match StartRecord(lib, t, key)
    case None => None
    case Some(item) =>
      var merged := item + val;
      Some((Put(t, key, Dict(merged)), merged))
  }

  /** What a later `get` of the key reads back is the record `update` returned. */
  lemma UpdateReadsBack(lib: Lib, t: Table, key: string, val: Record)
    requires Update(lib, t, key, val).Some?
    ensures GetLoaded(lib, Update(lib, t, key, val).value.0, key) == Some(Dict(Update(lib, t, key, val).value.1))
  {
  }

  /** Updating with the same fields twice stores the same record as once. */
  lemma UpdateIdempotent(lib: Lib, t: Table, key: string, val: Record)
    requires Update(lib, t, key, val).Some?
    ensures Update(lib, Update(lib, t, key, val).value.0, key, val) == Update(lib, t, key, val)
  {
    var (t1, m1) := Update(lib, t, key, val).value;
    assert StartRecord(lib, t1, key) == Some(m1);
    assert m1 + val == m1;
    assert Put(t1, key, Dict(m1)) == t1;
  }

  /** The records among `items` for which `keep` holds, in order; `None` when
      one is not an object (`item.get` raises). */
  function FilterRecords(items: seq<Value>, field: string): (r: Option<seq<Value>>)
    ensures r.Some? <==> forall i :: 0 <= i < |items| ==> items[i].Dict?
    ensures r.Some? ==> |r.value| <= |items|
    ensures r.Some? ==> forall k :: 0 <= k < |r.value| ==> r.value[k] in items && r.value[k].Dict? && HasTruthy(r.value[k].fields, field)
    ensures r.Some? ==> forall i :: 0 <= i < |items| && HasTruthy(items[i].fields, field) ==> items[i] in r.value
  {
    if |items| == 0 then Some([])
    else
      var rest := FilterRecords(items[1..], field);
      assert forall i :: 1 <= i < |items| ==> items[i] == items[1..][i - 1];
      if !items[0].Dict? || rest.None? then None
      else if HasTruthy(items[0].fields, field) then Some([items[0]] + rest.value)
      else rest
  }

  /** Filtering keeps the input order: the kept records form a subsequence. */
  lemma {:induction false} FilterRecordsOrdered(items: seq<Value>, field: string)
    requires FilterRecords(items, field).Some?
    ensures IsSubsequence(FilterRecords(items, field).value, items)
    decreases |items|
  {
    if |items| > 0 {
      assert forall i :: 1 <= i < |items| ==> items[i] == items[1..][i - 1];
      FilterRecordsOrdered(items[1..], field);
    }
  }

  /** `get_available_airports()`: the stored records with a truthy `available`. */
  function GetAvailableAirports(lib: Lib, t: Table, keys: seq<string>): (r: Option<seq<Value>>)
    requires forall i :: 0 <= i < |keys| ==> keys[i] in t
    ensures r.Some? ==> GetAll(lib, t, keys).Some?
    ensures (r.Some? ==> forall k :: 0 <= k < |r.value| ==>
      r.value[k] in GetAll(lib, t, keys).value && r.value[k].Dict? && HasTruthy(r.value[k].fields, "available"))
  {
    match GetAll(lib, t, keys)
    case None => None
    case Some(items) => FilterRecords(items, "available")
  }

  /** `get_all_subscribed_airports()`: the stored records with a truthy `subscribe`. */
  function GetAllSubscribedAirports(lib: Lib, t: Table, keys: seq<string>): (r: Option<seq<Value>>)
    requires forall i :: 0 <= i < |keys| ==> keys[i] in t
    ensures r.Some? ==> GetAll(lib, t, keys).Some?
    ensures (r.Some? ==> forall k :: 0 <= k < |r.value| ==>
      r.value[k] in GetAll(lib, t, keys).value && r.value[k].Dict? && HasTruthy(r.value[k].fields, "subscribe"))
  {
    match GetAll(lib, t, keys)
    case None => None
    case Some(items) => FilterRecords(items, "subscribe")
  }

  /** Exactly the available records are reported: a stored record with a
      truthy `available` is among them. */
  lemma AvailableExactly(lib: Lib, t: Table, keys: seq<string>, i: nat)
    requires forall j :: 0 <= j < |keys| ==> keys[j] in t
    requires GetAvailableAirports(lib, t, keys).Some? && i < |keys|
    requires HasTruthy(Loaded(lib, t[keys[i]]).value.fields, "available")
    ensures Loaded(lib, t[keys[i]]).value in GetAvailableAirports(lib, t, keys).value
  {
  }

  /** Exactly the subscribed records are reported: a stored record with a
      truthy `subscribe` is among them, and the query raises exactly when
      loading fails or some stored record is not a mapping. */
  lemma SubscribedExactly(lib: Lib, t: Table, keys: seq<string>, i: nat)
    requires forall j :: 0 <= j < |keys| ==> keys[j] in t
    requires i < |keys|
    ensures (GetAllSubscribedAirports(lib, t, keys).Some? <==>
      GetAll(lib, t, keys).Some? && forall j :: 0 <= j < |GetAll(lib, t, keys).value| ==> GetAll(lib, t, keys).value[j].Dict?)
    ensures (GetAllSubscribedAirports(lib, t, keys).Some? && HasTruthy(Loaded(lib, t[keys[i]]).value.fields, "subscribe") ==>
      Loaded(lib, t[keys[i]]).value in GetAllSubscribedAirports(lib, t, keys).value)
  {
  }

  /** `get_all_airport_dict()`: every stored value parsed back, under its key;
      `None` when one of them is not JSON. */
  function GetAllAirportDict(lib: Lib, t: Table): (r: Option<map<string, Value>>)
    ensures r.Some? <==> forall k :: k in t ==> Loaded(lib, t[k]).Some?
    ensures r.Some? ==> r.value.Keys == t.Keys
    ensures r.Some? ==> forall k :: k in t && !t[k].Str? ==> r.value[k] == t[k]
    ensures r.Some? ==> forall k :: k in t && t[k].Str? ==> r.value[k] == lib.jsonLoads(t[k].s).value
  {
    if forall k :: k in t ==> Loaded(lib, t[k]).Some? then
      Some(map k | k in t :: Loaded(lib, t[k]).value)
    else None
  }
}
