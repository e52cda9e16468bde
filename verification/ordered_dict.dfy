/** A Python `dict` whose iteration order matters: the entries in insertion
    order, each key at most once. Assigning to a present key keeps its
    place; assigning to a new key appends it; `pop` removes the entry. */
module OrderedDict {
  import opened Wrappers

  type ODict<V> = seq<(string, V)>

  /** The keys in iteration order. */
  function Keys<V>(d: ODict<V>): (r: seq<string>)
    ensures |r| == |d| && forall i :: 0 <= i < |d| ==> r[i] == d[i].0
  {
    seq(|d|, i requires 0 <= i < |d| => d[i].0)
  }

  /** Each key occurs once. */
  predicate UniqueKeys<V>(d: ODict<V>) {
    forall i, j :: 0 <= i < j < |d| ==> d[i].0 != d[j].0
  }

  /** `k in d`. */
  predicate HasKey<V>(d: ODict<V>, k: string) {
    exists i :: 0 <= i < |d| && d[i].0 == k
  }

  /** `d.get(k)`: the value of the first entry with key `k`. */
  function Lookup<V>(d: ODict<V>, k: string): (r: Option<V>)
    ensures r.Some? <==> HasKey(d, k)
    ensures r.Some? ==> exists i :: 0 <= i < |d| && d[i] == (k, r.value)
    ensures UniqueKeys(d) ==> forall i :: 0 <= i < |d| && d[i].0 == k ==> r == Some(d[i].1)
    decreases |d|
  {
    if |d| == 0 then None
    else if d[0].0 == k then Some(d[0].1)
    else
      assert forall i :: 1 <= i < |d| ==> d[i] == d[1..][i - 1];
      var r := Lookup(d[1..], k);
      assert r.Some? ==> d[1..][0] == d[1];
      r
  }

  /** `d[k] = v`. */
  function Assign<V>(d: ODict<V>, k: string, v: V): (r: ODict<V>)
    requires UniqueKeys(d)
    ensures UniqueKeys(r)
    ensures Lookup(r, k) == Some(v)
    ensures forall j :: j != k ==> Lookup(r, j) == Lookup(d, j)
    ensures HasKey(d, k) ==> Keys(r) == Keys(d)
    ensures !HasKey(d, k) ==> Keys(r) == Keys(d) + [k]
  {
    if HasKey(d, k) then
      var i :| 0 <= i < |d| && d[i].0 == k;
      var r := d[i := (k, v)];
      assert Keys(r) == Keys(d);
      assert forall j :: j != k ==> Lookup(r, j) == Lookup(d, j) by {
        forall j | j != k
          ensures Lookup(r, j) == Lookup(d, j)
        {
          LookupAgrees(d, r, j);
        }
      }
      r
    else
      var r := d + [(k, v)];
      assert Keys(r) == Keys(d) + [k];
      assert forall j :: j != k ==> Lookup(r, j) == Lookup(d, j) by {
        forall j | j != k
          ensures Lookup(r, j) == Lookup(d, j)
        {
          LookupAgrees(d, r, j);
        }
      }
      assert r[|d|] == (k, v);
      r
  }

  /** Two dictionaries with the same entries for `j`, one an extension of the
      other at positions not holding `j`, agree on `j`. */
  lemma {:induction false} LookupAgrees<V>(d: ODict<V>, r: ODict<V>, j: string)
    requires |d| <= |r|
    requires forall i :: 0 <= i < |d| ==> (d[i].0 == j || r[i].0 == j) ==> d[i] == r[i]
    requires forall i :: 0 <= i < |d| ==> (d[i].0 == j <==> r[i].0 == j)
    requires forall i :: |d| <= i < |r| ==> r[i].0 != j
    ensures Lookup(r, j) == Lookup(d, j)
    decreases |d|
  {
    if |d| > 0 && d[0].0 != j {
      LookupAgrees(d[1..], r[1..], j);
    }
  }

  /** `d.pop(k, None)`: the dictionary without key `k`. */
  function Pop<V>(d: ODict<V>, k: string): (r: ODict<V>)
    requires UniqueKeys(d)
    ensures UniqueKeys(r)
    ensures !HasKey(r, k)
    ensures forall j :: j != k ==> Lookup(r, j) == Lookup(d, j)
    ensures |r| <= |d| && forall i :: 0 <= i < |r| ==> r[i] in d
    decreases |d|
  {
    if |d| == 0 then []
    else
      var rest := Pop(d[1..], k);
      if d[0].0 == k then
        assert !HasKey(d[1..], k);
        rest
      else
        var r := [d[0]] + rest;
        assert forall m :: 1 <= m < |d| ==> d[m].0 != d[0].0;
        assert forall i :: 0 <= i < |rest| ==> rest[i].0 != d[0].0;
        assert forall j :: j != k && j != d[0].0 ==> Lookup(r, j) == Lookup(rest, j) by {
          forall j | j != k && j != d[0].0
            ensures Lookup(r, j) == Lookup(rest, j)
          {
            assert r[1..] == rest;
          }
        }
        r
  }
}
