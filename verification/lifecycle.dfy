/** The success/failure bookkeeping every pool checker applies to a probed
    record: a success bumps `success_count` and clears `fail_count`, a
    failure bumps `fail_count`, and a record whose `fail_count` reaches the
    checker's threshold is deleted instead of stored again. */
module Lifecycle {
  import opened Wrappers
  import opened PyValue
  import opened Store
  import opened Pool

  /** `p.get(k, 0) + 1`; `None` when the stored counter is not an integer
      (Python adds to a float too, which the pools never store). */
  function Bumped(p: Record, k: string): (r: Option<int>)
    ensures k !in p ==> r == Some(1)
    ensures k in p && p[k].Int? ==> r == Some(p[k].i + 1)
    ensures r.Some? <==> GetOr(p, k, Int(0)).Int? || GetOr(p, k, Int(0)).Bool?
  {
    match GetOr(p, k, Int(0))
    case Int(i) => Some(i + 1)
    case Bool(b) => Some(if b then 2 else 1)
    case _ => None
  }

  /** The record after one probe, and whether the checker deletes it. */
  datatype Verdict = Kept(p: Record) | Deleted(p: Record)

  /** The counter update for one probe outcome against `threshold`
      (`fail_to_delete_threshold`). `None` when a counter cannot be bumped. */
  function Probed(p: Record, success: bool, threshold: int): (r: Option<Verdict>)
    ensures r.Some? <==> Bumped(p, if success then "success_count" else "fail_count").Some?
    ensures (success && r.Some? ==>
      r.value == Kept(p["success_count" := Int(Bumped(p, "success_count").value)]["fail_count" := Int(0)]))
    ensures !success && r.Some? ==> r.value.p == p["fail_count" := Int(Bumped(p, "fail_count").value)]
    ensures !success && r.Some? ==> (r.value.Deleted? <==> Bumped(p, "fail_count").value >= threshold)
  {
    if success then
      match Bumped(p, "success_count")
      case None => None
      case Some(n) => Some(Kept(p["success_count" := Int(n)]["fail_count" := Int(0)]))
    else
      match Bumped(p, "fail_count")
      case None => None
      case Some(n) =>
        var q := p["fail_count" := Int(n)];
        if n >= threshold then Some(Deleted(q)) else Some(Kept(q))
  }

  /** `proxy['last_check_time'] = now` before a record is stored. */
  function Stamped(p: Record, now: string): (r: Record)
    ensures r.Keys == p.Keys + {"last_check_time"} && r["last_check_time"] == Str(now)
    ensures forall k :: k in p && k != "last_check_time" ==> r[k] == p[k]
  {
    p["last_check_time" := Str(now)]
  }

  /** The failure count of a stored value (0 when it has none). */
  function Fails(v: Value): int {
    if v.Dict? && "fail_count" in v.fields && v.fields["fail_count"].Int? then v.fields["fail_count"].i else 0
  }

  /** Every stored record is below the deletion threshold. */
  ghost predicate BelowThreshold(t: Table, threshold: int) {
    forall k :: k in t ==> Fails(t[k]) < threshold
  }

  /** A record the checker keeps is below the threshold. */
  lemma KeptBelowThreshold(p: Record, success: bool, threshold: int)
    requires threshold > 0 && Probed(p, success, threshold).Some? && Probed(p, success, threshold).value.Kept?
    ensures Fails(Dict(Probed(p, success, threshold).value.p)) < threshold
  {
  }

  /** Storing a kept, stamped record keeps every stored record below the threshold. */
  lemma StoreKeptBelowThreshold(t: Table, key: string, p: Record, success: bool, threshold: int, now: string)
    requires threshold > 0 && BelowThreshold(t, threshold)
    requires Probed(p, success, threshold).Some? && Probed(p, success, threshold).value.Kept?
    ensures BelowThreshold(Put(t, key, Dict(Stamped(Probed(p, success, threshold).value.p, now))), threshold)
  {
    KeptBelowThreshold(p, success, threshold);
  }

  // ---------------------------------------------------------------------
  // The pass over a checker's results
  // ---------------------------------------------------------------------

  /** One checker result: the `server:port` key it names and whether the probe succeeded. */
  datatype Outcome = Outcome(key: string, success: bool)

  /** A checker's working state: `proxy_dict`, whose records it mutates in
      place, and the store. */
  datatype Pass = Pass(proxies: map<string, Record>, table: Table)

  /** The state a loop reached and whether it stopped on an exception. */
  datatype Run<S> = Run(state: S, raised: bool)

  /** Every record of `proxy_dict` sits under its own `server:port` key. */
  ghost predicate KeysMatch(proxies: map<string, Record>) {
    forall k :: k in proxies ==> ServerPortKey(proxies[k]) == Some(k)
  }

  /** The dictionary built from the loaded proxies has matching keys. */
  lemma ProxyDictKeysMatch(ps: seq<Record>)
    requires ProxyDict(ps).Some?
    ensures KeysMatch(ProxyDict(ps).value)
  {
  }

  /** Writing a bookkeeping field keeps a record's `server:port` key, and
      `proxy.get(...)` renders the same key as `proxy[...]` when both fields exist. */
  lemma BookkeepingKeepsKey(p: Record, k: string, v: Value)
    requires k in Bookkeeping && ServerPortKey(p).Some?
    ensures ServerPortKey(p[k := v]) == ServerPortKey(p)
    ensures GetServerPortKey(p[k := v]) == ServerPortKey(p)
  {
    assert "server" !in Bookkeeping && "port" !in Bookkeeping;
    assert p[k := v]["server"] == p["server"] && p[k := v]["port"] == p["port"];
  }

  /** The record after a probe, stamped or not, keeps the `server:port` key
      of the record before it. */
  lemma ProbedKeepsKey(p: Record, success: bool, threshold: int, now: string)
    ensures (ServerPortKey(p).Some? && Probed(p, success, threshold).Some? ==>
      ServerPortKey(Probed(p, success, threshold).value.p) == ServerPortKey(p)
      && ServerPortKey(Stamped(Probed(p, success, threshold).value.p, now)) == ServerPortKey(p)
      && GetServerPortKey(Stamped(Probed(p, success, threshold).value.p, now)) == ServerPortKey(p))
  {
    if ServerPortKey(p).Some? && Probed(p, success, threshold).Some? {
      var q := Probed(p, success, threshold).value.p;
      if success {
        var p1 := p["success_count" := Int(Bumped(p, "success_count").value)];
        BookkeepingKeepsKey(p, "success_count", Int(Bumped(p, "success_count").value));
        BookkeepingKeepsKey(p1, "fail_count", Int(0));
      } else {
        BookkeepingKeepsKey(p, "fail_count", Int(Bumped(p, "fail_count").value));
      }
      BookkeepingKeepsKey(q, "last_check_time", Str(now));
    }
  }

  /** What one result does to the store: a deleted record's key is removed, a
      kept record is stamped and written back under the key it was looked up by. */
  ghost predicate Settled(s: Pass, o: Outcome, threshold: int, now: string, s1: Pass)
    requires o.key in s.proxies && Probed(s.proxies[o.key], o.success, threshold).Some?
  {
    var v := Probed(s.proxies[o.key], o.success, threshold).value;
    o.key in s1.proxies
    && (v.Deleted? ==> s1.table == Delete(s.table, o.key) && s1.proxies[o.key] == v.p)
    && (v.Kept? ==> s1.proxies[o.key] == Stamped(v.p, now) && s1.table == Put(s.table, o.key, Dict(Stamped(v.p, now))))
  }

  /** One result of the loop in `test_and_process_proxies`: look the record up
      in `proxy_dict` (`None` on `KeyError`), update its counters there, then
      delete it from the store or stamp it and `put` it under its own
      `server:port` key. */
  function ApplyResult(s: Pass, o: Outcome, threshold: int, now: string): (r: Option<Pass>)
    ensures o.key !in s.proxies ==> r.None?
    ensures r.Some? ==> r.value.proxies.Keys == s.proxies.Keys
    ensures r.Some? ==> forall k :: k in s.proxies && k != o.key ==> r.value.proxies[k] == s.proxies[k]
    ensures (KeysMatch(s.proxies) && o.key in s.proxies ==>
      (r.Some? <==> Probed(s.proxies[o.key], o.success, threshold).Some?))
    ensures (KeysMatch(s.proxies) && r.Some? ==>
      KeysMatch(r.value.proxies) && Settled(s, o, threshold, now, r.value))
  {
    if o.key !in s.proxies then None
    else
      var p := s.proxies[o.key];
      match Probed(p, o.success, threshold)
      case None => None
      case Some(v) =>
        if v.Deleted? then
          ProbedKeepsKey(p, o.success, threshold, now);
          Some(Pass(s.proxies[o.key := v.p], Delete(s.table, o.key)))
        else
          var st := Stamped(v.p, now);
          ProbedKeepsKey(p, o.success, threshold, now);
          match GetServerPortKey(st)
          case None => None
          case Some(k2) => Some(Pass(s.proxies[o.key := st], Put(s.table, k2, Dict(st))))
  }

  /** The loop over one batch of results, in order; `outcome` reads a result
      (`None` when that raises) and the loop stops at the first exception. */
  function ApplyAll(s: Pass, items: seq<Record>, outcome: Record -> Option<Outcome>, threshold: int, now: string): (r: Run<Pass>)
    ensures r.state.proxies.Keys == s.proxies.Keys
    ensures KeysMatch(s.proxies) ==> KeysMatch(r.state.proxies)
    ensures KeysMatch(s.proxies) ==> r.state.table.Keys <= s.table.Keys + s.proxies.Keys
    ensures (forall i :: 0 <= i < |items| ==> outcome(items[i]).None?) && |items| > 0 ==> r == Run(s, true)
    decreases |items|
  {
    if |items| == 0 then Run(s, false)
    else
      match outcome(items[0])
      case None => Run(s, true)
      case Some(o) =>
        match ApplyResult(s, o, threshold, now)
        case None => Run(s, true)
        case Some(s1) => ApplyAll(s1, items[1..], outcome, threshold, now)
  }

  /** A pass over results that all succeed from a state whose stored records
      are below the threshold leaves them below it. */
  lemma {:induction false} ApplyAllBelowThreshold(s: Pass, items: seq<Record>, outcome: Record -> Option<Outcome>, threshold: int, now: string)
    requires threshold > 0 && KeysMatch(s.proxies) && BelowThreshold(s.table, threshold)
    ensures BelowThreshold(ApplyAll(s, items, outcome, threshold, now).state.table, threshold)
    decreases |items|
  {
    if |items| > 0 && outcome(items[0]).Some? {
      var o := outcome(items[0]).value;
      var r := ApplyResult(s, o, threshold, now);
      if r.Some? {
        var v := Probed(s.proxies[o.key], o.success, threshold).value;
        if v.Kept? {
          var k2 := GetServerPortKey(Stamped(v.p, now)).value;
          assert r.value.table == Put(s.table, k2, Dict(Stamped(v.p, now)));
          StoreKeptBelowThreshold(s.table, k2, s.proxies[o.key], o.success, threshold, now);
        }
        assert ApplyAll(s, items, outcome, threshold, now) == ApplyAll(r.value, items[1..], outcome, threshold, now);
        ApplyAllBelowThreshold(r.value, items[1..], outcome, threshold, now);
      }
    }
  }

  /** Running two batches back to back is running their concatenation. */
  lemma {:induction false} ApplyAllAppend(s: Pass, a: seq<Record>, b: seq<Record>, outcome: Record -> Option<Outcome>, threshold: int, now: string)
    ensures (var r := ApplyAll(s, a, outcome, threshold, now);
      ApplyAll(s, a + b, outcome, threshold, now) == if r.raised then r else ApplyAll(r.state, b, outcome, threshold, now))
    decreases |a|
  {
    if |a| > 0 {
      assert (a + b)[0] == a[0] && (a + b)[1..] == a[1..] + b;
      match outcome(a[0])
      case None =>
      case Some(o) =>
        match ApplyResult(s, o, threshold, now)
        case None =>
        case Some(s1) => ApplyAllAppend(s1, a[1..], b, outcome, threshold, now);
    } else {
      assert a + b == b;
    }
  }

  /** `check(chunk)` for every chunk: the results of each probe batch. */
  function Checked(check: seq<Record> -> seq<Record>, chunks: seq<seq<Record>>): (r: seq<seq<Record>>)
    ensures |r| == |chunks| && forall c :: 0 <= c < |chunks| ==> r[c] == check(chunks[c])
  {
    seq(|chunks|, c requires 0 <= c < |chunks| => check(chunks[c]))
  }

  /** The outer loop: probe each chunk with `check`, then apply its results. */
  function ApplyChunks(s: Pass, chunks: seq<seq<Record>>, check: seq<Record> -> seq<Record>,
                       outcome: Record -> Option<Outcome>, threshold: int, now: string): (r: Run<Pass>)
    decreases |chunks|
  {
    if |chunks| == 0 then Run(s, false)
    else
      var r := ApplyAll(s, check(chunks[0]), outcome, threshold, now);
      if r.raised then r else ApplyChunks(r.state, chunks[1..], check, outcome, threshold, now)
  }

  /** Probing chunk by chunk applies the results exactly as one pass over all
      of them in order would. */
  lemma {:induction false} ApplyChunksFlat(s: Pass, chunks: seq<seq<Record>>, check: seq<Record> -> seq<Record>,
                                           outcome: Record -> Option<Outcome>, threshold: int, now: string)
    ensures ApplyChunks(s, chunks, check, outcome, threshold, now)
      == ApplyAll(s, Flatten(Checked(check, chunks)), outcome, threshold, now)
    decreases |chunks|
  {
    if |chunks| > 0 {
      var first := check(chunks[0]);
      assert Checked(check, chunks)[1..] == Checked(check, chunks[1..]);
      assert Flatten(Checked(check, chunks)) == first + Flatten(Checked(check, chunks[1..]));
      ApplyAllAppend(s, first, Flatten(Checked(check, chunks[1..])), outcome, threshold, now);
      var r := ApplyAll(s, first, outcome, threshold, now);
      if !r.raised {
        ApplyChunksFlat(r.state, chunks[1..], check, outcome, threshold, now);
      }
    }
  }
}
