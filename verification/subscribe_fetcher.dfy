/** submanager/subscribe_fetcher.py: the `SubscribeFetcher` that collects
    proxies from the configured source links, renames the first proxy of
    each `server:port` apart, keeps the ones the speed tester reports
    available and stores them by name. Fetching and converting one source
    link is an oracle (`fetch(kind, url)`, `None` when it raises); the
    clash branch only triggers the subscription pool's own download, which
    is not modelled. */
module SubscribeFetcher {
  import opened Wrappers
  import opened Strings
  import opened PyValue
  import opened Naming
  import opened Store
  import opened Pool
  import opened Seqs
  import MihomoSpeedTest

  // ---------------------------------------------------------------------
  // Collecting the sources
  // ---------------------------------------------------------------------

  /** The source kinds whose fetch result is kept. */
  predicate Collected(kind: string) {
    kind == "link" || kind == "base64"
  }

  /** The inner loop of `fetch_proxies` for one `type: urls` entry: every
      url of a collected kind is fetched, and each fetch replaces the list
      of the one before. `None` when a fetch raises. */
  function SourceProxies(kind: string, urls: seq<string>, fetch: (string, string) -> Option<seq<Record>>): (r: Option<seq<Record>>)
    ensures !Collected(kind) ==> r == Some([])
    ensures Collected(kind) ==> (r.Some? <==> forall i :: 0 <= i < |urls| ==> fetch(kind, urls[i]).Some?)
    ensures Collected(kind) && r.Some? && |urls| > 0 ==> r == fetch(kind, urls[|urls| - 1])
    ensures Collected(kind) && |urls| == 0 ==> r == Some([])
    decreases |urls|
  {
    if !Collected(kind) || |urls| == 0 then Some([])
    else
      var init := urls[..|urls| - 1];
      assert forall i :: 0 <= i < |urls| - 1 ==> init[i] == urls[i];
      match SourceProxies(kind, init, fetch)
      case None => None
      case Some(_) => fetch(kind, urls[|urls| - 1])
  }

  /** `all_proxies` after the outer loop over the `type: urls` entries of
      `sourcelink.yaml`, in the order the mapping lists them (an entry with
      no urls is skipped). */
  function Gather(sources: seq<(string, seq<string>)>, fetch: (string, string) -> Option<seq<Record>>): (r: Option<seq<Record>>)
    ensures (r.Some? <==> forall s :: 0 <= s < |sources| ==> SourceProxies(sources[s].0, sources[s].1, fetch).Some?)
    ensures (r.Some? ==> forall s, p :: (0 <= s < |sources| && SourceProxies(sources[s].0, sources[s].1, fetch).Some?
      && p in SourceProxies(sources[s].0, sources[s].1, fetch).value) ==> p in r.value)
    ensures r.Some? ==> forall p :: p in r.value ==> exists s :: 0 <= s < |sources| && Collected(sources[s].0) && p in SourceProxies(sources[s].0, sources[s].1, fetch).value
    decreases |sources|
  {
    if |sources| == 0 then Some([])
    else
      assert forall s :: 1 <= s < |sources| ==> sources[s] == sources[1..][s - 1];
      match (SourceProxies(sources[0].0, sources[0].1, fetch), Gather(sources[1..], fetch))
      case (Some(first), Some(rest)) =>
        assert forall p :: p in rest ==> exists s :: 1 <= s < |sources| && Collected(sources[s].0) && p in SourceProxies(sources[s].0, sources[s].1, fetch).value by {
          forall p | p in rest
            ensures exists s :: 1 <= s < |sources| && Collected(sources[s].0) && p in SourceProxies(sources[s].0, sources[s].1, fetch).value
          {
            var s :| 0 <= s < |sources| - 1 && Collected(sources[1..][s].0) && p in SourceProxies(sources[1..][s].0, sources[1..][s].1, fetch).value;
            assert sources[1..][s] == sources[s + 1];
          }
        }
        Some(first + rest)
      case _ => None
  }

  /** Only the last url of a collected kind contributes; a clash entry
      contributes nothing. */
  lemma LastUrlWins(kind: string, urls: seq<string>, fetch: (string, string) -> Option<seq<Record>>)
    requires forall i :: 0 <= i < |urls| ==> fetch(kind, urls[i]).Some?
    ensures SourceProxies(kind, urls, fetch) == (if Collected(kind) && |urls| > 0 then fetch(kind, urls[|urls| - 1]) else Some([]))
    ensures SourceProxies("clash", urls, fetch) == Some([])
  {
  }

  // ---------------------------------------------------------------------
  // Renaming the first proxy of each server:port
  // ---------------------------------------------------------------------

  /** The `server:port` key of every proxy; `None` when one has no `server`
      or `port`. */
  function KeysOf(ps: seq<Record>): (r: Option<seq<string>>)
    ensures r.Some? <==> forall i :: 0 <= i < |ps| ==> ServerPortKey(ps[i]).Some?
    ensures r.Some? ==> |r.value| == |ps| && forall i :: 0 <= i < |ps| ==> ServerPortKey(ps[i]) == Some(r.value[i])
  {
    if forall i :: 0 <= i < |ps| ==> ServerPortKey(ps[i]).Some? then
      Some(seq(|ps|, i requires 0 <= i < |ps| => ServerPortKey(ps[i]).value))
    else None
  }

  /** Proxy `i` is the first with its key: neither the keys `seen` before
      nor an earlier proxy carry it. */
  predicate FreshAt(keys: seq<string>, seen: set<string>, i: nat)
    requires i < |keys|
  {
    keys[i] !in seen && keys[i] !in keys[..i]
  }

  /** Dropping the first key into `seen` shifts freshness by one. */
  lemma FreshShift(keys: seq<string>, seen: set<string>, i: nat)
    requires 0 < i < |keys|
    ensures FreshAt(keys, seen, i) <==> FreshAt(keys[1..], seen + {keys[0]}, i - 1)
  {
    assert keys[..i] == [keys[0]] + keys[1..][..i - 1];
  }

  /** Freshness in the rest of the list, seen from its own start. */
  lemma FreshTail(keys: seq<string>, seen: set<string>)
    requires |keys| > 0
    ensures forall j :: 0 <= j < |keys| - 1 ==> (FreshAt(keys[1..], seen + {keys[0]}, j) <==> FreshAt(keys, seen, j + 1))
  {
    forall j | 0 <= j < |keys| - 1
      ensures FreshAt(keys[1..], seen + {keys[0]}, j) <==> FreshAt(keys, seen, j + 1)
    {
      FreshShift(keys, seen, j + 1);
    }
  }

  /** The `for proxy in all_proxies` renaming loop from a state where the
      keys `seen` and the names `taken` are already used: a proxy whose key
      is new is renamed by `get_new_name`, one whose key was met before is
      left as it is (it stays in the list). `None` when a renamed proxy has
      no string name. */
  function RenameFresh(ps: seq<Record>, keys: seq<string>, seen: set<string>, taken: set<string>): (r: Option<seq<Record>>)
    requires |keys| == |ps|
    ensures r.Some? ==> |r.value| == |ps|
    decreases |ps|
  {
    if |ps| == 0 then Some([])
    else if keys[0] in seen then
      match RenameFresh(ps[1..], keys[1..], seen + {keys[0]}, taken)
      case None => None
      case Some(rest) => Some([ps[0]] + rest)
    else
      match NameOf(ps[0])
      case None => None
      case Some(name) =>
        var chosen := NewName(name, taken);
        match RenameFresh(ps[1..], keys[1..], seen + {keys[0]}, taken + {chosen})
        case None => None
        case Some(rest) => Some([ps[0]["name" := Str(chosen)]] + rest)
  }

  /** The loop raises exactly when a proxy it renames has no string name. */
  lemma {:induction false} RenameFreshDefined(ps: seq<Record>, keys: seq<string>, seen: set<string>, taken: set<string>)
    requires |keys| == |ps|
    ensures RenameFresh(ps, keys, seen, taken).Some? <==> forall i :: 0 <= i < |ps| && FreshAt(keys, seen, i) ==> NameOf(ps[i]).Some?
    decreases |ps|
  {
    if |ps| > 0 {
      FreshTail(keys, seen);
      assert FreshAt(keys, seen, 0) <==> keys[0] !in seen;
      assert forall j :: 0 <= j < |ps| - 1 ==> ps[1..][j] == ps[j + 1];
      var taken1 := if keys[0] in seen || NameOf(ps[0]).None? then taken else taken + {NewName(NameOf(ps[0]).value, taken)};
      RenameFreshDefined(ps[1..], keys[1..], seen + {keys[0]}, taken1);
      if forall i :: 0 <= i < |ps| && FreshAt(keys, seen, i) ==> NameOf(ps[i]).Some? {
        forall j | 0 <= j < |ps| - 1 && FreshAt(keys[1..], seen + {keys[0]}, j)
          ensures NameOf(ps[1..][j]).Some?
        {
          assert FreshAt(keys, seen, j + 1);
        }
      } else {
        var i :| 0 <= i < |ps| && FreshAt(keys, seen, i) && NameOf(ps[i]).None?;
        if i > 0 {
          assert FreshAt(keys[1..], seen + {keys[0]}, i - 1);
        }
      }
    }
  }

  /** A proxy met with a known key is kept as it is; the first proxy of a
      key only has its name changed, to an untaken name that starts with the
      old one. */
  lemma {:induction false} RenameFreshShape(ps: seq<Record>, keys: seq<string>, seen: set<string>, taken: set<string>)
    requires |keys| == |ps| && RenameFresh(ps, keys, seen, taken).Some?
    ensures var r := RenameFresh(ps, keys, seen, taken).value;
      (forall i :: 0 <= i < |ps| && !FreshAt(keys, seen, i) ==> r[i] == ps[i])
      && (forall i :: 0 <= i < |ps| && FreshAt(keys, seen, i) ==>
        NameOf(ps[i]).Some? && NameOf(r[i]).Some? && r[i] == ps[i]["name" := r[i]["name"]]
        && NameOf(r[i]).value !in taken && StartsWith(NameOf(r[i]).value, NameOf(ps[i]).value))
    decreases |ps|
  {
    if |ps| > 0 {
      var r := RenameFresh(ps, keys, seen, taken).value;
      FreshTail(keys, seen);
      assert FreshAt(keys, seen, 0) <==> keys[0] !in seen;
      assert forall j :: 0 <= j < |ps| - 1 ==> ps[1..][j] == ps[j + 1];
      if keys[0] in seen {
        var rest := RenameFresh(ps[1..], keys[1..], seen + {keys[0]}, taken).value;
        RenameFreshShape(ps[1..], keys[1..], seen + {keys[0]}, taken);
        assert r == [ps[0]] + rest;
        assert forall j :: 0 <= j < |ps| - 1 ==> r[j + 1] == rest[j];
      } else {
        var name := NameOf(ps[0]).value;
        var chosen := NewName(name, taken);
        var rest := RenameFresh(ps[1..], keys[1..], seen + {keys[0]}, taken + {chosen}).value;
        RenameFreshShape(ps[1..], keys[1..], seen + {keys[0]}, taken + {chosen});
        assert r == [ps[0]["name" := Str(chosen)]] + rest;
        assert forall j :: 0 <= j < |ps| - 1 ==> r[j + 1] == rest[j];
        assert NameOf(r[0]) == Some(chosen);
      }
    }
  }

  /** The proxies renamed by the loop end up with pairwise distinct names. */
  lemma {:induction false} RenameFreshDistinct(ps: seq<Record>, keys: seq<string>, seen: set<string>, taken: set<string>)
    requires |keys| == |ps| && RenameFresh(ps, keys, seen, taken).Some?
    ensures var r := RenameFresh(ps, keys, seen, taken).value;
      forall i, j :: 0 <= i < j < |ps| && FreshAt(keys, seen, i) && FreshAt(keys, seen, j) ==> NameOf(r[i]) != NameOf(r[j])
    decreases |ps|
  {
    if |ps| > 0 {
      var r := RenameFresh(ps, keys, seen, taken).value;
      FreshTail(keys, seen);
      var taken1 := if keys[0] in seen then taken else taken + {NewName(NameOf(ps[0]).value, taken)};
      var rest := RenameFresh(ps[1..], keys[1..], seen + {keys[0]}, taken1).value;
      RenameFreshDistinct(ps[1..], keys[1..], seen + {keys[0]}, taken1);
      RenameFreshShape(ps[1..], keys[1..], seen + {keys[0]}, taken1);
      assert forall j :: 0 <= j < |ps| - 1 ==> r[j + 1] == rest[j];
      forall i, j | 0 <= i < j < |ps| && FreshAt(keys, seen, i) && FreshAt(keys, seen, j)
        ensures NameOf(r[i]) != NameOf(r[j])
      {
        assert FreshAt(keys[1..], seen + {keys[0]}, j - 1);
        if i > 0 {
          assert FreshAt(keys[1..], seen + {keys[0]}, i - 1);
        } else {
          assert keys[0] !in seen;
          assert NameOf(r[0]) == Some(NewName(NameOf(ps[0]).value, taken));
        }
      }
    }
  }

  /** Proxies whose keys and names are already pairwise distinct come out
      unchanged. */
  lemma {:induction false} RenameFreshKeepsDistinct(ps: seq<Record>, keys: seq<string>, seen: set<string>, taken: set<string>)
    requires |keys| == |ps|
    requires forall i :: 0 <= i < |ps| ==> FreshAt(keys, seen, i)
    requires Names(ps).Some? && Distinct(Names(ps).value)
    requires forall i :: 0 <= i < |ps| ==> Names(ps).value[i] !in taken
    ensures RenameFresh(ps, keys, seen, taken) == Some(ps)
    decreases |ps|
  {
    if |ps| > 0 {
      var names := Names(ps).value;
      var name := names[0];
      assert FreshAt(keys, seen, 0);
      FreshTail(keys, seen);
      assert forall j :: 0 <= j < |ps| - 1 ==> FreshAt(keys[1..], seen + {keys[0]}, j);
      assert Names(ps[1..]).value == names[1..];
      RenameFreshKeepsDistinct(ps[1..], keys[1..], seen + {keys[0]}, taken + {name});
      assert NameOf(ps[0]) == Some(name);
      assert ps[0]["name" := Str(name)] == ps[0];
      assert [ps[0]] + ps[1..] == ps;
    }
  }

  /** `fetch_proxies()`: the gathered proxies with the first of each
      `server:port` renamed apart; `None` when a fetch, a key or a name
      raises. */
  function FetchProxies(sources: seq<(string, seq<string>)>, fetch: (string, string) -> Option<seq<Record>>): (r: Option<seq<Record>>)
    ensures r.Some? ==> Gather(sources, fetch).Some? && KeysOf(Gather(sources, fetch).value).Some?
    ensures (r.Some? ==> (r == RenameFresh(Gather(sources, fetch).value, KeysOf(Gather(sources, fetch).value).value, {}, {})
      && |r.value| == |Gather(sources, fetch).value|))
  {
    match Gather(sources, fetch)
    case None => None
    case Some(all) =>
      match KeysOf(all)
      case None => None
      case Some(keys) =>
        match RenameFresh(all, keys, {}, {})
        case None => None
        case Some(renamed) => Some(renamed)
  }

  /** Among the fetched proxies, the first of each `server:port` carries a
      name no other such proxy carries; later proxies with the same key keep
      their names. */
  lemma FetchProxiesNames(sources: seq<(string, seq<string>)>, fetch: (string, string) -> Option<seq<Record>>)
    requires FetchProxies(sources, fetch).Some?
    ensures var all := Gather(sources, fetch).value;
      var keys := KeysOf(all).value;
      var r := FetchProxies(sources, fetch).value;
      (forall i :: 0 <= i < |all| && !FreshAt(keys, {}, i) ==> r[i] == all[i])
      && (forall i, j :: 0 <= i < j < |all| && FreshAt(keys, {}, i) && FreshAt(keys, {}, j) ==> NameOf(r[i]) != NameOf(r[j]))
  {
    var all := Gather(sources, fetch).value;
    var keys := KeysOf(all).value;
    RenameFreshShape(all, keys, {}, {});
    RenameFreshDistinct(all, keys, {}, {});
  }

  // ---------------------------------------------------------------------
  // Filtering and saving
  // ---------------------------------------------------------------------

  /** `save_proxies_to_db(proxies)`: each proxy is put under its name, a
      later proxy overwriting an earlier one of the same name. `None` when a
      proxy has no string name. */
  function SaveProxies(t: Table, ps: seq<Record>): (r: Option<Table>)
    ensures r.Some? <==> forall i :: 0 <= i < |ps| ==> NameOf(ps[i]).Some?
    decreases |ps|
  {
    if |ps| == 0 then Some(t)
    else
      assert forall i :: 1 <= i < |ps| ==> ps[i] == ps[1..][i - 1];
      match NameOf(ps[0])
      case None => None
      case Some(name) => SaveProxies(Put(t, name, Dict(ps[0])), ps[1..])
  }

  /** Saving stores every name, adds no other key and leaves the keys no
      proxy names as they were. */
  lemma {:induction false} SaveProxiesKeys(t: Table, ps: seq<Record>)
    requires SaveProxies(t, ps).Some?
    ensures var r := SaveProxies(t, ps).value;
      t.Keys <= r.Keys && forall i :: 0 <= i < |ps| ==> NameOf(ps[i]).value in r
    ensures var r := SaveProxies(t, ps).value;
      forall k :: k in r && k !in t ==> exists i :: 0 <= i < |ps| && NameOf(ps[i]) == Some(k)
    ensures var r := SaveProxies(t, ps).value;
      forall k :: k in t && (forall i :: 0 <= i < |ps| ==> NameOf(ps[i]) != Some(k)) ==> r[k] == t[k]
    decreases |ps|
  {
    if |ps| > 0 {
      var name := NameOf(ps[0]).value;
      var t0 := Put(t, name, Dict(ps[0]));
      var r := SaveProxies(t, ps).value;
      assert SaveProxies(t, ps) == SaveProxies(t0, ps[1..]);
      assert forall i :: 1 <= i < |ps| ==> ps[i] == ps[1..][i - 1];
      SaveProxiesKeys(t0, ps[1..]);
      forall k | k in r && k !in t
        ensures exists i :: 0 <= i < |ps| && NameOf(ps[i]) == Some(k)
      {
        if k != name {
          var i :| 0 <= i < |ps| - 1 && NameOf(ps[1..][i]) == Some(k);
          assert NameOf(ps[i + 1]) == Some(k);
        }
      }
    }
  }

  /** The entry stored under a name is the last proxy carrying it. */
  lemma {:induction false} SaveProxiesLastWins(t: Table, ps: seq<Record>, i: nat)
    requires SaveProxies(t, ps).Some? && i < |ps|
    requires forall j :: i < j < |ps| ==> NameOf(ps[j]) != NameOf(ps[i])
    ensures NameOf(ps[i]).value in SaveProxies(t, ps).value
      && SaveProxies(t, ps).value[NameOf(ps[i]).value] == Dict(ps[i])
    decreases |ps|
  {
    var name := NameOf(ps[0]).value;
    var t0 := Put(t, name, Dict(ps[0]));
    assert forall j :: 1 <= j < |ps| ==> ps[j] == ps[1..][j - 1];
    assert SaveProxies(t, ps) == SaveProxies(t0, ps[1..]);
    if i > 0 {
      SaveProxiesLastWins(t0, ps[1..], i - 1);
    } else {
      assert forall j :: 0 <= j < |ps| - 1 ==> NameOf(ps[1..][j]) != Some(name);
      SaveProxiesKeys(t0, ps[1..]);
    }
  }

  /** `fetch_proxy_task()`: fetch, keep what the speed tester reports
      available (100 proxies per test run), save. `report(chunk)` is what
      the tester reports for a chunk. */
  function FetchProxyTask(t: Table, sources: seq<(string, seq<string>)>, fetch: (string, string) -> Option<seq<Record>>,
                          report: seq<Record> -> Option<seq<Value>>): (r: Option<Table>)
    ensures (r.Some? ==> (FetchProxies(sources, fetch).Some?
      && MihomoSpeedTest.FilterAvailableProxies(FetchProxies(sources, fetch).value, report).Some?))
    ensures (r.Some? ==> var kept := MihomoSpeedTest.FilterAvailableProxies(FetchProxies(sources, fetch).value, report).value;
      IsSubsequence(kept, FetchProxies(sources, fetch).value) && r == SaveProxies(t, kept))
  {
    match FetchProxies(sources, fetch)
    case None => None
    case Some(ps) =>
      match MihomoSpeedTest.FilterAvailableProxies(ps, report)
      case None => None
      case Some(kept) => SaveProxies(t, kept)
  }
}
