/** submanager/subproxy_checker.py: re-testing the proxies of the
    `sub_proxy` table with the mihomo speed tester, 50 at a time, and
    keeping their counters; a proxy is deleted after three failed checks.
    The tester's report for a chunk is the `report` parameter. */
module SubProxyChecker {
  import opened Wrappers
  import opened PyValue
  import opened Codecs
  import opened Store
  import opened Pool
  import opened Lifecycle
  import opened MihomoSpeedTest

  /** The hash `SubLinkDb` switches to (submanager/proxydb.py). */
  const TableName: string := "sub_proxy"
  const ChunkSize: nat := 50
  const FailToDelete: int := 3

  /** `load_proxies_dict()`: every stored value parsed back; a value that is
      not JSON text is kept as stored. */
  function LoadProxiesDict(lib: Lib, t: Table): (r: map<string, Value>)
    ensures r.Keys == t.Keys
    ensures forall k :: k in t && !t[k].Str? ==> r[k] == t[k]
    ensures forall k :: k in t && Loaded(lib, t[k]).None? ==> r[k] == t[k]
  {
    map k | k in t :: match Loaded(lib, t[k]) case Some(v) => v case None => t[k]
  }

  /** `pre_process_proxies()` for the entry `key`: a vless proxy with an
      unsupported flow is skipped and keeps its own name; any other proxy gets
      the shadowsocks fix-ups and the store key as its name. `None` when the
      value is not an object or the fix-ups raise. */
  function Prepared(lib: Lib, key: string, v: Value): (r: Option<Record>)
    ensures !v.Dict? ==> r.None?
    ensures v.Dict? && UnsupportedFlow(v.fields) ==> r == Some(v.fields)
    ensures v.Dict? && !UnsupportedFlow(v.fields) ==> (r.Some? <==> SsFixups(lib, v.fields).Some?)
    ensures (r.Some? && !UnsupportedFlow(v.fields) ==>
      r.value.Keys == v.fields.Keys + {"name"} && r.value["name"] == Str(key))
  {
    if !v.Dict? then None
    else if UnsupportedFlow(v.fields) then Some(v.fields)
    else
      match SsFixups(lib, v.fields)
      case None => None
      case Some(p) => Some(p["name" := Str(key)])
  }

  /** The key `update_proxy` and `delete_proxy` use: `proxy["name"]`. */
  function NameKey(p: Record): Option<string> {
    if "name" in p then Render(p["name"]) else None
  }

  /** A supported proxy is written back under the key it was loaded from. */
  lemma SupportedKeepsKey(lib: Lib, key: string, v: Value)
    requires Prepared(lib, key, v).Some? && !UnsupportedFlow(v.fields)
    ensures NameKey(Prepared(lib, key, v).value) == Some(key)
  {
  }

  /** A proxy with an unsupported flow is written under its own `name`, which
      need not be the key it was loaded from. */
  lemma UnsupportedKeepsName(lib: Lib, key: string, v: Value)
    requires v.Dict? && UnsupportedFlow(v.fields)
    ensures NameKey(Prepared(lib, key, v).value) == NameKey(v.fields)
  {
  }

  /** All entries prepared, in the dictionary's order `keys`; `None` when one raises. */
  function PreProcess(lib: Lib, d: map<string, Value>, keys: seq<string>): (r: Option<seq<Record>>)
    requires forall i :: 0 <= i < |keys| ==> keys[i] in d
    ensures r.Some? <==> forall i :: 0 <= i < |keys| ==> Prepared(lib, keys[i], d[keys[i]]).Some?
    ensures r.Some? ==> |r.value| == |keys| && forall i :: 0 <= i < |keys| ==> r.value[i] == Prepared(lib, keys[i], d[keys[i]]).value
    decreases |keys|
  {
    if |keys| == 0 then Some([])
    else
      assert forall i :: 1 <= i < |keys| ==> keys[i] == keys[1..][i - 1];
      match (Prepared(lib, keys[0], d[keys[0]]), PreProcess(lib, d, keys[1..]))
      case (Some(p), Some(rest)) => Some([p] + rest)
      case _ => None
  }

  /** `check_proxies(chunk)`: each proxy gets `valid`, true exactly when its
      name is among the names the tester reported; `None` when one has no name. */
  function CheckProxies(chunk: seq<Record>, names: seq<Value>): (r: Option<seq<Record>>)
    ensures r.Some? <==> forall i :: 0 <= i < |chunk| ==> "name" in chunk[i]
    ensures r.Some? ==> |r.value| == |chunk|
    ensures (r.Some? ==> forall i :: 0 <= i < |chunk| ==>
      r.value[i].Keys == chunk[i].Keys + {"valid"}
      && (r.value[i]["valid"] == Bool(true) <==> chunk[i]["name"] in names)
      && r.value[i]["valid"].Bool?
      && forall k :: k in chunk[i] && k != "valid" ==> r.value[i][k] == chunk[i][k])
    decreases |chunk|
  {
    if |chunk| == 0 then Some([])
    else if "name" !in chunk[0] then None
    else
      assert forall i :: 1 <= i < |chunk| ==> chunk[i] == chunk[1..][i - 1];
      match CheckProxies(chunk[1..], names)
      case None => None
      case Some(rest) => Some([chunk[0]["valid" := Bool(chunk[0]["name"] in names)]] + rest)
  }

  /** One proxy of the inner loop: its counters updated from `valid`, then
      deleted or stamped and put under `proxy["name"]`. `None` when that raises. */
  function Settle(t: Table, p: Record, now: string): (r: Option<Table>)
    ensures (r.Some? ==> NameKey(p).Some? && forall k :: k != NameKey(p).value ==>
      (k in r.value <==> k in t) && (k in t ==> r.value[k] == t[k]))
    ensures (r.Some? ==> var v := Probed(p, Truthy(Get(p, "valid")), FailToDelete);
      v.Some? && (NameKey(p).value in r.value <==> v.value.Kept?))
    ensures (r.Some? && NameKey(p).value in r.value ==>
      r.value[NameKey(p).value] == Dict(Stamped(Probed(p, Truthy(Get(p, "valid")), FailToDelete).value.p, now)))
  {
    match NameKey(p)
    case None => None
    case Some(key) =>
      match Probed(p, Truthy(Get(p, "valid")), FailToDelete)
      case None => None
      case Some(Deleted(_)) => Some(Delete(t, key))
      case Some(Kept(q)) => Some(Put(t, key, Dict(Stamped(q, now))))
  }

  /** The inner loop over a checked chunk, stopping at the first exception.
      Entries no proxy of the chunk names are left as they were. */
  function SettleAll(t: Table, ps: seq<Record>, now: string): (r: Run<Table>)
    ensures (forall k :: k in t && (forall i :: 0 <= i < |ps| ==> NameKey(ps[i]) != Some(k)) ==>
      k in r.state && r.state[k] == t[k])
    ensures r.state.Keys <= t.Keys + set i | 0 <= i < |ps| && NameKey(ps[i]).Some? :: NameKey(ps[i]).value
    decreases |ps|
  {
    if |ps| == 0 then Run(t, false)
    else
      match Settle(t, ps[0], now)
      case None => Run(t, true)
      case Some(t1) =>
        assert forall i :: 1 <= i < |ps| ==> ps[i] == ps[1..][i - 1];
        SettleAll(t1, ps[1..], now)
  }

  /** A record kept by a probe is below the threshold once stored. */
  lemma {:induction false} SettleAllBelowThreshold(t: Table, ps: seq<Record>, now: string)
    requires BelowThreshold(t, FailToDelete)
    ensures BelowThreshold(SettleAll(t, ps, now).state, FailToDelete)
    decreases |ps|
  {
    if |ps| > 0 {
      match Settle(t, ps[0], now)
      case None =>
      case Some(t1) =>
        var key := NameKey(ps[0]).value;
        if key in t1 {
          KeptBelowThreshold(ps[0], Truthy(Get(ps[0], "valid")), FailToDelete);
        }
        SettleAllBelowThreshold(t1, ps[1..], now);
    }
  }

  /** The outer loop: test each chunk, mark it, then settle its proxies. */
  function ProcessChunks(t: Table, chunks: seq<seq<Record>>, report: seq<Record> -> Option<seq<Value>>, now: string): (r: Run<Table>)
    decreases |chunks|
  {
    if |chunks| == 0 then Run(t, false)
    else
      match FilterAvailable(report(chunks[0]))
      case None => Run(t, true)
      case Some(names) =>
        match CheckProxies(chunks[0], names)
        case None => Run(t, true)
        case Some(checked) =>
          var r := SettleAll(t, checked, now);
          if r.raised then r else ProcessChunks(r.state, chunks[1..], report, now)
  }

  lemma {:induction false} ProcessChunksBelowThreshold(t: Table, chunks: seq<seq<Record>>, report: seq<Record> -> Option<seq<Value>>, now: string)
    requires BelowThreshold(t, FailToDelete)
    ensures BelowThreshold(ProcessChunks(t, chunks, report, now).state, FailToDelete)
    decreases |chunks|
  {
    if |chunks| > 0 {
      match FilterAvailable(report(chunks[0]))
      case None =>
      case Some(names) =>
        match CheckProxies(chunks[0], names)
        case None =>
        case Some(checked) =>
          SettleAllBelowThreshold(t, checked, now);
          var r := SettleAll(t, checked, now);
          if !r.raised {
            ProcessChunksBelowThreshold(r.state, chunks[1..], report, now);
          }
    }
  }

  /** `sub_proxy_check_task()` on the table `t` whose enumeration order is `keys`. */
  function SubProxyCheckTask(lib: Lib, t: Table, keys: seq<string>, report: seq<Record> -> Option<seq<Value>>, now: string): (r: Run<Table>)
    requires forall i :: 0 <= i < |keys| ==> keys[i] in t
    ensures PreProcess(lib, LoadProxiesDict(lib, t), keys).None? ==> r == Run(t, true)
  {
    match PreProcess(lib, LoadProxiesDict(lib, t), keys)
    case None => Run(t, true)
    case Some(items) => ProcessChunks(t, Chunks(items, ChunkSize), report, now)
  }

  /** No stored proxy reaches three failures through the task. */
  lemma TaskBelowThreshold(lib: Lib, t: Table, keys: seq<string>, report: seq<Record> -> Option<seq<Value>>, now: string)
    requires forall i :: 0 <= i < |keys| ==> keys[i] in t
    requires BelowThreshold(t, FailToDelete)
    ensures BelowThreshold(SubProxyCheckTask(lib, t, keys, report, now).state, FailToDelete)
  {
    match PreProcess(lib, LoadProxiesDict(lib, t), keys)
    case None =>
    case Some(items) => ProcessChunksBelowThreshold(t, Chunks(items, ChunkSize), report, now);
  }
}
