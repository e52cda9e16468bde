/** submanager/mihomo_launcher.py: the stored proxies that have never failed
    are stripped of their bookkeeping, renamed apart, split into chunks of 50
    and written to one mihomo config per chunk, each proxy listening on its
    own consecutive local port from `proxy_pool_start_port`. The directory
    clean-up, YAML dump, docker-compose file and container restart are not
    modelled. */
module MihomoLauncher {
  import opened Wrappers
  import opened Strings
  import opened PyValue
  import opened Store
  import opened Pool
  import opened Lifecycle
  import opened MihomoConfig

  const ChunkSize: nat := 50

  /** `pre_process_proxies()`: the proxies whose `fail_count` is not
      positive, copied without the bookkeeping keys and renamed by
      `get_new_name`, and `proxy_dict` over those new records. `None` when a
      comparison, a name or a `server:port` key raises. */
  function PreProcess(proxies: seq<Record>): (r: Option<(seq<Record>, map<string, Record>)>)
    ensures (r.Some? <==> (Healthy(proxies).Some? && StripAndRename(Healthy(proxies).value).Some?
      && ProxyDict(StripAndRename(Healthy(proxies).value).value).Some?))
    ensures r.Some? ==> |r.value.0| == |Healthy(proxies).value|
    ensures (r.Some? ==> forall i :: 0 <= i < |r.value.0| ==>
      NameOf(r.value.0[i]).Some? && StartsWith(NameOf(r.value.0[i]).value, NameOf(Healthy(proxies).value[i]).value))
    ensures r.Some? ==> forall i, j :: 0 <= i < j < |r.value.0| ==> NameOf(r.value.0[i]) != NameOf(r.value.0[j])
    ensures r.Some? ==> forall i, k :: 0 <= i < |r.value.0| && k in Bookkeeping ==> k !in r.value.0[i]
    ensures r.Some? ==> KeysMatch(r.value.1) && forall k :: k in r.value.1 ==> r.value.1[k] in r.value.0
  {
    match Healthy(proxies)
    case None => None
    case Some(hs) =>
      match StripAndRename(hs)
      case None => None
      case Some(ps) =>
        match ProxyDict(ps)
        case None => None
        case Some(d) =>
          ProxyDictKeysMatch(ps);
          Some((ps, d))
  }

  /** Nothing that has failed a check survives pre-processing: each output
      proxy comes from a stored proxy whose `fail_count` is not positive, and
      every such stored proxy has an output copy. */
  lemma PreProcessDropsFailed(proxies: seq<Record>)
    requires PreProcess(proxies).Some?
    ensures var hs := Healthy(proxies).value;
      (forall i :: 0 <= i < |hs| ==> hs[i] in proxies && HasFailed(hs[i]) == Some(false))
      && (forall i :: 0 <= i < |proxies| && HasFailed(proxies[i]) == Some(false) ==> proxies[i] in hs)
  {
  }

  /** `generate_mihomo_configs()`: chunk `c` of the pre-processed proxies
      (`proxies[i:i + 50]` with `i = 50 * c`) goes to
      `mihomo_{start + i}_{start + i + len(chunk)}.yml` with its proxies
      numbered from `start + i`. */
  function GenerateConfigs(proxies: seq<Record>, start: int): (r: Option<seq<ConfigFile>>)
    ensures r.Some? <==> PreProcess(proxies).Some?
    ensures r.Some? ==> AllProxies(r.value) == WithPorts(PreProcess(proxies).value.0, start)
  {
    match PreProcess(proxies)
    case None => None
    case Some((ps, _)) => Some(Files(ps, start, ChunkSize, 0))
  }

  /** File `c` covers ports `start + 50c` up to, and not including, the
      number in its name, holds at most 50 proxies, and all but the last
      file hold exactly 50. */
  lemma GeneratedFileNames(proxies: seq<Record>, start: int, c: nat)
    requires GenerateConfigs(proxies, start).Some? && c < |GenerateConfigs(proxies, start).value|
    ensures var files := GenerateConfigs(proxies, start).value;
      files[c].first == start + ChunkSize * c
      && files[c].last == files[c].first + |files[c].proxies|
      && 0 < |files[c].proxies| <= ChunkSize
      && (c < |files| - 1 ==> |files[c].proxies| == ChunkSize)
  {
    var ps := PreProcess(proxies).value.0;
    assert GenerateConfigs(proxies, start).value == Files(ps, start, ChunkSize, 0);
    FilesNames(ps, start, ChunkSize, 0, c);
  }

  /** Every file's listeners exist: listener `j` is `mixed{port}` on the
      port of the file's proxy `j`, serving that proxy. */
  lemma GeneratedListeners(proxies: seq<Record>, start: int, c: nat)
    requires GenerateConfigs(proxies, start).Some? && c < |GenerateConfigs(proxies, start).value|
    ensures ServesOwnPorts(GenerateConfigs(proxies, start).value[c])
  {
    var ps := PreProcess(proxies).value.0;
    var files := Files(ps, start, ChunkSize, 0);
    assert GenerateConfigs(proxies, start).value == files;
    PreProcessNamed(proxies);
    FilesListeners(ps, start, ChunkSize, 0, c);
  }

  lemma PreProcessNamed(proxies: seq<Record>)
    requires PreProcess(proxies).Some?
    ensures var ps := PreProcess(proxies).value.0; forall i :: 0 <= i < |ps| ==> "name" in ps[i]
  {
    var ps := PreProcess(proxies).value.0;
    forall i | 0 <= i < |ps|
      ensures "name" in ps[i]
    {
      assert NameOf(ps[i]).Some?;
    }
  }

  /** `update_proxy(key, proxy)`: the record is stamped and stored under the
      key rebuilt from its own `server` and `port`; the `key` argument is
      ignored. `None` when the key cannot be rendered. */
  function UpdateProxy(t: Table, key: string, proxy: Record, now: string): (r: Option<Table>)
    ensures r.Some? <==> GetServerPortKey(proxy).Some?
    ensures (r.Some? ==> var k := GetServerPortKey(proxy).value;
      r.value.Keys == t.Keys + {k} && r.value[k] == Dict(Stamped(proxy, now))
      && forall k2 :: k2 in t && k2 != k ==> r.value[k2] == t[k2])
  {
    match GetServerPortKey(proxy)
    case None => None
    case Some(k) => Some(Put(t, k, Dict(Stamped(proxy, now))))
  }
}
