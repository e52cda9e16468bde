/** submanager/mihomo_proxy_pool.py: the three proxy pools behind the mihomo
    containers. `MiHoMoProxyPool` writes one config for one subscription's
    proxies; `SublinkProxyPool` filters, fixes up and renames the stored
    sub-link proxies and writes them in chunks of 100; `SubscriptionPool`
    reads a subscription's traffic header, decides whether the subscription
    is worth keeping and lays the pools out on consecutive port blocks. The
    HTTP fetches, YAML dumps, environment lookups and docker control are not
    modelled. */
module MihomoProxyPool {
  import opened Wrappers
  import opened Strings
  import opened PyValue
  import opened Codecs
  import opened Pool
  import opened UserInfo
  import opened MihomoConfig

  /** `MiHoMoProxyPool`'s default first port. */
  const DefaultStartPort: int := 43001
  /** `SublinkProxyPool.chunk_size`. */
  const SublinkChunkSize: nat := 100

  // ---------------------------------------------------------------------
  // MiHoMoProxyPool
  // ---------------------------------------------------------------------

  /** The config `MiHoMoProxyPool` writes for one subscription: the name's
      two ports, the listeners and the proxies as given. */
  datatype PoolFile = PoolFile(first: int, last: int, listeners: seq<Record>, proxies: seq<Record>)

  /** `generate_mihomo_config()`: listener `i` is `mixed{start + i}` on port
      `start + i` for proxy `i`, the proxies are written unchanged, and the
      file is `mihomo_{start}_{start + len(proxies)}.yml`. `None` when a
      proxy has no name. */
  function GeneratePoolConfig(proxies: seq<Record>, start: int): (r: Option<PoolFile>)
    ensures r.Some? <==> forall i :: 0 <= i < |proxies| ==> "name" in proxies[i]
    ensures (r.Some? ==> (r.value.first == start && r.value.last == start + |proxies|
      && r.value.proxies == proxies && |r.value.listeners| == |proxies|))
    ensures (r.Some? ==> forall i :: 0 <= i < |proxies| ==>
      r.value.listeners[i] == Listener(IntToString(start + i), Int(start + i), proxies[i]["name"]))
  {
    match IndexedListeners(proxies, start, start)
    case None => None
    case Some(ls) => Some(PoolFile(start, start + |proxies|, ls, proxies))
  }

  /** The listeners are the ones the chunked pools build from stored
      `local_port`s, for the same proxies numbered from `start`. */
  lemma PoolConfigAsNumbered(proxies: seq<Record>, start: int)
    requires GeneratePoolConfig(proxies, start).Some?
    ensures Some(GeneratePoolConfig(proxies, start).value.listeners) == ListenersFor(WithPorts(proxies, start))
  {
    IndexedListenersNumbered(proxies, start);
  }

  // ---------------------------------------------------------------------
  // SublinkProxyPool
  // ---------------------------------------------------------------------

  /** What the first half of the `pre_process_proxies` loop does with one
      proxy: `Some(None)` skips it (an unsupported vless flow or a positive
      `fail_count`), `Some(Some(q))` keeps its fixed-up copy `q`, and `None`
      is an exception. */
  function Admit(lib: Lib, p: Record): (r: Option<Option<Record>>)
    ensures UnsupportedFlow(p) ==> r == Some(None)
    ensures (!UnsupportedFlow(p) ==>
      (r.Some? <==> SsFixups(lib, p).Some? && HasFailed(p).Some?))
    ensures (r.Some? && r.value.Some? ==>
      !UnsupportedFlow(p) && Some(r.value.value) == SsFixups(lib, p) && HasFailed(p) == Some(false))
    ensures (!UnsupportedFlow(p) && SsFixups(lib, p).Some? && HasFailed(p) == Some(false) ==>
      r == Some(SsFixups(lib, p)))
  {
    if UnsupportedFlow(p) then Some(None)
    else
      match SsFixups(lib, p)
      case None => None
      case Some(q) =>
        match HasFailed(q)
        case None => None
        case Some(failed) => if failed then Some(None) else Some(Some(q))
  }

  /** The fixed-up copies of the admitted proxies, in order; `None` when one
      raises. */
  function Admitted(lib: Lib, ps: seq<Record>): (r: Option<seq<Record>>)
    ensures r.Some? <==> forall i :: 0 <= i < |ps| ==> Admit(lib, ps[i]).Some?
    ensures r.Some? ==> |r.value| <= |ps|
    ensures (r.Some? ==> forall k :: 0 <= k < |r.value| ==>
      exists i :: 0 <= i < |ps| && Admit(lib, ps[i]) == Some(Some(r.value[k])))
    ensures (r.Some? ==> forall i :: 0 <= i < |ps| && Admit(lib, ps[i]).value.Some? ==>
      Admit(lib, ps[i]).value.value in r.value)
    decreases |ps|
  {
    if |ps| == 0 then Some([])
    else
      var init := ps[..|ps| - 1];
      var p := ps[|ps| - 1];
      assert forall i :: 0 <= i < |ps| - 1 ==> init[i] == ps[i];
      match (Admitted(lib, init), Admit(lib, p))
      case (Some(rest), Some(None)) => Some(rest)
      case (Some(rest), Some(Some(q))) =>
        var r := rest + [q];
        assert forall k :: 0 <= k < |rest| ==> r[k] == rest[k];
        Some(r)
      case _ => None
  }

  /** No admitted proxy has an unsupported flow or has failed, and each one
      is the fix-up of a stored proxy. */
  lemma AdmittedAreClean(lib: Lib, ps: seq<Record>, k: nat)
    requires Admitted(lib, ps).Some? && k < |Admitted(lib, ps).value|
    ensures var q := Admitted(lib, ps).value[k];
      !UnsupportedFlow(q) && HasFailed(q) == Some(false)
      && exists i :: 0 <= i < |ps| && SsFixups(lib, ps[i]) == Some(q)
  {
    var q := Admitted(lib, ps).value[k];
    var i :| 0 <= i < |ps| && Admit(lib, ps[i]) == Some(Some(q));
    var p := ps[i];
    assert !UnsupportedFlow(p) && HasFailed(p) == Some(false) && SsFixups(lib, p) == Some(q);
  }

  /** `SublinkProxyPool.pre_process_proxies()`: the admitted proxies stripped
      and renamed apart, and `proxy_dict` over the new records. */
  function SublinkPreProcess(lib: Lib, proxies: seq<Record>): (r: Option<(seq<Record>, map<string, Record>)>)
    ensures (r.Some? <==> (Admitted(lib, proxies).Some? && StripAndRename(Admitted(lib, proxies).value).Some?
      && ProxyDict(StripAndRename(Admitted(lib, proxies).value).value).Some?))
    ensures r.Some? ==> |r.value.0| == |Admitted(lib, proxies).value|
    ensures r.Some? ==> forall i, j :: 0 <= i < j < |r.value.0| ==> NameOf(r.value.0[i]) != NameOf(r.value.0[j])
    ensures r.Some? ==> forall i :: 0 <= i < |r.value.0| ==> NameOf(r.value.0[i]).Some?
    ensures r.Some? ==> forall i, k :: 0 <= i < |r.value.0| && k in Bookkeeping ==> k !in r.value.0[i]
    ensures r.Some? ==> forall k :: k in r.value.1 ==> r.value.1[k] in r.value.0
  {
    match Admitted(lib, proxies)
    case None => None
    case Some(qs) =>
      match StripAndRename(qs)
      case None => None
      case Some(ps) =>
        match ProxyDict(ps)
        case None => None
        case Some(d) => Some((ps, d))
  }

  /** `SublinkProxyPool.generate_mihomo_configs()`: chunks of 100 numbered
      from `start`, each file named after its first and its LAST port. */
  function SublinkConfigs(lib: Lib, proxies: seq<Record>, start: int): (r: Option<seq<ConfigFile>>)
    ensures r.Some? <==> SublinkPreProcess(lib, proxies).Some?
    ensures r.Some? ==> AllProxies(r.value) == WithPorts(SublinkPreProcess(lib, proxies).value.0, start)
  {
    match SublinkPreProcess(lib, proxies)
    case None => None
    case Some((ps, _)) => Some(Files(ps, start, SublinkChunkSize, -1))
  }

  /** File `c` covers ports `start + 100c` through the (inclusive) port in
      its name and serves each of its proxies on that proxy's port. */
  lemma SublinkFiles(lib: Lib, proxies: seq<Record>, start: int, c: nat)
    requires SublinkConfigs(lib, proxies, start).Some? && c < |SublinkConfigs(lib, proxies, start).value|
    ensures var files := SublinkConfigs(lib, proxies, start).value;
      files[c].first == start + SublinkChunkSize * c
      && files[c].last == files[c].first + |files[c].proxies| - 1
      && 0 < |files[c].proxies| <= SublinkChunkSize
    ensures ServesOwnPorts(SublinkConfigs(lib, proxies, start).value[c])
  {
    var ps := SublinkPreProcess(lib, proxies).value.0;
    assert SublinkConfigs(lib, proxies, start).value == Files(ps, start, SublinkChunkSize, -1);
    assert forall i :: 0 <= i < |ps| ==> "name" in ps[i] by {
      assert forall i :: 0 <= i < |ps| ==> NameOf(ps[i]).Some?;
    }
    FilesNames(ps, start, SublinkChunkSize, -1, c);
    FilesListeners(ps, start, SublinkChunkSize, -1, c);
  }

  // ---------------------------------------------------------------------
  // SubscriptionPool
  // ---------------------------------------------------------------------

  /** `SubscriptionPool.parse_subscription_user_info(t)`: the remaining
      traffic `total - upload - download` and the expiry (`int` of its text,
      or the empty text as is), or `('', '')` when the header is malformed. */
  function SubscriptionUserInfo(t: string): (r: (Value, Value))
    ensures RawHeader(t).None? ==> r == (Str(""), Str(""))
    ensures RawHeader(t).Some? ==> r == UserInfoOf(RawHeader(t).value)
  {
    match RawHeader(t)
    case None => (Str(""), Str(""))
    case Some(v) => UserInfoOf(v)
  }

  /** The `try` body of `parse_subscription_user_info` on the header's text
      dictionary. */
  function UserInfoOf(v: map<string, string>): (r: (Value, Value))
    ensures !HasTrafficKeys(v) ==> r == (Str(""), Str(""))
    ensures r.0.Int? || r == (Str(""), Str(""))
    ensures r.0.Int? ==> r.1.Int? || r.1 == Str("")
  {
    if !HasTrafficKeys(v) then (Str(""), Str(""))
    else UserInfoOfNumbers(PyIntOfStr(v["total"]), PyIntOfStr(v["upload"]), PyIntOfStr(v["download"]),
                           v["expire"], PyIntOfStr(v["expire"]))
  }

  /** The same once the four `int` calls are made: a raising call gives
      `('', '')`, and an empty expiry text is kept as it is. */
  function UserInfoOfNumbers(total: Option<int>, up: Option<int>, down: Option<int>, expire: string, e: Option<int>): (r: (Value, Value))
    ensures r.0.Int? || r == (Str(""), Str(""))
    ensures r.0.Int? ==> r.1.Int? || r.1 == Str("")
  {
    if total.None? || up.None? || down.None? then (Str(""), Str(""))
    else if expire == "" then (Int(total.value - (up.value + down.value)), Str(""))
    else if e.None? then (Str(""), Str(""))
    else (Int(total.value - (up.value + down.value)), Int(e.value))
  }

  /** Four integer fields give the remaining traffic and the expiry. */
  lemma UserInfoOfInts(v: map<string, string>, total: int, up: int, down: int, e: int)
    requires HasTrafficKeys(v)
    requires PyIntOfStr(v["total"]) == Some(total) && PyIntOfStr(v["upload"]) == Some(up)
    requires PyIntOfStr(v["download"]) == Some(down) && PyIntOfStr(v["expire"]) == Some(e)
    ensures UserInfoOf(v) == (Int(total - up - down), Int(e))
  {
    assert v["expire"] != "" by {
      PyIntOfEmpty();
    }
    NumbersOfInts(total, up, down, v["expire"], e);
  }

  /** Four successful `int` calls and a non-empty expiry text. */
  lemma NumbersOfInts(total: int, up: int, down: int, expire: string, e: int)
    requires expire != ""
    ensures UserInfoOfNumbers(Some(total), Some(up), Some(down), expire, Some(e)) == (Int(total - up - down), Int(e))
  {
    assert total - (up + down) == total - up - down;
  }

  /** A well-formed header with the four keys gives the remaining traffic and
      the expiry it states. */
  lemma SubscriptionUserInfoOfHeader(t: string, v: map<string, int>)
    requires Header(t) == Some(v) && HasTrafficKeys(v)
    ensures SubscriptionUserInfo(t) == (Int(v["total"] - v["upload"] - v["download"]), Int(v["expire"]))
  {
    HeaderNumbers(t, v, v["total"], v["upload"], v["download"], v["expire"]);
  }

  /** The same with the four numbers named. */
  lemma HeaderNumbers(t: string, v: map<string, int>, total: int, up: int, down: int, e: int)
    requires Header(t) == Some(v) && HasTrafficKeys(v)
    requires total == v["total"] && up == v["upload"] && down == v["download"] && e == v["expire"]
    ensures SubscriptionUserInfo(t) == (Int(total - up - down), Int(e))
  {
    RawHeaderInts(t, v);
    SubscriptionUserInfoOfRaw(t, total, up, down, e);
  }

  /** The four fields of a text dictionary are the texts of these integers. */
  predicate IntTexts(raw: map<string, string>, total: int, up: int, down: int, e: int) {
    && "total" in raw && PyIntOfStr(raw["total"]) == Some(total)
    && "upload" in raw && PyIntOfStr(raw["upload"]) == Some(up)
    && "download" in raw && PyIntOfStr(raw["download"]) == Some(down)
    && "expire" in raw && PyIntOfStr(raw["expire"]) == Some(e)
  }

  /** The text dictionary of such a header holds the texts of those four integers. */
  lemma RawHeaderInts(t: string, v: map<string, int>)
    requires Header(t) == Some(v) && HasTrafficKeys(v)
    ensures RawHeader(t).Some? && IntTexts(RawHeader(t).value, v["total"], v["upload"], v["download"], v["expire"])
  {
    HeaderIsRawAt(t, "total");
    HeaderIsRawAt(t, "upload");
    HeaderIsRawAt(t, "download");
    HeaderIsRawAt(t, "expire");
  }

  /** A header whose text dictionary holds four integer texts gives their
      remaining traffic and expiry. */
  lemma SubscriptionUserInfoOfRaw(t: string, total: int, up: int, down: int, e: int)
    requires RawHeader(t).Some? && IntTexts(RawHeader(t).value, total, up, down, e)
    ensures SubscriptionUserInfo(t) == (Int(total - up - down), Int(e))
  {
    UserInfoOfInts(RawHeader(t).value, total, up, down, e);
  }

  lemma PyIntOfEmpty()
    ensures PyIntOfStr("") == None
  {
    assert Strip("") == "";
  }

  /** 2^30 bytes. */
  const GiB: real := 1073741824.0

  /** Python `len(v)`; `None` for values without a length. */
  function PyLen(v: Value): (r: Option<nat>)
    ensures v.List? ==> r == Some(|v.items|)
    ensures v.Int? || v.Real? || v.Bool? || v.Null? ==> r.None?
  {
    match v
    case Str(s) => Some(|s|)
    case List(items) => Some(|items|)
    case Dict(fields) => Some(|fields|)
    case _ => None
  }

  /** `check_sub_available(key, sub_info)` at time `now`: `None` when a
      comparison or the traffic division raises. */
  function CheckSubAvailable(subInfo: Record, now: real): (r: Option<bool>)
    ensures (r == Some(true) <==>
      var trafic := GetOr(subInfo, "trafic", Int(-1));
      var expire := GetOr(subInfo, "expire", Real(now));
      Number(trafic).Some? && (!Truthy(trafic) || Number(trafic).value >= GiB)
      && (!Truthy(expire) || PyGe(Int(Truncate(now)), expire) == Some(false))
      && PyLen(GetOr(subInfo, "proxies", List([]))).Some? && PyLen(GetOr(subInfo, "proxies", List([]))).value > 0)
  {
    var trafic := GetOr(subInfo, "trafic", Int(-1));
    var expire := GetOr(subInfo, "expire", Real(now));
    match Number(trafic)
    case None => None
    case Some(x) =>
      if Truthy(trafic) && x / GiB < 1.0 then Some(false)
      else if Truthy(expire) && PyGe(Int(Truncate(now)), expire) != Some(false) then
        (if PyGe(Int(Truncate(now)), expire).None? then None else Some(false))
      else
        match PyLen(GetOr(subInfo, "proxies", List([])))
        case None => None
        case Some(n) => Some(n > 0)
  }

  /** A subscription without a `trafic` entry counts as having -1 bytes left
      and is rejected; one whose header failed to parse (`trafic == ''`)
      makes the check raise. */
  lemma CheckSubTrafficDefaults(subInfo: Record, now: real)
    ensures "trafic" !in subInfo ==> CheckSubAvailable(subInfo, now) == Some(false)
    ensures ("trafic" in subInfo && subInfo["trafic"] == Str("") ==>
      CheckSubAvailable(subInfo, now).None?)
  {
  }

  /** With plenty of traffic and proxies, a subscription is kept exactly when
      its integer expiry lies after the current second. */
  lemma CheckSubExpiry(subInfo: Record, now: real, expire: int)
    requires "trafic" in subInfo && subInfo["trafic"].Int? && subInfo["trafic"].i as real >= GiB
    requires "proxies" in subInfo && subInfo["proxies"].List? && |subInfo["proxies"].items| > 0
    requires "expire" in subInfo && subInfo["expire"] == Int(expire) && expire != 0
    ensures CheckSubAvailable(subInfo, now) == Some(expire > Truncate(now))
  {
  }

  /** One port block of the compose file: a pool serving `count` proxies
      from port `start`. */
  datatype Block = Block(start: int, count: nat)

  /** The port bookkeeping of `generate_docker_compose_config`: the sub-link
      pool comes first, and each subscription whose service was generated
      (`Some(n)` proxies) starts where the previous block ended; a
      subscription that raised (`None`) gets no block and moves no port. */
  function Blocks(start: int, services: seq<Option<nat>>): (r: seq<Block>)
    ensures |r| <= |services|
    ensures |r| > 0 ==> r[0].start == start
    ensures forall k :: 0 <= k < |r| - 1 ==> r[k + 1].start == r[k].start + r[k].count
    decreases |services|
  {
    if |services| == 0 then []
    else
      match services[0]
      case None => Blocks(start, services[1..])
      case Some(n) => [Block(start, n)] + Blocks(start + n, services[1..])
  }

  /** The port blocks never overlap: every later block starts at or after
      the end of an earlier one. */
  lemma {:induction false} BlocksDisjoint(start: int, services: seq<Option<nat>>, k: nat, l: nat)
    requires k < l < |Blocks(start, services)|
    ensures var r := Blocks(start, services); r[k].start + r[k].count <= r[l].start
    decreases l - k
  {
    var r := Blocks(start, services);
    if l > k + 1 {
      BlocksDisjoint(start, services, k + 1, l);
    }
  }
}
