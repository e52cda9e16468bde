/** submanager/merge_sub_upload.py: resolving a proxy's server to an IP,
    naming the merged proxies after their location and dropping the ones
    located in mainland China. DNS, the GeoIP database and the IP-risk
    service are given as lookup functions; subconverter, YAML and the gist
    upload are not part of this model. */
module MergeSubUpload {
  import opened Wrappers
  import opened Strings
  import opened PyValue
  import opened Ipv4
  import opened Naming
  import opened Pool

  /** `domain_to_ip(domain)`; `resolved` is what `socket.gethostbyname`
      returns for it, `None` when the lookup raises. */
  function DomainToIp(domain: string, resolved: Option<string>): (r: string)
    ensures IsValidIpv4(domain) ==> r == domain
    ensures resolved.None? ==> r == domain
    ensures r == domain || (!IsValidIpv4(domain) && resolved == Some(r))
  {
    if IsValidIpv4(domain) then domain
    else match resolved
      case Some(ip) => ip
      case None => domain
  }

  /** An address that is already a dotted quad is never looked up. */
  lemma DottedQuadKept(a: nat, b: nat, c: nat, d: nat, resolved: Option<string>)
    requires a <= 255 && b <= 255 && c <= 255 && d <= 255
    ensures DomainToIp(Quad(a, b, c, d), resolved) == Quad(a, b, c, d)
  {
    assert IsDottedQuad(Quad(a, b, c, d));
  }

  const HongKong: string := "香港"
  const Taiwan: string := "台湾"
  const Mainland: string := "中国"

  /** The `loc` label of a risk report's location: `香港` or `台湾` when the
      location mentions them, its first word otherwise; `None` when the
      location has no word (`split()[0]` raises). */
  function LocationLabel(location: string): (r: Option<string>)
    ensures r.None? <==> |SplitWhitespace(location)| == 0
    ensures r.Some? && Contains(location, HongKong) ==> r.value == HongKong
    ensures r.Some? && !Contains(location, HongKong) && Contains(location, Taiwan) ==> r.value == Taiwan
    ensures (r.Some? && !Contains(location, HongKong) && !Contains(location, Taiwan)
      ==> r.value == SplitWhitespace(location)[0])
  {
    var words := SplitWhitespace(location);
    if |words| == 0 then None
    else if Contains(location, HongKong) then Some(HongKong)
    else if Contains(location, Taiwan) then Some(Taiwan)
    else Some(words[0])
  }

  /** What `get_ip_risk_score` reports: the `location` value and the text of `risk_score`. */
  datatype RiskInfo = RiskInfo(location: Value, riskScore: string)

  /** The outside lookups the naming loop makes. */
  datatype Lookups = Lookups(
    /** `socket.gethostbyname(domain)`; `None` when it raises. */
    resolve: string -> Option<string>,
    /** `get_country_by_ip(server)` (`未知` when the database has no answer). */
    country: string -> string,
    /** `get_ip_risk_score(proxy['server'])`; `None` when the report is empty or the call raises. */
    risk: Value -> Option<RiskInfo>)

  /** `domain_to_ip(proxy['server'])`: a non-string server makes
      `is_valid_ipv4` raise, which `domain_to_ip` catches, returning it unchanged. */
  function ServerIp(lk: Lookups, server: Value): (r: Value)
    ensures !server.Str? ==> r == server
    ensures server.Str? ==> r == Str(DomainToIp(server.s, lk.resolve(server.s)))
  {
    if server.Str? then Str(DomainToIp(server.s, lk.resolve(server.s))) else server
  }

  /** The name a proxy asks for before de-duplication: `{country}-{server}`,
      or `{loc}-{server}-{risk_score}` when a usable risk report exists.
      `None` when `proxy['server']` is missing or cannot be rendered. */
  function BaseName(lk: Lookups, proxy: Record): (r: Option<string>)
    ensures r.Some? ==> "server" in proxy && Render(ServerIp(lk, proxy["server"])).Some?
    ensures (r.Some? && lk.risk(proxy["server"]).None?
      ==> r.value == lk.country(Render(ServerIp(lk, proxy["server"])).value) + "-" + Render(ServerIp(lk, proxy["server"])).value)
  {
    if "server" !in proxy then None
    else
      match Render(ServerIp(lk, proxy["server"]))
      case None => None
      case Some(server) =>
        var plain := lk.country(server) + "-" + server;
        match lk.risk(proxy["server"])
        case None => Some(plain)
        case Some(info) =>
          if !info.location.Str? then Some(plain)
          else match LocationLabel(info.location.s)
            case None => Some(plain)
            case Some(loc) => Some(loc + "-" + server + "-" + info.riskScore)
  }

  /** A location naming Hong Kong labels the proxy `香港-<server>-<score>`. */
  lemma HongKongLabel(lk: Lookups, proxy: Record, location: string)
    requires "server" in proxy && Render(ServerIp(lk, proxy["server"])).Some?
    requires lk.risk(proxy["server"]).Some? && lk.risk(proxy["server"]).value.location == Str(location)
    requires Contains(location, HongKong)
    ensures BaseName(lk, proxy) == Some(HongKong + "-" + Render(ServerIp(lk, proxy["server"])).value
      + "-" + lk.risk(proxy["server"]).value.riskScore)
  {
    HongKongLocation(location);
  }

  /** A location naming Hong Kong is never blank, so its label is `香港`. */
  lemma HongKongLocation(location: string)
    requires Contains(location, HongKong)
    ensures LocationLabel(location) == Some(HongKong)
  {
    ContainsIff(location, HongKong);
    var j: nat :| j <= |location| && MatchAt(location, HongKong, j);
    assert location[j] == location[j..j + |HongKong|][0] == HongKong[0];
    WordsOfNonBlank(location, j);
  }

  /** Text holding a non-space character has at least one word. */
  lemma {:induction false} WordsOfNonBlank(s: string, j: nat)
    requires j < |s| && !IsSpace(s[j])
    ensures |SplitWhitespace(s)| > 0
  {
    var t := LStrip(s);
  }

  /** The base names of all proxies, in order; `None` when one of them raises. */
  function BaseNames(lk: Lookups, proxies: seq<Record>): (r: Option<seq<string>>)
    ensures r.Some? ==> |r.value| == |proxies|
    ensures r.Some? ==> forall i :: 0 <= i < |proxies| ==> BaseName(lk, proxies[i]) == Some(r.value[i])
  {
    if |proxies| == 0 then Some([])
    else
      match (BaseName(lk, proxies[0]), BaseNames(lk, proxies[1..]))
      case (Some(n), Some(rest)) => Some([n] + rest)
      case _ => None
  }

  /** `'中国' in proxy['name']`. */
  predicate InMainland(p: Record) {
    "name" in p && p["name"].Str? && Contains(p["name"].s, Mainland)
  }

  /** `[proxy for proxy in proxies if not '中国' in proxy['name']]`. */
  function DropMainland(ps: seq<Record>): (r: seq<Record>)
    ensures |r| <= |ps|
    ensures forall k :: 0 <= k < |r| ==> !InMainland(r[k]) && r[k] in ps
    ensures forall i :: 0 <= i < |ps| && !InMainland(ps[i]) ==> ps[i] in r
    ensures ((forall i, j :: 0 <= i < j < |ps| ==> Get(ps[i], "name") != Get(ps[j], "name"))
      ==> forall i, j :: 0 <= i < j < |r| ==> Get(r[i], "name") != Get(r[j], "name"))
  {
    if |ps| == 0 then []
    else
      var rest := DropMainland(ps[1..]);
      if InMainland(ps[0]) then rest
      else
        assert forall k :: 0 <= k < |rest| ==> rest[k] in ps[1..];
        [ps[0]] + rest
  }

  /** The renaming and filtering of `post_process_proxies`; `None` when it raises. */
  function PostProcessProxies(lk: Lookups, proxies: seq<Record>): (r: Option<seq<Record>>)
    ensures r.Some? <==> BaseNames(lk, proxies).Some?
    ensures r.Some? ==> |r.value| <= |proxies|
    ensures r.Some? ==> forall k :: 0 <= k < |r.value| ==> !InMainland(r.value[k])
    ensures r.Some? ==> forall i, j :: 0 <= i < j < |r.value| ==> Get(r.value[i], "name") != Get(r.value[j], "name")
  {
    match BaseNames(lk, proxies)
    case None => None
    case Some(bases) =>
      var renamed := WithNames(proxies, RenameAll(bases, {}));
      Some(DropMainland(renamed))
  }

  /** Each surviving proxy is an input proxy whose only change is its new
      name, which starts with the name it asked for. */
  lemma PostProcessRenamesOnly(lk: Lookups, proxies: seq<Record>)
    requires PostProcessProxies(lk, proxies).Some?
    ensures var bases := BaseNames(lk, proxies).value;
      forall k :: 0 <= k < |PostProcessProxies(lk, proxies).value| ==>
        exists i :: (0 <= i < |proxies| && "name" in PostProcessProxies(lk, proxies).value[k]
          && PostProcessProxies(lk, proxies).value[k] == proxies[i]["name" := PostProcessProxies(lk, proxies).value[k]["name"]]
          && PostProcessProxies(lk, proxies).value[k]["name"].Str?
          && StartsWith(PostProcessProxies(lk, proxies).value[k]["name"].s, bases[i]))
  {
    var bases := BaseNames(lk, proxies).value;
    var names := RenameAll(bases, {});
    var renamed := WithNames(proxies, names);
    var out := PostProcessProxies(lk, proxies).value;
    forall k | 0 <= k < |out|
      ensures exists i :: (0 <= i < |proxies| && "name" in out[k]
        && out[k] == proxies[i]["name" := out[k]["name"]]
        && out[k]["name"].Str? && StartsWith(out[k]["name"].s, bases[i]))
    {
      var i :| 0 <= i < |renamed| && renamed[i] == out[k];
      assert out[k]["name"] == Str(names[i]);
    }
  }
}
