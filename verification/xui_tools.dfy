/** tools/xui.py: the x-ui panel checker's helpers, the share links it
    builds from a panel's inbound list, and the de-duplication of the panel
    URLs it is given. HTTP, the GeoIP reader and DNS are outside the model:
    the country the reader reports is a parameter. */
module XuiTools {
  import opened Wrappers
  import opened Strings
  import opened PyValue
  import opened Codecs
  import Pool

  // ---------------------------------------------------------------------
  // trim, convert_bytes_to_readable_unit, Panel
  // ---------------------------------------------------------------------

  /** `trim(text)`: the stripped string, `""` for anything that is not a string. */
  function Trim(v: Value): (r: string)
    ensures !v.Str? ==> r == ""
    ensures |r| > 0 ==> !IsSpace(r[0]) && !IsSpace(r[|r| - 1])
    ensures v.Str? ==> |r| <= |v.s|
  {
    if v.Str? then Strip(v.s) else ""
  }

  /** Trimming twice is trimming once. */
  lemma TrimIdempotent(v: Value)
    ensures Trim(Str(Trim(v))) == Trim(v)
  {
    var r := Trim(v);
    assert LStrip(r) == r;
    assert RStrip(r) == r;
  }

  datatype Unit = MB | GB | TB

  const MiB: nat := 0x10_0000
  const GiB: nat := 0x4000_0000
  const TiB: nat := 0x100_0000_0000

  function UnitSize(u: Unit): nat {
    match u
    case MB => MiB
    case GB => GiB
    case TB => TiB
  }

  /** The unit `convert_bytes_to_readable_unit(num)` prints and the number it
      scales (the `.2f` rendering is not modelled). */
  function ReadableUnit(num: int): (r: (Unit, real))
    ensures r.0 == TB <==> num >= TiB
    ensures r.0 == GB <==> GiB <= num < TiB
    ensures r.0 == MB <==> num < GiB
    ensures r.1 * UnitSize(r.0) as real == num as real
    ensures r.0 != MB ==> 1.0 <= r.1
    ensures r.0 != TB && num >= 0 ==> r.1 < 1024.0
  {
    var u := if num >= TiB then TB else if num >= GiB then GB else MB;
    (u, num as real / UnitSize(u) as real)
  }

  /** A larger byte count never gets a smaller unit. */
  lemma UnitMonotone(a: int, b: int)
    requires a <= b
    ensures UnitSize(ReadableUnit(a).0) <= UnitSize(ReadableUnit(b).0)
  {
  }

  /** The panel's url and credentials after `Panel.__init__`. */
  datatype Credentials = Credentials(url: string, username: string, password: string)

  /** `Panel(url, username, password)`. */
  function NewPanel(url: Value, username: Value, password: Value): (p: Credentials)
    ensures p.url == Trim(url)
    ensures p.username != "" && p.password != ""
    ensures p.username == Trim(username) || (Trim(username) == "" && p.username == "admin")
    ensures p.password == Trim(password) || (Trim(password) == "" && p.password == "admin")
  {
    Credentials(Trim(url), OrAdmin(Trim(username)), OrAdmin(Trim(password)))
  }

  function OrAdmin(s: string): string {
    if s != "" then s else "admin"
  }

  /** Blank or missing credentials fall back to `admin`; the defaults are `admin` too. */
  lemma BlankCredentials(url: Value, username: Value, password: Value)
    requires Trim(username) == "" && Trim(password) == ""
    ensures NewPanel(url, username, password) == NewPanel(url, Str("admin"), Str("admin"))
  {
    assert Trim(Str("admin")) == "admin" by {
      assert LStrip("admin") == "admin";
      assert RStrip("admin") == "admin";
    }
  }

  // ---------------------------------------------------------------------
  // Reading the inbound's JSON
  // ---------------------------------------------------------------------

  /** `v[k]` on a JSON object; `None` for a missing key or a non-object. */
  function Field(v: Value, k: string): (r: Option<Value>)
    ensures r.Some? <==> v.Dict? && k in v.fields
    ensures r.Some? ==> r.value == v.fields[k]
  {
    if v.Dict? && k in v.fields then Some(v.fields[k]) else None
  }

  /** `json.loads(item[k])`; `None` when the key is missing, the value is not
      a string, or the text is not JSON. */
  function Loaded(lib: Lib, item: Record, k: string): (r: Option<Value>)
    ensures r.Some? ==> k in item && item[k].Str? && lib.jsonLoads(item[k].s) == r
  {
    if k in item && item[k].Str? then lib.jsonLoads(item[k].s) else None
  }

  /** `settings["clients"][0]`, when it is an object. */
  function FirstClient(settings: Value): (r: Option<Record>)
    ensures r.Some? ==> Field(settings, "clients").Some? && Field(settings, "clients").value.List?
  {
    match Field(settings, "clients")
    case Some(List(cs)) => if |cs| > 0 && cs[0].Dict? then Some(cs[0].fields) else None
    case _ => None
  }

  /** `settings["clients"][0][k]`. */
  function ClientField(settings: Value, k: string): Option<Value> {
    match FirstClient(settings)
    case Some(c) => if k in c then Some(c[k]) else None
    case None => None
  }

  /** `stream_settings.get("wsSettings", {}).get("path", "/")`; a non-object
      `wsSettings` raises. */
  function WsPath(stream: Value): (r: Option<Value>)
    requires stream.Dict?
    ensures "wsSettings" !in stream.fields ==> r == Some(Str("/"))
  {
    var ws := GetOr(stream.fields, "wsSettings", Dict(map[]));
    if ws.Dict? then Some(GetOr(ws.fields, "path", Str("/"))) else None
  }

  /** `f"{v}"` where the model can render it. */
  function Text(v: Value): Option<string> {
    Render(v)
  }

  /** `parse.quote(v)`: only strings are accepted. */
  function Quoted(lib: Lib, v: Value): Option<string> {
    if v.Str? then Some(lib.quote(v.s)) else None
  }

  /** `link += f"#{parse.quote(remark)}"` when `remark` is truthy. */
  function WithRemark(lib: Lib, link: string, remark: Value): (r: Option<string>)
    ensures !Truthy(remark) ==> r == Some(link)
    ensures Truthy(remark) && remark.Str? ==> r == Some(link + "#" + lib.quote(remark.s))
    ensures Truthy(remark) && !remark.Str? ==> r.None?
  {
    if !Truthy(remark) then Some(link)
    else match Quoted(lib, remark)
      case Some(q) => Some(link + "#" + q)
      case None => None
  }

  /** When the link itself has no `#`, the remark's fragment is exactly what
      follows the first `#`: link and quoted remark can be told apart again. */
  lemma RemarkSplitsOff(lib: Lib, link: string, remark: string)
    requires remark != "" && !Contains(link, "#")
    ensures WithRemark(lib, link, Str(remark)).Some?
    ensures Partition(WithRemark(lib, link, Str(remark)).value, "#") == Parts(link, true, lib.quote(remark))
  {
    var s := link + "#" + lib.quote(remark);
    FindAfterPrefixOne(link, lib.quote(remark));
    assert s[..|link|] == link;
    assert s[|link| + 1..] == lib.quote(remark);
  }

  /** The first `#` of `k + "#" + s` is the one after `k` when `k` has none. */
  lemma FindAfterPrefixOne(k: string, s: string)
    requires !Contains(k, "#")
    ensures Find(k + "#" + s, "#") == Some(|k|)
  {
    forall j: nat | j < |k|
      ensures !MatchAt(k + "#" + s, "#", j)
    {
      if MatchAt(k + "#" + s, "#", j) {
        assert (k + "#" + s)[j] == k[j];
        assert MatchAt(k, "#", j);
        ContainsIff(k, "#");
      }
    }
    assert (k + "#" + s)[|k|..|k| + 1] == "#";
    assert MatchAt(k + "#" + s, "#", |k|);
  }

  // ---------------------------------------------------------------------
  // build_*_link
  // ---------------------------------------------------------------------

  /** `settings["clients"][0].get("flow", "")`, when the client exists. */
  function Flow(lib: Lib, item: Record): Option<Value> {
    match Loaded(lib, item, "settings")
    case None => None
    case Some(settings) =>
      match FirstClient(settings)
      case Some(c) => Some(GetOr(c, "flow", Str("")))
      case None => None
  }

  /** The `type=…&security=…&path=…` query of a vless link. */
  function VlessQuery(lib: Lib, stream: Value): (r: Option<string>)
    ensures r.Some? ==> StartsWith(r.value, "type=")
  {
    if !stream.Dict? || "network" !in stream.fields || "security" !in stream.fields then None
    else match (Text(stream.fields["network"]), Text(stream.fields["security"]), WsPath(stream))
      case (Some(n), Some(s), Some(path)) =>
        (match Quoted(lib, path)
         case Some(p) => Some("type=" + n + "&security=" + s + "&path=" + p)
         case None => None)
      case _ => None
  }

  /** `build_vless_link`; `None` stands for the exception it raises. */
  function BuildVlessLink(lib: Lib, item: Record, address: Value, port: Value, remark: Value): (r: Option<string>)
    ensures r.Some? ==> (r.value != "" <==> Flow(lib, item) == Some(Str(Pool.Vision)))
    ensures r.Some? && r.value != "" ==> StartsWith(r.value, "vless://")
  {
    match Loaded(lib, item, "settings")
    case None => None
    case Some(settings) =>
      match (ClientField(settings, "id"), FirstClient(settings), Loaded(lib, item, "streamSettings"))
      case (Some(id), Some(client), Some(stream)) =>
        (match VlessQuery(lib, stream)
         case None => None
         case Some(query) =>
           if GetOr(client, "flow", Str("")) != Str(Pool.Vision) then Some("")
           else
             match (Text(id), Text(address), Text(port))
             case (Some(i), Some(a), Some(p)) =>
               WithRemark(lib, "vless://" + i + "@" + a + ":" + p + "?" + query + "&flow=" + Pool.Vision, remark)
             case _ => None)
      case _ => None
  }

  /** `build_trojan_link`. */
  function BuildTrojanLink(lib: Lib, item: Record, address: Value, port: Value, remark: Value): (r: Option<string>)
    ensures r.Some? ==> StartsWith(r.value, "trojan://")
  {
    match Loaded(lib, item, "settings")
    case None => None
    case Some(settings) =>
      match ClientField(settings, "password")
      case None => None
      case Some(pw) =>
        match (Text(pw), Text(address), Text(port))
        case (Some(c), Some(a), Some(p)) => WithRemark(lib, "trojan://" + c + "@" + a + ":" + p, remark)
        case _ => None
  }

  /** The `method:password@address:port` credentials of a shadowsocks inbound. */
  function SsCredentials(lib: Lib, item: Record, address: Value, port: Value): Option<string> {
    match Loaded(lib, item, "settings")
    case None => None
    case Some(settings) =>
      match (Field(settings, "method"), Field(settings, "password"))
      case (Some(m), Some(pw)) =>
        (match (Text(m), Text(pw), Text(address), Text(port))
         case (Some(a), Some(b), Some(c), Some(d)) => Some(a + ":" + b + "@" + c + ":" + d)
         case _ => None)
      case _ => None
  }

  /** `base64.urlsafe_b64encode(s).decode().strip('=')`. */
  function Unpadded(lib: Lib, s: string): (r: string)
    ensures |r| > 0 ==> r[0] != '=' && r[|r| - 1] != '='
  {
    StripChar(lib.urlsafeB64encode(s), '=')
  }

  /** `build_shadowsocks_link`: `ss://` and the unpadded base64 of the credentials. */
  function BuildShadowsocksLink(lib: Lib, item: Record, address: Value, port: Value, remark: Value): (r: Option<string>)
    ensures r.Some? ==> SsCredentials(lib, item, address, port).Some?
    ensures r.Some? ==> StartsWith(r.value, "ss://" + Unpadded(lib, SsCredentials(lib, item, address, port).value))
  {
    match SsCredentials(lib, item, address, port)
    case None => None
    case Some(creds) => WithRemark(lib, "ss://" + Unpadded(lib, creds), remark)
  }

  /** The `vmess_config` object of `build_vmess_link`. */
  function VmessConfig(lib: Lib, item: Record, address: Value, port: Value, remark: Value): (r: Option<Record>)
    ensures r.Some? && Truthy(remark) ==> "ps" in r.value && r.value["ps"] == remark
    ensures r.Some? && !Truthy(remark) ==> "tag" in item && "ps" in r.value && r.value["ps"] == item["tag"]
    ensures r.Some? ==> "add" in r.value && r.value["add"] == address && "port" in r.value && r.value["port"] == port
  {
    match Loaded(lib, item, "settings")
    case None => None
    case Some(settings) =>
      match (ClientField(settings, "id"), Loaded(lib, item, "streamSettings"))
      case (Some(id), Some(stream)) =>
        if !stream.Dict? || "network" !in stream.fields then None
        else
          (match WsPath(stream)
           case None => None
           case Some(path) =>
             if !Truthy(remark) && "tag" !in item then None
             else
               var ps := if Truthy(remark) then remark else item["tag"];
               Some(map["v" := Str("2"), "ps" := ps, "add" := address, "port" := port, "id" := id,
                        "aid" := Str("0"), "net" := stream.fields["network"], "type" := Str("none"),
                        "host" := Str(""), "path" := path, "tls" := Str("")]))
      case _ => None
  }

  /** `build_vmess_link`: `vmess://` and the unpadded base64 of the JSON config. */
  function BuildVmessLink(lib: Lib, item: Record, address: Value, port: Value, remark: Value): (r: Option<string>)
    ensures r.Some? <==> VmessConfig(lib, item, address, port, remark).Some?
    ensures r.Some? ==> r.value == "vmess://" + Unpadded(lib, lib.jsonDumps(Dict(VmessConfig(lib, item, address, port, remark).value)))
  {
    match VmessConfig(lib, item, address, port, remark)
    case None => None
    case Some(cfg) => Some("vmess://" + Unpadded(lib, lib.jsonDumps(Dict(cfg))))
  }

  /** The scheme a protocol's links start with; `""` for an unsupported protocol. */
  function SchemeOf(protocol: Value): string {
    if protocol == Str("vless") then "vless://"
    else if protocol == Str("vmess") then "vmess://"
    else if protocol == Str("trojan") then "trojan://"
    else if protocol == Str("shadowsocks") then "ss://"
    else ""
  }

  /** `build_link`: dispatch on the inbound's protocol. */
  function BuildLink(lib: Lib, protocol: Value, item: Record, address: Value, port: Value, remark: Value): (r: Option<string>)
    ensures SchemeOf(protocol) == "" ==> r == Some("")
    ensures r.Some? && r.value != "" ==> StartsWith(r.value, SchemeOf(protocol)) && SchemeOf(protocol) != ""
  {
    if protocol == Str("vless") then BuildVlessLink(lib, item, address, port, remark)
    else if protocol == Str("vmess") then BuildVmessLink(lib, item, address, port, remark)
    else if protocol == Str("trojan") then BuildTrojanLink(lib, item, address, port, remark)
    else if protocol == Str("shadowsocks") then BuildShadowsocksLink(lib, item, address, port, remark)
    else Some("")
  }

  /** The remark only ever appends `#` and its quoted text: a falsy remark
      gives the bare link, a string remark the bare link plus the fragment. */
  lemma RemarkIsFragment(lib: Lib, protocol: Value, item: Record, address: Value, port: Value, remark: Value)
    requires protocol in {Str("vless"), Str("trojan"), Str("shadowsocks")}
    requires remark.Str?
    ensures var bare := BuildLink(lib, protocol, item, address, port, Str(""));
      var r := BuildLink(lib, protocol, item, address, port, remark);
      (remark.s == "" ==> r == bare)
      && (remark.s != "" && bare.Some? && bare.value != "" ==> r == Some(bare.value + "#" + lib.quote(remark.s)))
  {
  }

  /** An empty remark makes vmess take the inbound's `tag` as `ps`. */
  lemma VmessPsFallsBackToTag(lib: Lib, item: Record, address: Value, port: Value)
    requires VmessConfig(lib, item, address, port, Str("")).Some?
    ensures var cfg := VmessConfig(lib, item, address, port, Str("")).value;
      "tag" in item && "ps" in cfg && cfg["ps"] == item["tag"]
  {
  }

  // ---------------------------------------------------------------------
  // generate_subscription_links
  // ---------------------------------------------------------------------

  /** One `(link, expiryTime, total)` entry. */
  datatype Entry = Entry(link: string, expiryTime: Value, total: Value)

  /** The country name the GeoIP reader reports for the panel's address:
      `None` when there is no reader or the lookup raises (the entry keeps its
      own remark), `Some(name)` otherwise (`""` when it has no Chinese name). */
  type Country = Option<string>

  const Mainland: string := "中国"

  /** What one inbound contributes: `None` when it raises, otherwise the
      (possibly empty) list of entries it adds. */
  function EntryOf(lib: Lib, item: Value, address: Value, country: Country): (r: Option<seq<Entry>>)
    ensures r.Some? ==> |r.value| <= 1
    ensures r.Some? && |r.value| == 1 ==> r.value[0].link != "" && item.Dict? && HasTruthy(item.fields, "enable")
    ensures item.Dict? && !HasTruthy(item.fields, "enable") ==> r == Some([])
  {
    if !item.Dict? then None
    else
      var it := item.fields;
      if !HasTruthy(it, "enable") then Some([])
      else if "protocol" !in it || "port" !in it then None
      else
        var remark := GetOr(it, "remark", Str(""));
        if country == Some(Mainland) then Some([])
        else
          var remark' := if country.Some? && country.value != "" then Str(country.value) else remark;
          match BuildLink(lib, it["protocol"], it, address, it["port"], remark')
          case None => None
          case Some(link) =>
            if link == "" then Some([])
            else if "expiryTime" in it && "total" in it then Some([Entry(link, it["expiryTime"], it["total"])])
            else None
  }

  /** The loop over `data.get("obj", [])`. */
  function EntriesOf(lib: Lib, items: seq<Value>, address: Value, country: Country): (r: Option<seq<Entry>>)
    ensures r.Some? ==> |r.value| <= |items|
    ensures r.Some? ==> forall k :: 0 <= k < |r.value| ==> r.value[k].link != ""
  {
    if |items| == 0 then Some([])
    else
      match (EntryOf(lib, items[0], address, country), EntriesOf(lib, items[1..], address, country))
      case (Some(e), Some(rest)) => Some(e + rest)
      case _ => None
  }

  /** `generate_subscription_links(data, address, reader)`; `None` when it raises. */
  function GenerateSubscriptionLinks(lib: Lib, data: Value, address: Value, country: Country): (r: Option<seq<Entry>>)
    ensures !Truthy(data) ==> r == Some([])
    ensures data.Dict? && !HasTruthy(data.fields, "success") ==> r == Some([])
    ensures r.Some? && r.value != [] ==> data.Dict? && HasTruthy(data.fields, "success")
    ensures r.Some? ==> forall k :: 0 <= k < |r.value| ==> r.value[k].link != ""
  {
    if !Truthy(data) then Some([])
    else if !data.Dict? then None
    else if !HasTruthy(data.fields, "success") then Some([])
    else
      match GetOr(data.fields, "obj", List([]))
      case List(items) => EntriesOf(lib, items, address, country)
      case Str(s) => if s == "" then Some([]) else None
      case Dict(m) => if m == map[] then Some([]) else None
      case _ => None
  }

  /** A disabled inbound contributes nothing and raises nothing. */
  lemma {:induction false} DisabledSkipped(lib: Lib, items: seq<Value>, address: Value, country: Country, k: nat)
    requires k < |items| && items[k].Dict? && !HasTruthy(items[k].fields, "enable")
    ensures EntriesOf(lib, items, address, country) == EntriesOf(lib, items[..k] + items[k + 1..], address, country)
    decreases k
  {
    if k == 0 {
      assert items[..0] + items[1..] == items[1..];
      var rest := EntriesOf(lib, items[1..], address, country);
      if rest.Some? {
        assert [] + rest.value == rest.value;
      }
    } else {
      var skipped := items[..k] + items[k + 1..];
      DisabledSkipped(lib, items[1..], address, country, k - 1);
      assert items[1..][..k - 1] + items[1..][k..] == skipped[1..];
      assert skipped[0] == items[0];
    }
  }

  /** A panel located in mainland China yields no links. */
  lemma {:induction false} MainlandYieldsNothing(lib: Lib, items: seq<Value>, address: Value)
    ensures EntriesOf(lib, items, address, Some(Mainland)).Some? ==> EntriesOf(lib, items, address, Some(Mainland)).value == []
    decreases |items|
  {
    if |items| > 0 {
      MainlandYieldsNothing(lib, items[1..], address);
    }
  }

  // ---------------------------------------------------------------------
  // Checker.dedup
  // ---------------------------------------------------------------------

  /** `trim(line).lower()`. */
  function Normalize(line: string): (r: string)
    ensures |r| <= |line|
  {
    Lower(Strip(line))
  }

  /** The line survives the blank/comment filter. */
  predicate Accepted(l: string) {
    l != "" && !StartsWith(l, "#") && !StartsWith(l, ";")
  }

  /** `include_subpath(url)`: after the scheme there is a `/` and the URL does
      not end in one. */
  predicate IncludeSubpath(url: string) {
    var u := Lower(Strip(url));
    var rest := if StartsWith(u, "http://") then u[7..] else if StartsWith(u, "https://") then u[8..] else u;
    Contains(rest, "/") && !EndsWith(rest, "/")
  }

  /** `cmp(url)`. */
  datatype SortKey = SortKey(x: int, y: int, url: string)

  function KeyOf(url: string): (k: SortKey)
    ensures k.url == url
    ensures k.x == 1 <==> IncludeSubpath(url)
    ensures k.y == 2 <==> StartsWith(url, "https://")
  {
    SortKey(if IncludeSubpath(url) then 1 else 0,
            if StartsWith(url, "https://") then 2 else if StartsWith(url, "http://") then 1 else 0,
            url)
  }

  /** Python's `<` on `(x, y, url)` tuples. */
  predicate KeyLess(a: SortKey, b: SortKey) {
    a.x < b.x || (a.x == b.x && (a.y < b.y || (a.y == b.y && StrLess(a.url, b.url))))
  }

  lemma KeyLessTransitive(a: SortKey, b: SortKey, c: SortKey)
    requires KeyLess(a, b) && KeyLess(b, c)
    ensures KeyLess(a, c)
  {
    if a.x == b.x == c.x && a.y == b.y == c.y {
      StrLessTransitive(a.url, b.url, c.url);
    }
  }

  lemma KeyLessTotal(a: SortKey, b: SortKey)
    ensures a.url == b.url || KeyLess(a, b) || KeyLess(b, a)
  {
    StrLessTotal(a.url, b.url);
  }

  lemma KeyLessIrreflexive(a: SortKey)
    ensures !KeyLess(a, a)
  {
    StrLessIrreflexive(a.url);
  }

  /** A URL with a sub-path beats any without one, and otherwise https beats
      anything that is not https. */
  lemma PreferSubpathThenHttps(a: string, b: string)
    ensures IncludeSubpath(a) && !IncludeSubpath(b) ==> KeyLess(KeyOf(b), KeyOf(a))
    ensures (IncludeSubpath(a) == IncludeSubpath(b) && StartsWith(a, "https://") && !StartsWith(b, "https://")
      ==> KeyLess(KeyOf(b), KeyOf(a)))
  {
  }

  /** The line takes part in the grouping: it is accepted and `urlparse`
      finds a non-empty netloc in it. */
  predicate Grouped(lib: Lib, l: string) {
    Accepted(l) && lib.urlparse(l).Some? && lib.urlparse(l).value.netloc != ""
  }

  function NetlocOf(lib: Lib, l: string): string
    requires lib.urlparse(l).Some?
  {
    lib.urlparse(l).value.netloc
  }

  /** The `groups` dictionary, kept as the domains in insertion order and the
      best URL seen so far for each. */
  datatype Groups = Groups(order: seq<string>, best: map<string, string>)

  ghost predicate WellFormed(g: Groups) {
    (forall i, j :: 0 <= i < j < |g.order| ==> g.order[i] != g.order[j])
    && (forall d :: d in g.best <==> d in g.order)
  }

  /** `groups[domain].add(line)`, keeping only the maximum under `cmp`. */
  function AddLine(g: Groups, d: string, l: string): (r: Groups)
    requires WellFormed(g)
    ensures WellFormed(r)
    ensures |r.order| <= |g.order| + 1
  {
    if d in g.best then
      if KeyLess(KeyOf(g.best[d]), KeyOf(l)) then Groups(g.order, g.best[d := l]) else g
    else
      Groups(g.order + [d], g.best[d := l])
  }

  /** The lines after `trim(line).lower()`. */
  function Norms(lines: seq<string>): (r: seq<string>)
    ensures |r| == |lines|
    ensures forall i :: 0 <= i < |lines| ==> r[i] == Normalize(lines[i])
    decreases |lines|
  {
    if |lines| == 0 then [] else Norms(lines[..|lines| - 1]) + [Normalize(lines[|lines| - 1])]
  }

  /** The grouping loop over the normalised lines; `None` when `urlparse`
      raises on an accepted line. */
  function GroupLines(lib: Lib, norms: seq<string>): (r: Option<Groups>)
    ensures r.Some? ==> WellFormed(r.value) && |r.value.order| <= |norms|
    ensures r.None? <==> exists i :: 0 <= i < |norms| && Accepted(norms[i]) && lib.urlparse(norms[i]).None?
    decreases |norms|
  {
    if |norms| == 0 then Some(Groups([], map[]))
    else
      var init := norms[..|norms| - 1];
      assert forall i :: 0 <= i < |init| ==> init[i] == norms[i];
      match GroupLines(lib, init)
      case None => None
      case Some(g) => StepLine(lib, g, norms[|norms| - 1])
  }

  /** One turn of the grouping loop. */
  function StepLine(lib: Lib, g: Groups, l: string): (r: Option<Groups>)
    requires WellFormed(g)
    ensures r.Some? ==> WellFormed(r.value) && |r.value.order| <= |g.order| + 1
    ensures r.None? <==> Accepted(l) && lib.urlparse(l).None?
    ensures r.Some? && !Grouped(lib, l) ==> r.value == g
    ensures r.Some? && Grouped(lib, l) ==> r.value == AddLine(g, NetlocOf(lib, l), l)
  {
    if !Accepted(l) then Some(g)
    else match lib.urlparse(l)
      case None => None
      case Some(u) => if u.netloc == "" then Some(g) else Some(AddLine(g, u.netloc, l))
  }

  /** The best URLs in domain order. */
  function Pick(order: seq<string>, best: map<string, string>): (r: seq<string>)
    requires forall i :: 0 <= i < |order| ==> order[i] in best
    ensures |r| == |order|
    ensures forall i :: 0 <= i < |order| ==> r[i] == best[order[i]]
  {
    if |order| == 0 then [] else [best[order[0]]] + Pick(order[1..], best)
  }

  /** `Checker.dedup()`: the new domain list; `None` when it raises. */
  function Dedup(lib: Lib, lines: seq<string>): (r: Option<seq<string>>)
    ensures r.Some? <==> GroupLines(lib, Norms(lines)).Some?
    ensures r.Some? ==> |r.value| <= |lines|
  {
    match GroupLines(lib, Norms(lines))
    case None => None
    case Some(g) => Some(Pick(g.order, g.best))
  }

  /** The recorded best URL of `m`'s netloc is `m` or beats it under `cmp`. */
  ghost predicate Covers(lib: Lib, g: Groups, m: string) {
    Grouped(lib, m) ==>
      NetlocOf(lib, m) in g.best
      && (m == g.best[NetlocOf(lib, m)] || KeyLess(KeyOf(m), KeyOf(g.best[NetlocOf(lib, m)])))
  }

  /** Every recorded URL is one of `norms`, of its own netloc. */
  ghost predicate Drawn(lib: Lib, norms: seq<string>, g: Groups) {
    forall d :: d in g.best ==> Grouped(lib, g.best[d]) && NetlocOf(lib, g.best[d]) == d && g.best[d] in norms
  }

  /** Adding a line keeps every earlier line covered. */
  lemma AddLineCovers(lib: Lib, g: Groups, l: string, m: string)
    requires WellFormed(g) && Grouped(lib, l) && Covers(lib, g, m)
    ensures Covers(lib, AddLine(g, NetlocOf(lib, l), l), m)
  {
    var d := NetlocOf(lib, l);
    var g' := AddLine(g, d, l);
    if Grouped(lib, m) {
      var e := NetlocOf(lib, m);
      if e != d {
        assert g'.best[e] == g.best[e];
      } else if KeyLess(KeyOf(g.best[d]), KeyOf(l)) {
        assert g'.best[d] == l;
        if m != g.best[d] {
          KeyLessTransitive(KeyOf(m), KeyOf(g.best[d]), KeyOf(l));
        }
      } else {
        assert g' == g;
      }
    }
  }

  /** The added line itself is covered. */
  lemma AddLineCoversNew(lib: Lib, g: Groups, l: string)
    requires WellFormed(g) && Grouped(lib, l)
    ensures Covers(lib, AddLine(g, NetlocOf(lib, l), l), l)
  {
    var d := NetlocOf(lib, l);
    if d in g.best && !KeyLess(KeyOf(g.best[d]), KeyOf(l)) {
      KeyLessTotal(KeyOf(l), KeyOf(g.best[d]));
    }
  }

  /** One turn of the loop keeps every recorded URL drawn from the lines
      seen so far. */
  lemma StepLineDrawn(lib: Lib, init: seq<string>, g: Groups, l: string)
    requires WellFormed(g) && StepLine(lib, g, l).Some? && Drawn(lib, init, g)
    ensures Drawn(lib, init + [l], StepLine(lib, g, l).value)
  {
    var g' := StepLine(lib, g, l).value;
    var seen := init + [l];
    assert l in seen;
    forall e | e in g'.best
      ensures Grouped(lib, g'.best[e]) && NetlocOf(lib, g'.best[e]) == e && g'.best[e] in seen
    {
      if g'.best[e] != l {
        assert g'.best[e] == g.best[e];
        var i :| 0 <= i < |init| && init[i] == g.best[e];
        assert seen[i] == init[i];
      }
    }
  }

  /** One turn of the loop keeps every line seen so far covered. */
  lemma StepLineCovers(lib: Lib, init: seq<string>, g: Groups, l: string)
    requires WellFormed(g) && StepLine(lib, g, l).Some?
    requires forall i :: 0 <= i < |init| ==> Covers(lib, g, init[i])
    ensures forall i :: 0 <= i < |init + [l]| ==> Covers(lib, StepLine(lib, g, l).value, (init + [l])[i])
  {
    var g' := StepLine(lib, g, l).value;
    if Grouped(lib, l) {
      forall i | 0 <= i < |init|
        ensures Covers(lib, g', init[i])
      {
        AddLineCovers(lib, g, l, init[i]);
      }
      AddLineCoversNew(lib, g, l);
    }
  }

  /** The grouping records, for every netloc of the input, one of its lines,
      and no line of that netloc beats it. */
  lemma {:induction false} GroupLinesSummarises(lib: Lib, norms: seq<string>)
    requires GroupLines(lib, norms).Some?
    ensures Drawn(lib, norms, GroupLines(lib, norms).value)
    ensures forall i :: 0 <= i < |norms| ==> Covers(lib, GroupLines(lib, norms).value, norms[i])
    decreases |norms|
  {
    if |norms| > 0 {
      var init := norms[..|norms| - 1];
      assert norms == init + [norms[|norms| - 1]];
      GroupLinesSummarises(lib, init);
      StepLineDrawn(lib, init, GroupLines(lib, init).value, norms[|norms| - 1]);
      StepLineCovers(lib, init, GroupLines(lib, init).value, norms[|norms| - 1]);
    }
  }

  /** `dedup` keeps at most one URL per netloc, every kept URL is a normalised
      input line, and for every netloc of the input the kept URL is the
      maximum under `cmp` among that netloc's lines. */
  lemma DedupKeepsMaximumPerDomain(lib: Lib, lines: seq<string>)
    requires Dedup(lib, lines).Some?
    ensures var r := Dedup(lib, lines).value;
      (forall k :: 0 <= k < |r| ==> Grouped(lib, r[k]) && r[k] in Norms(lines))
      && (forall j, k :: 0 <= j < k < |r| && Grouped(lib, r[j]) && Grouped(lib, r[k]) ==> NetlocOf(lib, r[j]) != NetlocOf(lib, r[k]))
      && (forall i :: 0 <= i < |lines| && Grouped(lib, Normalize(lines[i])) ==>
          (exists k :: (0 <= k < |r| && Grouped(lib, r[k]) && NetlocOf(lib, r[k]) == NetlocOf(lib, Normalize(lines[i]))
            && (r[k] == Normalize(lines[i]) || KeyLess(KeyOf(Normalize(lines[i])), KeyOf(r[k]))))))
  {
    DedupKept(lib, lines);
    var r := Dedup(lib, lines).value;
    forall i | 0 <= i < |lines| && Grouped(lib, Normalize(lines[i]))
      ensures exists k :: (0 <= k < |r| && Grouped(lib, r[k]) && NetlocOf(lib, r[k]) == NetlocOf(lib, Normalize(lines[i]))
        && (r[k] == Normalize(lines[i]) || KeyLess(KeyOf(Normalize(lines[i])), KeyOf(r[k]))))
    {
      DedupCovers(lib, lines, i);
    }
  }

  /** The kept URL at position `k` is a grouped input line of the `k`-th netloc. */
  lemma DedupKept(lib: Lib, lines: seq<string>)
    requires Dedup(lib, lines).Some?
    ensures var r := Dedup(lib, lines).value; var g := GroupLines(lib, Norms(lines)).value;
      |r| == |g.order|
      && forall k :: 0 <= k < |r| ==> (Grouped(lib, r[k]) && r[k] in Norms(lines) && NetlocOf(lib, r[k]) == g.order[k]
        && g.order[k] in g.best && r[k] == g.best[g.order[k]])
  {
    var norms := Norms(lines);
    var g := GroupLines(lib, norms).value;
    GroupLinesSummarises(lib, norms);
    var r := Dedup(lib, lines).value;
    assert r == Pick(g.order, g.best);
    forall k | 0 <= k < |r|
      ensures Grouped(lib, r[k]) && r[k] in norms && NetlocOf(lib, r[k]) == g.order[k]
        && g.order[k] in g.best && r[k] == g.best[g.order[k]]
    {
      assert r[k] == g.best[g.order[k]];
    }
  }

  /** A grouped input line's netloc is kept, by a URL that is that line or
      beats it. */
  lemma DedupCovers(lib: Lib, lines: seq<string>, i: nat)
    requires Dedup(lib, lines).Some? && i < |lines| && Grouped(lib, Normalize(lines[i]))
    ensures var r := Dedup(lib, lines).value; var m := Normalize(lines[i]);
      exists k :: 0 <= k < |r| && Grouped(lib, r[k]) && NetlocOf(lib, r[k]) == NetlocOf(lib, m) && (r[k] == m || KeyLess(KeyOf(m), KeyOf(r[k])))
  {
    var norms := Norms(lines);
    var g := GroupLines(lib, norms).value;
    GroupLinesSummarises(lib, norms);
    DedupKept(lib, lines);
    var r := Dedup(lib, lines).value;
    var m := norms[i];
    assert Covers(lib, g, m);
    var d := NetlocOf(lib, m);
    var k :| 0 <= k < |g.order| && g.order[k] == d;
    assert r[k] == g.best[d];
  }
}
