/** submanager/xui_scan/gen_link.py: share links generated from an x-ui
    panel inbound (`ConfigGenerator`). The inbound's `settings` and
    `streamSettings` JSON are given already parsed; the final `urlencode`,
    `urlunparse`, `json.dumps` and base64 steps are library calls.
    Every `None` result stands for an exception the generator raises:
    a settings object that is not a mapping, a list that `str.join` cannot
    join, a header entry that cannot be read, a list-valued reality setting
    that `.split` is called on, or a first client without `id`. */
module GenLink {
  import opened Wrappers
  import opened Strings
  import opened PyValue
  import opened Codecs

  /** `safeBase64(s)`: URL-safe base64 with the `=` padding removed. */
  function SafeBase64(lib: Lib, s: string): (r: string)
    ensures |r| == 0 || r[|r| - 1] != '='
    ensures StartsWith(lib.urlsafeB64encode(s), r)
    ensures forall i :: |r| <= i < |lib.urlsafeB64encode(s)| ==> lib.urlsafeB64encode(s)[i] == '='
  {
    RStripChar(lib.urlsafeB64encode(s), '=')
  }

  /** `m[k] == v`, with `k` present. */
  predicate Has(m: map<string, Value>, k: string, v: Value) {
    k in m && m[k] == v
  }

  /** `b` carries `a`'s entry for `k`, if `a` has one. */
  predicate Keeps(a: map<string, Value>, b: map<string, Value>, k: string) {
    k in a ==> k in b && b[k] == a[k]
  }

  /** `ObjectUtil.isEmpty`: `None` or the empty string. */
  predicate IsEmpty(v: Value) {
    v == Null || v == Str("")
  }

  // ---------------------------------------------------------------------
  // Reading the settings objects
  // ---------------------------------------------------------------------

  /** `r.get(k, {})` can be used as a mapping: the key is absent or holds one. */
  predicate ObjectAt(r: Record, k: string) {
    k !in r || r[k].Dict?
  }

  /** `r.get(k, {})` as a nested settings object. `None` stands for the
      `AttributeError` of the `.get` that follows on anything but a mapping. */
  function SubOf(r: Record, k: string): (o: Option<Record>)
    ensures o.Some? <==> ObjectAt(r, k)
    ensures k !in r ==> o == Some(map[])
    ensures k in r && r[k].Dict? ==> o == Some(r[k].fields)
  {
    if k !in r then Some(map[])
    else if r[k].Dict? then Some(r[k].fields)
    else None
  }

  /** The one-character strings iterating `s` yields. */
  function Chars(s: string): (r: seq<string>)
    ensures |r| == |s| && forall i :: 0 <= i < |s| ==> r[i] == [s[i]]
  {
    seq(|s|, i requires 0 <= i < |s| => [s[i]])
  }

  /** The strings of a list whose items are all strings; `None` when one is
      not (`str.join` raises `TypeError`). */
  function ItemStrs(items: seq<Value>): (r: Option<seq<string>>)
    ensures r.Some? <==> forall i :: 0 <= i < |items| ==> items[i].Str?
    ensures r.Some? ==> |r.value| == |items| && forall i :: 0 <= i < |items| ==> items[i] == Str(r.value[i])
  {
    if |items| == 0 then Some([])
    else if !items[0].Str? then None
    else
      match ItemStrs(items[1..])
      case None => None
      case Some(rest) => Some([items[0].s] + rest)
  }

  /** `','.join(v)`: a list of strings joined with `,`, or the characters
      of a string joined with `,`; an empty mapping joins to `""`. `None`
      stands for the `TypeError` of a list holding a non-string or of a
      value that is not iterable. */
  function JoinOf(v: Value): (r: Option<string>)
    ensures v.List? ==> (r.Some? <==> forall i :: 0 <= i < |v.items| ==> v.items[i].Str?)
    ensures v.List? && r.Some? ==> r.value == Join(ItemStrs(v.items).value, ",")
    ensures v.Str? ==> r == Some(Join(Chars(v.s), ","))
    ensures v.Null? || v.Int? || v.Real? || v.Bool? ==> r.None?
  {
    match v
    case List(items) =>
      (match ItemStrs(items)
       case None => None
       case Some(xs) => Some(Join(xs, ",")))
    case Str(s) => Some(Join(Chars(s), ","))
    case Dict(f) => if f == map[] then Some("") else None
    case _ => None
  }

  /** `','.join(r.get(k, []))`. */
  function JoinList(r: Record, k: string): (s: Option<string>)
    ensures k !in r ==> s == Some("")
  {
    JoinOf(GetOr(r, k, List([])))
  }

  // ---------------------------------------------------------------------
  // Headers
  // ---------------------------------------------------------------------

  /** A header entry `getHeader` can read: a mapping whose `name` (default
      `''`) is a string, so `.lower()` applies. */
  predicate Named(h: Value) {
    h.Dict? && GetOr(h.fields, "name", Str("")).Str?
  }

  /** A readable header entry whose name equals `name` ignoring case. */
  predicate NameMatches(h: Value, name: string) {
    Named(h) && Lower(GetOr(h.fields, "name", Str("")).s) == Lower(name)
  }

  /** Every header before position `i` is readable and does not match, so the scan passes it. */
  predicate PassedBefore(hs: seq<Value>, name: string, i: int)
    requires i <= |hs|
  {
    forall j :: 0 <= j < i ==> Named(hs[j]) && !NameMatches(hs[j], name)
  }

  /** `getHeader(obj, name)`'s loop: the `value` of the first header whose
      `name` matches case-insensitively, `None` (Python's) when no header
      matches. The scan raises at the first entry before a match that is
      not a mapping or whose name is not a string. */
  function GetHeader(headers: seq<Value>, name: string): (r: Option<Value>)
    ensures PassedBefore(headers, name, |headers|) ==> r == Some(Null)
    ensures forall i :: 0 <= i < |headers| && PassedBefore(headers, name, i) && NameMatches(headers[i], name) ==>
      r == Some(Get(headers[i].fields, "value"))
    ensures forall i :: 0 <= i < |headers| && PassedBefore(headers, name, i) && !Named(headers[i]) ==> r.None?
  {
    if |headers| == 0 then Some(Null)
    else if !Named(headers[0]) then None
    else if NameMatches(headers[0], name) then Some(Get(headers[0].fields, "value"))
    else
      PassedShift(headers, name);
      GetHeader(headers[1..], name)
  }

  /** Passing a prefix of the headers after the first is passing the
      shifted prefix of the rest. */
  lemma PassedShift(headers: seq<Value>, name: string)
    requires |headers| > 0
    ensures forall i :: 1 <= i <= |headers| && PassedBefore(headers, name, i) ==> PassedBefore(headers[1..], name, i - 1)
    ensures forall i :: 1 <= i < |headers| ==> headers[1..][i - 1] == headers[i]
  {
    forall i | 1 <= i <= |headers| && PassedBefore(headers, name, i)
      ensures PassedBefore(headers[1..], name, i - 1)
    {
      forall j | 0 <= j < i - 1 ensures Named(headers[1..][j]) && !NameMatches(headers[1..][j], name) {
        assert headers[1..][j] == headers[j + 1];
      }
    }
  }

  /** The entries `for header in headers` visits: a list's items; an empty
      string or mapping has none. `None` stands for the error of anything
      else: a non-empty string or mapping yields strings, whose `.get`
      raises, and a number, boolean or `None` is not iterable. */
  function HeaderList(v: Value): (r: Option<seq<Value>>)
    ensures v.List? ==> r == Some(v.items)
    ensures r.Some? <==> v.List? || v == Str("") || v == Dict(map[])
  {
    match v
    case List(items) => Some(items)
    case Str(s) => if s == "" then Some([]) else None
    case Dict(f) => if f == map[] then Some([]) else None
    case _ => None
  }

  /** `getHeader(request, 'host')`, with `headers` defaulting to `[]`. */
  function RequestHost(request: Record): Option<Value> {
    match HeaderList(GetOr(request, "headers", List([])))
    case None => None
    case Some(hs) => GetHeader(hs, "host")
  }

  /** The tcp `http` header object: `request = tcp.get('request', {})`, its
      path list joined with `,` and its `host` header. */
  function HttpRequest(tcp: Record): (r: Option<(string, Value)>)
    ensures r.Some? <==> (ObjectAt(tcp, "request")
      && JoinList(SubOf(tcp, "request").value, "path").Some? && RequestHost(SubOf(tcp, "request").value).Some?)
    ensures r.Some? ==> (r.value.0 == JoinList(SubOf(tcp, "request").value, "path").value
      && r.value.1 == RequestHost(SubOf(tcp, "request").value).value)
  {
    match SubOf(tcp, "request")
    case None => None
    case Some(request) =>
      match (JoinList(request, "path"), RequestHost(request))
      case (Some(path), Some(host)) => Some((path, host))
      case _ => None
  }

  /** `obj.get('headers', {}).get('Host')`. */
  function HostOf(obj: Record): (h: Option<Value>)
    ensures h.Some? <==> ObjectAt(obj, "headers")
    ensures "headers" !in obj ==> h == Some(Null)
  {
    match SubOf(obj, "headers")
    case None => None
    case Some(hs) => Some(Get(hs, "Host"))
  }

  /** `host and len(host) > 0`. `None` stands for the `TypeError` of `len`
      on a truthy number or boolean. */
  function NonEmptyHost(host: Value): (r: Option<bool>)
    ensures r.Some? <==> !Truthy(host) || host.Str? || host.List? || host.Dict?
    ensures r.Some? ==> r.value == Truthy(host)
  {
    if !Truthy(host) then Some(false)
    else if host.Str? || host.List? || host.Dict? then Some(true)
    else None
  }

  /** The `Host` header of a ws-like settings object can be read and tested. */
  predicate HostOk(obj: Record) {
    HostOf(obj).Some? && NonEmptyHost(HostOf(obj).value).Some?
  }

  /** The effective security: the stream's own when `forceTls` is `'same'`, `forceTls` otherwise. */
  function Security(stream: Record, forceTls: Value): (s: Value)
    ensures forceTls == Str("same") ==> s == Get(stream, "security")
    ensures forceTls != Str("same") ==> s == forceTls
  {
    if forceTls == Str("same") then Get(stream, "security") else forceTls
  }

  /** The first client of the inbound; `None` stands for the `KeyError`/`IndexError`
      of `settings["clients"][0]`, or for the error of using a non-mapping client. */
  function FirstClient(settings: Record): Option<Record> {
    if "clients" in settings && settings["clients"].List? && |settings["clients"].items| > 0
       && settings["clients"].items[0].Dict?
    then Some(settings["clients"].items[0].fields)
    else None
  }

  /** `settings["clients"][0]["id"]`; `None` stands for its `KeyError`. */
  function ClientId(settings: Record): (r: Option<Value>)
    ensures r.Some? <==> FirstClient(settings).Some? && "id" in FirstClient(settings).value
    ensures r.Some? ==> r.value == FirstClient(settings).value["id"]
  {
    match FirstClient(settings)
    case None => None
    case Some(client) => if "id" in client then Some(client["id"]) else None
  }

  // ---------------------------------------------------------------------
  // Transport block, shared by the VLESS, Trojan and vmess generators
  // ---------------------------------------------------------------------

  /** The settings object each known network reads; `None` for a network the `match` does not list. */
  function SettingsKey(net: Value): (k: Option<string>)
    ensures k.Some? <==> net in {Str("tcp"), Str("kcp"), Str("ws"), Str("http"), Str("quic"),
                                 Str("grpc"), Str("httpupgrade"), Str("splithttp")}
    ensures net == Str("httpupgrade") ==> k == Some("httpSettings")
  {
    match net
    case Str(s) =>
      (match s
       case "tcp" => Some("tcpSettings")
       case "kcp" => Some("kcpSettings")
       case "ws" => Some("wsSettings")
       case "http" => Some("httpSettings")
       case "quic" => Some("quicSettings")
       case "grpc" => Some("grpcSettings")
       case "httpupgrade" => Some("httpSettings")
       case "splithttp" => Some("splitHttpSettings")
       case _ => None)
    case _ => None
  }

  /** The reads a network's case makes on its settings object succeed:
      tcp with an http header reads its request; ws, httpupgrade and
      splithttp read and test the `Host` header; http joins its hosts. */
  predicate NetworkOk(net: Value, obj: Record) {
    if net == Str("tcp") then Get(obj, "type") == Str("http") ==> HttpRequest(obj).Some?
    else if net == Str("ws") || net == Str("httpupgrade") || net == Str("splithttp") then HostOk(obj)
    else if net == Str("http") then JoinList(obj, "host").Some?
    else true
  }

  /** The transport block does not raise: a known network's settings
      object is a mapping and its case's reads succeed. */
  predicate TransportOk(stream: Record) {
    var net := Get(stream, "network");
    SettingsKey(net).Some? ==>
      ObjectAt(stream, SettingsKey(net).value) && NetworkOk(net, SubOf(stream, SettingsKey(net).value).value)
  }

  /** The keys the transport block may set. */
  const TransportKeys: set<string> :=
    {"type", "path", "host", "headerType", "seed", "quicSecurity", "key", "serviceName", "authority", "mode"}

  /** The `params` after the `match type_` block of `genVLESSLink`/`genTrojanLink`. */
  function TransportParams(stream: Record): (r: Option<map<string, Value>>)
    ensures r.Some? <==> TransportOk(stream)
    ensures r.Some? ==> Has(r.value, "type", Get(stream, "network")) && r.value.Keys <= TransportKeys
    ensures SettingsKey(Get(stream, "network")).None? ==> r == Some(map["type" := Get(stream, "network")])
    ensures Get(stream, "network") == Str("grpc") && r.Some? ==> var grpc := SubOf(stream, "grpcSettings").value;
      && ("mode" in r.value <==> HasTruthy(grpc, "multiMode"))
      && ("mode" in r.value ==> r.value["mode"] == Str("multi"))
      && Has(r.value, "serviceName", Get(grpc, "serviceName"))
    ensures Get(stream, "network") == Str("ws") && r.Some? ==> var ws := SubOf(stream, "wsSettings").value;
      && Has(r.value, "path", Get(ws, "path"))
      && ("host" in r.value <==> Truthy(HostOf(ws).value))
  {
    var t := Get(stream, "network");
    var p := map["type" := t];
    match SettingsKey(t)
    case None => Some(p)
    case Some(key) =>
      match SubOf(stream, key)
      case None => None
      case Some(obj) => NetworkParams(t, p, obj)
  }

  /** One case of the `match type_` block, given the network's settings object. */
  function NetworkParams(t: Value, p: map<string, Value>, obj: Record): (r: Option<map<string, Value>>)
    requires p == map["type" := t]
    ensures r.Some? <==> NetworkOk(t, obj)
    ensures r.Some? ==> Has(r.value, "type", t) && r.value.Keys <= TransportKeys
    ensures t == Str("grpc") && r.Some? ==>
      && ("mode" in r.value <==> HasTruthy(obj, "multiMode"))
      && ("mode" in r.value ==> r.value["mode"] == Str("multi"))
      && Has(r.value, "serviceName", Get(obj, "serviceName"))
    ensures t == Str("ws") && r.Some? ==>
      Has(r.value, "path", Get(obj, "path")) && ("host" in r.value <==> Truthy(HostOf(obj).value))
  {
    if t == Str("tcp") then TcpParams(p, obj)
    else if t == Str("kcp") then Some(p["headerType" := Get(obj, "type")]["seed" := Get(obj, "seed")])
    else if t == Str("ws") || t == Str("httpupgrade") || t == Str("splithttp") then WithPathHost(p, obj)
    else if t == Str("http") then
      (match JoinList(obj, "host")
       case None => None
       case Some(hosts) => Some(p["path" := Get(obj, "path")]["host" := Str(hosts)]))
    else if t == Str("quic") then
      Some(p["quicSecurity" := Get(obj, "security")]["key" := Get(obj, "key")]["headerType" := Get(obj, "type")])
    else if t == Str("grpc") then
      var p1 := p["serviceName" := Get(obj, "serviceName")]["authority" := Get(obj, "authority")];
      Some(if HasTruthy(obj, "multiMode") then p1["mode" := Str("multi")] else p1)
    else Some(p)
  }

  /** `case "tcp"`: an http header sets the joined request path, the `Host`
      header when truthy, and `headerType=http`. */
  function TcpParams(p: map<string, Value>, tcp: Record): (q: Option<map<string, Value>>)
    ensures Get(tcp, "type") != Str("http") ==> q == Some(p)
    ensures Get(tcp, "type") == Str("http") ==> (q.Some? <==> HttpRequest(tcp).Some?)
    ensures q.Some? && Get(tcp, "type") == Str("http") ==>
      && Has(q.value, "path", Str(HttpRequest(tcp).value.0))
      && Has(q.value, "headerType", Str("http"))
      && (Truthy(HttpRequest(tcp).value.1) ==> Has(q.value, "host", HttpRequest(tcp).value.1))
      && q.value.Keys <= p.Keys + {"path", "host", "headerType"}
      && forall k :: k in p && k !in {"path", "host", "headerType"} ==> Has(q.value, k, p[k])
  {
    if Get(tcp, "type") == Str("http") then
      match HttpRequest(tcp)
      case None => None
      case Some((path, host)) =>
        var p1 := p["path" := Str(path)];
        var p2 := if Truthy(host) then p1["host" := host] else p1;
        Some(p2["headerType" := Str("http")])
    else Some(p)
  }

  /** `path` from the settings object, and `host` from its `Host` header when truthy. */
  function WithPathHost(p: map<string, Value>, obj: Record): (q: Option<map<string, Value>>)
    ensures q.Some? <==> HostOk(obj)
    ensures q.Some? ==> q.value.Keys == p.Keys + {"path"} + (if Truthy(HostOf(obj).value) then {"host"} else {})
    ensures q.Some? ==> q.value["path"] == Get(obj, "path")
    ensures q.Some? && Truthy(HostOf(obj).value) ==> q.value["host"] == HostOf(obj).value
    ensures q.Some? ==> forall k :: k in p && k !in {"path", "host"} ==> q.value[k] == p[k]
  {
    match HostOf(obj)
    case None => None
    case Some(host) =>
      match NonEmptyHost(host)
      case None => None
      case Some(b) =>
        var q := p["path" := Get(obj, "path")];
        Some(if b then q["host" := host] else q)
  }

  // ---------------------------------------------------------------------
  // Security block, shared by VLESS and Trojan
  // ---------------------------------------------------------------------

  /** The first comma-separated element of a string setting. */
  function FirstOfList(s: string): (r: string)
    ensures StartsWith(s, r)
    ensures !Contains(r, ",")
  {
    var parts := Split(s, ",");
    var r := parts[0];
    assert Join(parts, ",") == s;
    if |parts| == 1 then
      r
    else
      assert s == r + "," + Join(parts[1..], ",");
      assert s[..|r|] == r;
      SplitFirstHasNoComma(s);
      r
  }

  /** The first piece of a split never holds the separator. */
  lemma SplitFirstHasNoComma(s: string)
    ensures !Contains(Split(s, ",")[0], ",")
  {
    var p := Partition(s, ",");
  }

  /** A reality list setting on which the block raises: a truthy value
      that is not a string (a JSON array, as 3x-ui stores `serverNames`
      and `shortIds`, has no `.split`; a number has no `len`). */
  predicate SplitRaises(v: Value) {
    Truthy(v) && !v.Str?
  }

  /** The security block does not raise: the chosen settings object is a
      mapping, tls's `alpn` joins, and reality's lists are strings or falsy. */
  predicate SecurityOk(stream: Record, sec: Value) {
    && (sec == Str("tls") ==>
          ObjectAt(stream, "tlsSettings") && JoinList(SubOf(stream, "tlsSettings").value, "alpn").Some?)
    && (sec == Str("reality") ==>
          && ObjectAt(stream, "realitySettings")
          && !SplitRaises(Get(SubOf(stream, "realitySettings").value, "serverNames"))
          && !SplitRaises(Get(SubOf(stream, "realitySettings").value, "shortIds")))
  }

  /** The `tls` block shared by VLESS and Trojan (and the unused Shadowsocks generator). */
  function TlsParams(p: map<string, Value>, tls: Record): (q: Option<map<string, Value>>)
    ensures q.Some? <==> JoinList(tls, "alpn").Some?
    ensures q.Some? ==> Has(q.value, "security", Str("tls")) && Has(q.value, "alpn", Str(JoinList(tls, "alpn").value))
    ensures q.Some? && "allowInsecure" !in p ==> ("allowInsecure" in q.value <==> HasTruthy(tls, "allowInsecure"))
    ensures q.Some? && HasTruthy(tls, "allowInsecure") ==> Has(q.value, "allowInsecure", Str("1"))
    ensures q.Some? ==> q.value.Keys <= p.Keys + {"security", "fp", "alpn", "allowInsecure", "sni"}
    ensures q.Some? ==> forall k :: k in p && k !in {"security", "fp", "alpn", "allowInsecure", "sni"} ==> Has(q.value, k, p[k])
    ensures q.Some? && !IsEmpty(Get(tls, "serverName")) ==> Has(q.value, "sni", Get(tls, "serverName"))
    ensures q.Some? && "sni" !in p && IsEmpty(Get(tls, "serverName")) ==> "sni" !in q.value
  {
    match JoinList(tls, "alpn")
    case None => None
    case Some(alpn) =>
      var q := p["security" := Str("tls")]["fp" := Get(tls, "fingerprint")]["alpn" := Str(alpn)];
      var q1 := if HasTruthy(tls, "allowInsecure") then q["allowInsecure" := Str("1")] else q;
      Some(if !IsEmpty(Get(tls, "serverName")) then q1["sni" := Get(tls, "serverName")] else q1)
  }

  /** The `reality` block shared by VLESS and Trojan: `security`, the public
      key and fingerprint, then the lists and the spider path. */
  function RealityParams(p: map<string, Value>, reality: Record): (q: Option<map<string, Value>>)
    ensures q.Some? <==> !SplitRaises(Get(reality, "serverNames")) && !SplitRaises(Get(reality, "shortIds"))
    ensures q.Some? ==> (Has(q.value, "security", Str("reality"))
      && Has(q.value, "pbk", Get(reality, "publicKey")) && Has(q.value, "fp", Get(reality, "fingerprint")))
    ensures q.Some? ==> var names := Get(reality, "serverNames");
      names.Str? && names.s != "" ==> Has(q.value, "sni", Str(FirstOfList(names.s)))
    ensures q.Some? ==> var ids := Get(reality, "shortIds");
      ids.Str? && ids.s != "" ==> Has(q.value, "sid", Str(FirstOfList(ids.s)))
    ensures q.Some? ==> q.value.Keys <= p.Keys + {"security", "pbk", "fp", "sni", "sid", "spx"}
    ensures q.Some? ==> forall k :: k in p && k !in {"security", "pbk", "fp", "sni", "sid", "spx"} ==> Has(q.value, k, p[k])
  {
    // The header keys and the list keys are apart, so setting the header
    // after the lists gives the same mapping as the source's order.
    RealityKeysApart();
    WithRealityHeader(RealityLists(p, reality), reality)
  }

  /** `security=reality`, the public key and the fingerprint. */
  function WithRealityHeader(o: Option<map<string, Value>>, reality: Record): (q: Option<map<string, Value>>)
    ensures q.Some? <==> o.Some?
    ensures q.Some? ==> (Has(q.value, "security", Str("reality"))
      && Has(q.value, "pbk", Get(reality, "publicKey")) && Has(q.value, "fp", Get(reality, "fingerprint")))
    ensures q.Some? ==> q.value.Keys == o.value.Keys + {"security", "pbk", "fp"}
    ensures q.Some? ==> forall k :: k in o.value && k !in {"security", "pbk", "fp"} ==> Has(q.value, k, o.value[k])
  {
    match o
    case None => None
    case Some(m) => Some(m["security" := Str("reality")]["pbk" := Get(reality, "publicKey")]["fp" := Get(reality, "fingerprint")])
  }

  /** The keys the reality lists set are not the reality header keys. */
  lemma RealityKeysApart()
    ensures "sni" !in {"security", "pbk", "fp"} && "sid" !in {"security", "pbk", "fp"}
  {
  }

  /** The first server name and short id, then the spider path when set. */
  function RealityLists(p: map<string, Value>, reality: Record): (q: Option<map<string, Value>>)
    ensures q.Some? <==> !SplitRaises(Get(reality, "serverNames")) && !SplitRaises(Get(reality, "shortIds"))
    ensures q.Some? ==> var names := Get(reality, "serverNames");
      && (names.Str? && names.s != "" ==> Has(q.value, "sni", Str(FirstOfList(names.s))))
      && ("sni" !in p ==> ("sni" in q.value <==> Truthy(names)))
    ensures q.Some? ==> var ids := Get(reality, "shortIds");
      && (ids.Str? && ids.s != "" ==> Has(q.value, "sid", Str(FirstOfList(ids.s))))
      && ("sid" !in p ==> ("sid" in q.value <==> Truthy(ids)))
    ensures q.Some? && !IsEmpty(Get(reality, "spiderX")) ==> Has(q.value, "spx", Get(reality, "spiderX"))
    ensures q.Some? ==> q.value.Keys <= p.Keys + {"sni", "sid", "spx"}
    ensures q.Some? ==> forall k :: k in p && k !in {"sni", "sid", "spx"} ==> Has(q.value, k, p[k])
  {
    match WithFirstOf(p, "sni", Get(reality, "serverNames"))
    case None => None
    case Some(q1) =>
      match WithFirstOf(q1, "sid", Get(reality, "shortIds"))
      case None => None
      case Some(q2) =>
        Some(if !IsEmpty(Get(reality, "spiderX")) then q2["spx" := Get(reality, "spiderX")] else q2)
  }

  /** `if list: params[key] = list.split(",")[0]`: a falsy setting leaves the
      parameters alone, a string sets its first entry, anything else raises. */
  function WithFirstOf(q: map<string, Value>, key: string, list: Value): (r: Option<map<string, Value>>)
    ensures r.None? <==> SplitRaises(list)
    ensures !Truthy(list) ==> r == Some(q)
    ensures list.Str? && list.s != "" ==> r.Some? && Has(r.value, key, Str(FirstOfList(list.s)))
    ensures r.Some? ==> r.value.Keys <= q.Keys + {key}
    ensures r.Some? ==> forall k :: k in q && k != key ==> Has(r.value, k, q[k])
  {
    if !Truthy(list) then Some(q)
    else if list.Str? then Some(q[key := Str(FirstOfList(list.s))])
    else None
  }

  /** The keys the security block may set. */
  const SecurityKeys: set<string> := {"security", "fp", "alpn", "allowInsecure", "sni", "pbk", "sid", "spx"}

  /** The security block shared by VLESS and Trojan: tls, reality, or `security=none`. */
  function SecurityParams(p: map<string, Value>, stream: Record, sec: Value): (q: Option<map<string, Value>>)
    ensures q.Some? <==> SecurityOk(stream, sec)
    ensures q.Some? && sec != Str("tls") && sec != Str("reality") ==> Has(q.value, "security", Str("none"))
    ensures q.Some? && (sec == Str("tls") || sec == Str("reality")) ==> Has(q.value, "security", sec)
    ensures q.Some? ==> q.value.Keys <= p.Keys + SecurityKeys
    ensures q.Some? ==> forall k :: k in p && k !in SecurityKeys ==> Has(q.value, k, p[k])
  {
    if sec == Str("tls") then
      match SubOf(stream, "tlsSettings")
      case None => None
      case Some(tls) => TlsParams(p, tls)
    else if sec == Str("reality") then
      match SubOf(stream, "realitySettings")
      case None => None
      case Some(reality) => RealityParams(p, reality)
    else Some(p["security" := Str("none")])
  }

  /** The query parameters `genVLESSLink` and `genTrojanLink` both build: transport, then security. */
  function LinkParams(stream: Record, forceTls: Value): (p: Option<map<string, Value>>)
    ensures p.Some? <==> TransportOk(stream) && SecurityOk(stream, Security(stream, forceTls))
    ensures p.Some? ==> var sec := Security(stream, forceTls);
      && (sec != Str("tls") && sec != Str("reality") ==> Has(p.value, "security", Str("none")))
      && (sec == Str("tls") || sec == Str("reality") ==> Has(p.value, "security", sec))
      && Has(p.value, "type", Get(stream, "network"))
    ensures p.Some? ==> "flow" !in p.value
  {
    match TransportParams(stream)
    case None => None
    case Some(t) =>
      var q := SecurityParams(t, stream, Security(stream, forceTls));
      BlockKeysApart();
      assert q.Some? ==> "type" in t;
      q
  }

  /** Neither block sets `flow`, which only the VLESS generator adds after
      both, and the security block leaves the transport's `type` alone. */
  lemma BlockKeysApart()
    ensures "flow" !in TransportKeys && "flow" !in SecurityKeys && "type" !in SecurityKeys
  {
  }

  /** A generated `scheme://user@address:port?query#fragment` link before `urlunparse`. */
  datatype ShareLink = ShareLink(scheme: string, user: Value, address: string, port: Value,
                                 query: map<string, Value>, fragment: string)

  // ---------------------------------------------------------------------
  // genVLESSLink
  // ---------------------------------------------------------------------

  /** The query parameters of `genVLESSLink`: the shared parameters plus the
      first client's `flow` for a tcp stream under tls or reality. */
  function VlessParams(settings: Record, stream: Record, forceTls: Value): (r: Option<map<string, Value>>)
    ensures r.Some? <==> FirstClient(settings).Some? && TransportOk(stream) && SecurityOk(stream, Security(stream, forceTls))
    ensures r.Some? ==> var sec := Security(stream, forceTls);
      && (sec != Str("tls") && sec != Str("reality") ==> Has(r.value, "security", Str("none")))
      && (sec == Str("tls") || sec == Str("reality") ==> Has(r.value, "security", sec))
  {
    match FirstClient(settings)
    case None => None
    case Some(client) =>
      match LinkParams(stream, forceTls)
      case None => None
      case Some(q) =>
        var flow := GetOr(client, "flow", Str(""));
        var sec := Security(stream, forceTls);
        if Get(stream, "network") == Str("tcp") && !IsEmpty(flow) && (sec == Str("tls") || sec == Str("reality"))
        then Some(q["flow" := flow])
        else Some(q)
  }

  /** `flow` is emitted exactly for a tcp stream with a non-empty flow under tls or reality. */
  lemma VlessFlowRule(settings: Record, stream: Record, forceTls: Value)
    requires VlessParams(settings, stream, forceTls).Some?
    ensures var flow := GetOr(FirstClient(settings).value, "flow", Str(""));
      var sec := Security(stream, forceTls);
      ("flow" in VlessParams(settings, stream, forceTls).value <==>
        (Get(stream, "network") == Str("tcp") && !IsEmpty(flow) && (sec == Str("tls") || sec == Str("reality"))))
      && ("flow" in VlessParams(settings, stream, forceTls).value ==> VlessParams(settings, stream, forceTls).value["flow"] == flow)
  {
  }

  /** `genVLESSLink(...)`: `vless://<id>@<address>:<port>?<params>#<quoted remark>`. */
  function GenVlessLink(lib: Lib, settings: Record, stream: Record, address: string, port: Value,
                        forceTls: Value, remark: string): (r: Option<ShareLink>)
    ensures r.Some? <==> ClientId(settings).Some? && TransportOk(stream) && SecurityOk(stream, Security(stream, forceTls))
    ensures r.Some? ==> (r.value.scheme == "vless" && r.value.user == ClientId(settings).value
      && r.value.address == address && r.value.port == port
      && r.value.query == VlessParams(settings, stream, forceTls).value
      && r.value.fragment == lib.quote(remark))
  {
    match VlessParams(settings, stream, forceTls)
    case None => None
    case Some(params) =>
      match ClientId(settings)
      case None => None
      case Some(id) => Some(ShareLink("vless", id, address, port, params, lib.quote(remark)))
  }

  // ---------------------------------------------------------------------
  // genTrojanLink
  // ---------------------------------------------------------------------

  /** `genTrojanLink(...)`: `trojan://<password>@<address>:<port>?<params>#<quoted remark>`. */
  function GenTrojanLink(lib: Lib, stream: Record, address: string, port: Value, forceTls: Value,
                         remark: string, clientPassword: Value): (r: Option<ShareLink>)
    ensures r.Some? <==> TransportOk(stream) && SecurityOk(stream, Security(stream, forceTls))
    ensures r.Some? ==> (r.value.scheme == "trojan" && r.value.user == clientPassword
      && r.value.address == address && r.value.port == port)
    ensures r.Some? ==> r.value.query == LinkParams(stream, forceTls).value && r.value.fragment == lib.quote(remark)
  {
    match LinkParams(stream, forceTls)
    case None => None
    case Some(params) => Some(ShareLink("trojan", clientPassword, address, port, params, lib.quote(remark)))
  }

  /** The VLESS parameters are the Trojan parameters plus, at most, `flow`,
      and both raise on the same streams. */
  lemma VlessIsLinkPlusFlow(settings: Record, stream: Record, forceTls: Value)
    requires FirstClient(settings).Some?
    ensures VlessParams(settings, stream, forceTls).Some? <==> LinkParams(stream, forceTls).Some?
    ensures VlessParams(settings, stream, forceTls).Some? ==>
      var v := VlessParams(settings, stream, forceTls).value;
      var t := LinkParams(stream, forceTls).value;
      v.Keys - {"flow"} == t.Keys && forall k :: k in t ==> v[k] == t[k]
  {
  }

  /** A reality setting stored as a JSON array (`"serverNames": ["a.com"]`)
      makes both generators raise at `.split`, whatever the transport. */
  lemma ListServerNamesRaise(lib: Lib, settings: Record, stream: Record, forceTls: Value,
                             address: string, port: Value, remark: string, clientPassword: Value)
    requires Security(stream, forceTls) == Str("reality")
    requires "realitySettings" in stream && stream["realitySettings"].Dict?
    requires Get(stream["realitySettings"].fields, "serverNames") == List([Str("a.com")])
    ensures GenTrojanLink(lib, stream, address, port, forceTls, remark, clientPassword).None?
    ensures GenVlessLink(lib, settings, stream, address, port, forceTls, remark).None?
  {
    assert SplitRaises(Get(SubOf(stream, "realitySettings").value, "serverNames"));
    assert !SecurityOk(stream, Security(stream, forceTls));
  }

  // ---------------------------------------------------------------------
  // genVmessLink
  // ---------------------------------------------------------------------

  /** The vmess tls block's reads succeed: `tlsSettings` is a mapping and a truthy `alpn` joins. */
  predicate VmessTlsOk(stream: Record) {
    ObjectAt(stream, "tlsSettings")
    && (var alpn := GetOr(SubOf(stream, "tlsSettings").value, "alpn", List([]));
        Truthy(alpn) ==> JoinOf(alpn).Some?)
  }

  /** The vmess JSON object built by `genVmessLink`. The trailing comma of
      the `clientId` assignment makes the id a one-element tuple, which JSON
      renders as a one-element list. */
  function VmessObject(settings: Record, stream: Record, address: string, port: Value,
                       forceTls: Value, remark: string): (r: Option<Record>)
    ensures r.Some? <==> (ClientId(settings).Some? && TransportOk(stream)
      && (Security(stream, forceTls) == Str("tls") ==> VmessTlsOk(stream)))
    ensures r.Some? ==> var o := r.value;
      && Has(o, "id", List([ClientId(settings).value]))
      && (Get(stream, "network") == Str("http") ==> Has(o, "net", Str("h2")))
      && (Get(stream, "network") != Str("http") ==> Has(o, "net", Get(stream, "network")))
      && (Get(stream, "network") == Str("grpc") && HasTruthy(SubOf(stream, "grpcSettings").value, "multiMode") ==>
            Has(o, "type", Str("multi")))
  {
    match ClientId(settings)
    case None => None
    case Some(id) => VmessObjectFor(id, stream, address, port, forceTls, remark)
  }

  /** The object built for the client id: version 2, the remark, the
      address, the port, the id as a one-element list and the effective
      security, then the transport and tls blocks. */
  function VmessObjectFor(id: Value, stream: Record, address: string, port: Value,
                          forceTls: Value, remark: string): (r: Option<Record>)
    ensures r.Some? <==> TransportOk(stream) && (Security(stream, forceTls) == Str("tls") ==> VmessTlsOk(stream))
    ensures r.Some? ==> var o := r.value;
      && Has(o, "v", Str("2")) && Has(o, "ps", Str(remark)) && Has(o, "add", Str(address)) && Has(o, "port", port)
      && Has(o, "id", List([id])) && Has(o, "tls", Security(stream, forceTls))
      && (Get(stream, "network") == Str("http") ==> Has(o, "net", Str("h2")))
      && (Get(stream, "network") != Str("http") ==> Has(o, "net", Get(stream, "network")))
      && (Get(stream, "network") == Str("grpc") && HasTruthy(SubOf(stream, "grpcSettings").value, "multiMode") ==>
            Has(o, "type", Str("multi")))
  {
    var sec := Security(stream, forceTls);
    match VmessTransport(VmessBase(remark, address, port, List([id]), Get(stream, "network"), sec), stream)
    case None => None
    case Some(o) =>
      if sec == Str("tls") then
        match SubOf(stream, "tlsSettings")
        case None => None
        case Some(tls) => VmessTls(o, tls)
      else Some(o)
  }

  /** The object before the transport block. */
  function VmessBase(remark: string, address: string, port: Value, id: Value, net: Value, tls: Value): (o: Record)
    ensures Has(o, "v", Str("2")) && Has(o, "ps", Str(remark)) && Has(o, "add", Str(address)) && Has(o, "port", port)
    ensures Has(o, "id", id) && Has(o, "net", net) && Has(o, "type", Str("none")) && Has(o, "tls", tls)
  {
    map["v" := Str("2"), "ps" := Str(remark), "add" := Str(address), "port" := port,
        "id" := id, "net" := net, "type" := Str("none"), "tls" := tls]
  }

  /** `b` carries `a`'s version, remark, address, port, id and tls entries. */
  predicate KeepsHeader(a: Record, b: Record) {
    Keeps(a, b, "v") && Keeps(a, b, "ps") && Keeps(a, b, "add")
    && Keeps(a, b, "port") && Keeps(a, b, "id") && Keeps(a, b, "tls")
  }

  /** The `match network` block of `genVmessLink`. */
  function VmessTransport(base: Record, stream: Record): (r: Option<Record>)
    requires {"v", "ps", "add", "port", "id", "net", "type", "tls"} <= base.Keys
    ensures r.Some? <==> TransportOk(stream)
    ensures r.Some? ==> KeepsHeader(base, r.value) && "type" in r.value
    ensures r.Some? && Get(stream, "network") == Str("http") ==> Has(r.value, "net", Str("h2"))
    ensures r.Some? && Get(stream, "network") != Str("http") ==> Has(r.value, "net", base["net"])
    ensures r.Some? && Get(stream, "network") == Str("grpc") && HasTruthy(SubOf(stream, "grpcSettings").value, "multiMode") ==>
      Has(r.value, "type", Str("multi"))
  {
    var n := Get(stream, "network");
    match SettingsKey(n)
    case None => Some(base)
    case Some(key) =>
      match SubOf(stream, key)
      case None => None
      case Some(obj) => VmessNetwork(n, base, obj)
  }

  /** One case of the `match network` block, given the network's settings object. */
  function VmessNetwork(n: Value, base: Record, obj: Record): (r: Option<Record>)
    requires {"v", "ps", "add", "port", "id", "net", "type", "tls"} <= base.Keys
    ensures r.Some? <==> NetworkOk(n, obj)
    ensures r.Some? ==> KeepsHeader(base, r.value) && "type" in r.value
    ensures r.Some? && n == Str("http") ==> Has(r.value, "net", Str("h2"))
    ensures r.Some? && n != Str("http") ==> Has(r.value, "net", base["net"])
    ensures r.Some? && n == Str("grpc") && HasTruthy(obj, "multiMode") ==> Has(r.value, "type", Str("multi"))
  {
    if n == Str("tcp") then VmessTcp(base, obj)
    else if n == Str("kcp") then Some(VmessKcp(base, obj))
    else if n == Str("ws") || n == Str("httpupgrade") || n == Str("splithttp") then VmessPathHost(base, obj)
    else if n == Str("http") then VmessH2(base, obj)
    else if n == Str("quic") then Some(VmessQuic(base, obj))
    else if n == Str("grpc") then Some(VmessGrpc(base, obj))
    else Some(base)
  }

  /** `case 'tcp'`: the header type, and for an http header the request path and Host. */
  function VmessTcp(base: Record, tcp: Record): (r: Option<Record>)
    ensures r.Some? <==> (Get(tcp, "type") == Str("http") ==> HttpRequest(tcp).Some?)
    ensures r.Some? ==> KeepsHeader(base, r.value) && Keeps(base, r.value, "net")
    ensures r.Some? ==> Has(r.value, "type", Get(tcp, "type"))
    ensures r.Some? && Get(tcp, "type") == Str("http") ==> Has(r.value, "path", Str(HttpRequest(tcp).value.0))
  {
    var o := base["type" := Get(tcp, "type")];
    if Get(tcp, "type") == Str("http") then
      match HttpRequest(tcp)
      case None => None
      case Some((path, host)) => Some(WithPathAndHost(o, Str(path), host))
    else Some(o)
  }

  /** Sets `path`, and `host` when the header value is truthy (the http header of `case 'tcp'`). */
  function WithPathAndHost(o: Record, path: Value, host: Value): (q: Record)
    ensures KeepsHeader(o, q) && Keeps(o, q, "net") && Keeps(o, q, "type")
    ensures Has(q, "path", path)
    ensures Truthy(host) ==> Has(q, "host", host)
    ensures !Truthy(host) ==> Keeps(o, q, "host")
  {
    var o1 := o["path" := path];
    if Truthy(host) then o1["host" := host] else o1
  }

  /** `case 'kcp'`: the header type and the seed as path. */
  function VmessKcp(base: Record, kcp: Record): (o: Record)
    ensures KeepsHeader(base, o) && Keeps(base, o, "net")
    ensures Has(o, "type", Get(kcp, "type")) && Has(o, "path", Get(kcp, "seed"))
  {
    base["type" := Get(kcp, "type")]["path" := Get(kcp, "seed")]
  }

  /** `case 'ws'`, `'httpupgrade'` and `'splithttp'`: path and Host header. */
  function VmessPathHost(base: Record, obj: Record): (r: Option<Record>)
    ensures r.Some? <==> HostOk(obj)
    ensures r.Some? ==> KeepsHeader(base, r.value) && Keeps(base, r.value, "net") && Keeps(base, r.value, "type")
    ensures r.Some? ==> Has(r.value, "path", Get(obj, "path"))
  {
    WithPathHost(base, obj)
  }

  /** `case 'http'`: the network is renamed `h2`, with path and the joined hosts. */
  function VmessH2(base: Record, http: Record): (r: Option<Record>)
    ensures r.Some? <==> JoinList(http, "host").Some?
    ensures r.Some? ==> KeepsHeader(base, r.value) && Keeps(base, r.value, "type")
    ensures r.Some? ==> (Has(r.value, "net", Str("h2")) && Has(r.value, "path", Get(http, "path"))
      && Has(r.value, "host", Str(JoinList(http, "host").value)))
  {
    match JoinList(http, "host")
    case None => None
    case Some(hosts) => Some(base["net" := Str("h2")]["path" := Get(http, "path")]["host" := Str(hosts)])
  }

  /** `case 'quic'`: header type, security as host and key as path. */
  function VmessQuic(base: Record, quic: Record): (o: Record)
    ensures KeepsHeader(base, o) && Keeps(base, o, "net")
    ensures Has(o, "type", Get(quic, "type")) && Has(o, "host", Get(quic, "security")) && Has(o, "path", Get(quic, "key"))
  {
    base["type" := Get(quic, "type")]["host" := Get(quic, "security")]["path" := Get(quic, "key")]
  }

  /** `case 'grpc'`: service name as path, the authority, and `type=multi` in multi mode. */
  function VmessGrpc(base: Record, grpc: Record): (o: Record)
    ensures KeepsHeader(base, o) && Keeps(base, o, "net")
    ensures Has(o, "path", Get(grpc, "serviceName")) && Has(o, "authority", Get(grpc, "authority"))
    ensures HasTruthy(grpc, "multiMode") ==> Has(o, "type", Str("multi"))
    ensures !HasTruthy(grpc, "multiMode") ==> Keeps(base, o, "type")
  {
    var o := base["path" := Get(grpc, "serviceName")]["authority" := Get(grpc, "authority")];
    if HasTruthy(grpc, "multiMode") then o["type" := Str("multi")] else o
  }

  /** The tls block of `genVmessLink`: `allowInsecure` keeps the setting's
      own value, and a truthy `alpn` is joined with `,`. */
  function VmessTls(o: Record, tls: Record): (r: Option<Record>)
    ensures var alpn := GetOr(tls, "alpn", List([]));
      r.Some? <==> (Truthy(alpn) ==> JoinOf(alpn).Some?)
    ensures r.Some? ==> forall k :: k in o && k !in {"sni", "fp", "alpn", "allowInsecure"} ==> k in r.value && r.value[k] == o[k]
    ensures r.Some? ==> KeepsHeader(o, r.value) && Keeps(o, r.value, "net") && Keeps(o, r.value, "type")
    ensures r.Some? && "sni" in r.value && "sni" !in o ==> !IsEmpty(Get(tls, "serverName")) && r.value["sni"] == Get(tls, "serverName")
    ensures r.Some? && HasTruthy(tls, "allowInsecure") ==> Has(r.value, "allowInsecure", tls["allowInsecure"])
  {
    var q := VmessTlsNames(o, tls);
    var r := VmessAlpn(q, tls);
    assert r.Some? ==> forall k :: k in o && k !in {"sni", "fp", "alpn", "allowInsecure"} ==> k in r.value && r.value[k] == o[k] by {
      if r.Some? {
        forall k | k in o && k !in {"sni", "fp", "alpn", "allowInsecure"} ensures k in r.value && r.value[k] == o[k] {
          assert k in q && q[k] == o[k];
        }
      }
    }
    r
  }

  /** The first half of the vmess tls block: a non-empty `serverName` as
      `sni` and a non-empty `fingerprint` as `fp`. */
  function VmessTlsNames(o: Record, tls: Record): (q: Record)
    ensures forall k :: k in o && k !in {"sni", "fp"} ==> k in q && q[k] == o[k]
    ensures q.Keys <= o.Keys + {"sni", "fp"}
    ensures KeepsHeader(o, q) && Keeps(o, q, "net") && Keeps(o, q, "type")
    ensures "sni" in q && "sni" !in o ==> !IsEmpty(Get(tls, "serverName")) && q["sni"] == Get(tls, "serverName")
    ensures !IsEmpty(Get(tls, "serverName")) ==> Has(q, "sni", Get(tls, "serverName"))
  {
    var q := if !IsEmpty(Get(tls, "serverName")) then o["sni" := Get(tls, "serverName")] else o;
    if !IsEmpty(Get(tls, "fingerprint")) then q["fp" := Get(tls, "fingerprint")] else q
  }

  /** The second half of the vmess tls block: a truthy `alpn` joined with
      `,`, and a truthy `allowInsecure` copied as it is. */
  function VmessAlpn(q: Record, tls: Record): (r: Option<Record>)
    ensures var alpn := GetOr(tls, "alpn", List([]));
      r.Some? <==> (Truthy(alpn) ==> JoinOf(alpn).Some?)
    ensures r.Some? ==> forall k :: k in q && k !in {"alpn", "allowInsecure"} ==> k in r.value && r.value[k] == q[k]
    ensures r.Some? ==> r.value.Keys <= q.Keys + {"alpn", "allowInsecure"}
    ensures r.Some? ==> KeepsHeader(q, r.value) && Keeps(q, r.value, "net") && Keeps(q, r.value, "type") && Keeps(q, r.value, "sni")
    ensures r.Some? && HasTruthy(tls, "allowInsecure") ==> Has(r.value, "allowInsecure", tls["allowInsecure"])
  {
    var alpn := GetOr(tls, "alpn", List([]));
    var joined := if Truthy(alpn) then JoinOf(alpn) else Some("");
    match joined
    case None => None
    case Some(j) =>
      var q1 := if Truthy(alpn) then q["alpn" := Str(j)] else q;
      Some(if HasTruthy(tls, "allowInsecure") then q1["allowInsecure" := tls["allowInsecure"]] else q1)
  }

  /** `genVmessLink(...)`: `''` for any protocol other than vmess, otherwise
      `vmess://` and the base64 of the JSON object; `None` when it raises. */
  function GenVmessLink(lib: Lib, protocol: Value, settings: Record, stream: Record, address: string,
                        port: Value, forceTls: Value, remark: string): (r: Option<string>)
    ensures protocol != Str("vmess") ==> r == Some("")
    ensures protocol == Str("vmess") ==> (r.Some? <==> (ClientId(settings).Some? && TransportOk(stream)
      && (Security(stream, forceTls) == Str("tls") ==> VmessTlsOk(stream))))
    ensures protocol == Str("vmess") && r.Some? ==>
      r.value == "vmess://" + lib.b64encode(lib.jsonDumps(Dict(VmessObject(settings, stream, address, port, forceTls, remark).value)))
  {
    if protocol != Str("vmess") then Some("")
    else
      match VmessObject(settings, stream, address, port, forceTls, remark)
      case None => None
      case Some(o) => Some("vmess://" + lib.b64encode(lib.jsonDumps(Dict(o))))
  }

  /** A first client without `id` makes the VLESS and vmess generators
      raise (`KeyError` at `["id"]`), whatever the stream. */
  lemma MissingIdRaises(lib: Lib, settings: Record, stream: Record, address: string, port: Value,
                        forceTls: Value, remark: string)
    requires FirstClient(settings).Some? && "id" !in FirstClient(settings).value
    ensures GenVlessLink(lib, settings, stream, address, port, forceTls, remark).None?
    ensures GenVmessLink(lib, Str("vmess"), settings, stream, address, port, forceTls, remark).None?
  {
  }
}
