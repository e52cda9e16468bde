/** submanager/convert.py: share links (`vmess://…`, `ss://…`, …) become
    proxy records, one parser per scheme, chosen through a scheme registry.
    Every parser shares one `names` counter map across a batch. */
module Convert {
  import opened Wrappers
  import opened Strings
  import opened PyValue
  import opened Codecs
  import opened Naming

  /** The proxy objects the parsers build, one constructor per class.
      Fields the source fills with constants (`udp=True`, `tls=False`, …)
      are added by `ToDict`. `Option` fields are Python values that may be `None`. */
  datatype Proxy =
    | HysteriaProxy(name: string, server: Option<string>, port: Option<nat>, sni: string,
                    obfs: string, alpn: Option<seq<string>>, authStr: string, protocol: string,
                    up: string, down: string, skipCertVerify: bool)
    | Hysteria2Proxy(name: string, server: Option<string>, port2: nat, obfs: string,
                     obfsPassword: string, sni: string, skipCertVerify: bool,
                     alpn: Option<seq<string>>, password: Option<string>, fingerprint: string,
                     down: string, up: string, ports: string)
    | TuicProxy(name: string, server: Option<string>, port: Option<nat>, uuid: Option<string>,
                password: Option<string>, token: Option<string>, congestionController: string,
                alpn: Option<seq<string>>, sni: string, disableSni: bool, udpRelayMode: string,
                skipCertVerify: bool)
    | TrojanProxy(name: string, server: Option<string>, port: Option<nat>, password: Option<string>,
                  skipCertVerify: bool, sni: string, alpn: Option<seq<string>>, network: string,
                  wsOpts: Value, grpcOpts: Value, clientFingerprint: string)
    | VlessProxy(name: string, server: Option<string>, port: Option<nat>, uuid: Option<string>,
                 encryption: string, flow: string, sni: string, network: string,
                 wsOpts: Value, grpcOpts: Value)
    | VmessProxy(name: string, vserver: Value, vport: Value, vuuid: Value, alterId: int,
                 tls: bool, cipher: Value, servername: Value, vnetwork: Value,
                 wsOpts: Value, h2Opts: Value, httpOpts: Value, grpcOpts: Value, valpn: Value)
    | SsProxy(name: string, server: Option<string>, port: Option<nat>, sscipher: Option<string>,
              sspassword: Option<string>, udpOverTcp: bool, plugin: string, pluginOpts: Value)
    | SsrProxy(name: string, host: string, ssrport: string, ssrmethod: string, ssrpassword: string,
               ssrobfs: string, ssrprotocol: string, obfsParam: Option<string>,
               protocolParam: Option<string>)

  function OptNat(o: Option<nat>): Value {
    if o.Some? then Int(o.value) else Null
  }

  function OptList(o: Option<seq<string>>): Value {
    if o.Some? then StrList(o.value) else Null
  }

  /** The `type` the record carries. */
  function TypeName(p: Proxy): string {
    match p
    case HysteriaProxy(_, _, _, _, _, _, _, _, _, _, _) => "hysteria"
    case Hysteria2Proxy(_, _, _, _, _, _, _, _, _, _, _, _, _) => "hysteria2"
    case TuicProxy(_, _, _, _, _, _, _, _, _, _, _, _) => "tuic"
    case TrojanProxy(_, _, _, _, _, _, _, _, _, _, _) => "trojan"
    case VlessProxy(_, _, _, _, _, _, _, _, _, _) => "vless"
    case VmessProxy(_, _, _, _, _, _, _, _, _, _, _, _, _, _) => "vmess"
    case SsProxy(_, _, _, _, _, _, _, _) => "ss"
    case SsrProxy(_, _, _, _, _, _, _, _, _) => "ssr"
  }

  /** `proxy.to_dict()`, i.e. `vars(self)`: the attribute names become the keys. */
  function ToDict(p: Proxy): Record {
    var base := map["name" := Str(p.name), "type" := Str(TypeName(p))];
    match p
    case HysteriaProxy(_, server, port, sni, obfs, alpn, auth, protocol, up, down, skip) =>
      base + map["server" := OptStr(server), "port" := OptNat(port), "sni" := Str(sni),
                 "obfs" := Str(obfs), "alpn" := OptList(alpn), "auth_str" := Str(auth),
                 "protocol" := Str(protocol), "up" := Str(up), "down" := Str(down),
                 "skip_cert_verify" := Bool(skip)]
    case Hysteria2Proxy(_, server, port, obfs, obfsPw, sni, skip, alpn, pw, fp, down, up, ports) =>
      base + map["server" := OptStr(server), "port" := Int(port), "obfs" := Str(obfs),
                 "obfs_password" := Str(obfsPw), "sni" := Str(sni),
                 "skip_cert_verify" := Bool(skip), "alpn" := OptList(alpn),
                 "password" := OptStr(pw), "fingerprint" := Str(fp), "down" := Str(down),
                 "up" := Str(up), "ports" := Str(ports)]
    case TuicProxy(_, server, port, uuid, pw, token, cc, alpn, sni, disableSni, relay, skip) =>
      base + map["server" := OptStr(server), "port" := OptNat(port), "udp" := Bool(true),
                 "uuid" := OptStr(uuid), "password" := OptStr(pw), "token" := OptStr(token),
                 "congestion_controller" := Str(cc), "alpn" := OptList(alpn), "sni" := Str(sni),
                 "disable_sni" := Bool(disableSni), "udp_relay_mode" := Str(relay),
                 "skip_cert_verify" := Bool(skip)]
    case TrojanProxy(_, server, port, pw, skip, sni, alpn, network, ws, grpc, fp) =>
      base + map["server" := OptStr(server), "port" := OptNat(port), "password" := OptStr(pw),
                 "udp" := Bool(true), "skip_cert_verify" := Bool(skip), "sni" := Str(sni),
                 "alpn" := OptList(alpn), "network" := Str(network), "ws_opts" := ws,
                 "grpc_opts" := grpc, "client_fingerprint" := Str(fp)]
    case VlessProxy(_, server, port, uuid, enc, flow, sni, network, ws, grpc) =>
      base + map["server" := OptStr(server), "port" := OptNat(port), "uuid" := OptStr(uuid),
                 "udp" := Bool(true), "tls" := Bool(false), "skip_cert_verify" := Bool(false),
                 "encryption" := Str(enc), "flow" := Str(flow), "sni" := Str(sni),
                 "network" := Str(network), "ws_opts" := ws, "grpc_opts" := grpc]
    case VmessProxy(_, server, port, uuid, aid, tls, cipher, sn, network, ws, h2, http, grpc, alpn) =>
      base + map["server" := server, "port" := port, "uuid" := uuid, "alterId" := Int(aid),
                 "udp" := Bool(true), "tls" := Bool(tls), "skip_cert_verify" := Bool(false),
                 "cipher" := cipher, "servername" := sn, "network" := network,
                 "ws_opts" := ws, "h2_opts" := h2, "http_opts" := http, "grpc_opts" := grpc,
                 "alpn" := alpn]
    case SsProxy(_, server, port, cipher, pw, uot, plugin, opts) =>
      base + map["server" := OptStr(server), "port" := OptNat(port), "cipher" := OptStr(cipher),
                 "password" := OptStr(pw), "udp" := Bool(true), "udp_over_tcp" := Bool(uot),
                 "plugin" := Str(plugin), "plugin_opts" := opts]
    case SsrProxy(_, host, port, cipher, pw, obfs, protocol, obfsParam, protoParam) =>
      base + map["server" := Str(host), "port" := Str(port), "cipher" := Str(cipher),
                 "password" := Str(pw), "obfs" := Str(obfs), "protocol" := Str(protocol),
                 "udp" := Bool(true), "obfs_param" := OptStr(obfsParam),
                 "protocol_param" := OptStr(protoParam)]
  }

  /** The outcome of one `parse`: the proxy (or `None`) and the counter map
      as the call left it. The counters may have moved even when no proxy
      comes back, because `unique_name` runs before later steps that can raise. */
  datatype Parsed = Parsed(proxy: Option<Proxy>, names: Counts)

  /** `query.get('alpn', [''])[0].split(',')` when non-empty, else `None`. */
  function AlpnOf(q: Query): (a: Option<seq<string>>)
    ensures QueryFirst(q, "alpn", "") == "" <==> a.None?
    ensures a.Some? ==> Join(a.value, ",") == QueryFirst(q, "alpn", "")
  {
    var s := QueryFirst(q, "alpn", "");
    if s != "" then Some(Split(s, ",")) else None
  }

  /** `query.get(k, ['false'])[0].lower() == 'true'`. */
  predicate QueryIsTrue(q: Query, k: string) {
    Lower(QueryFirst(q, k, "false")) == "true"
  }

  /** `url.port` once it is known not to raise. */
  function PortOf(p: Port): Option<nat>
    requires !p.BadPort?
  {
    if p.Port? then Some(p.n) else None
  }

  /** The three steps every URI parser starts with: `urlparse`, `parse_qs`,
      then `unique_name` on the fragment. */
  datatype Start = Start(url: Url, q: Query, n: Named)

  function Begin(lib: Lib, line: string, names: Counts): (r: Option<Start>)
    ensures r.Some? ==> lib.urlparse(line).Some? && r.value.url == lib.urlparse(line).value
    ensures r.Some? ==> r.value.q == lib.parseQs(r.value.url.query)
    ensures r.Some? ==> r.value.n == UniqueName(names, r.value.url.fragment, lib.randomName)
    ensures r.None? <==> lib.urlparse(line).None?
  {
    match lib.urlparse(line)
    case None => None
    case Some(url) =>
      Some(Start(url, lib.parseQs(url.query), UniqueName(names, url.fragment, lib.randomName)))
  }

  // ---------------------------------------------------------------------
  // hysteria, hysteria2, tuic, trojan, vless
  // ---------------------------------------------------------------------

  function ParseHysteria(lib: Lib, line: string, names: Counts): (r: Parsed)
    ensures r.proxy.Some? ==> r.proxy.value.HysteriaProxy?
  {
    match Begin(lib, line, names)
    case None => Parsed(None, names)
    case Some(Start(url, q, n)) =>
      if url.port.BadPort? then Parsed(None, n.names)
      else
        var up := QueryFirst(q, "up", "");
        var down := QueryFirst(q, "down", "");
        Parsed(Some(HysteriaProxy(
          n.name, url.hostname, PortOf(url.port), QueryFirst(q, "peer", ""),
          QueryFirst(q, "obfs", ""), AlpnOf(q), QueryFirst(q, "auth", ""),
          QueryFirst(q, "protocol", ""),
          if up != "" then up else QueryFirst(q, "upmbps", ""),
          if down != "" then down else QueryFirst(q, "downmbps", ""),
          QueryIsTrue(q, "insecure"))), n.names)
  }

  /** Hysteria speeds: `up` wins over `upmbps` unless it is empty, likewise for `down`. */
  lemma HysteriaSpeeds(lib: Lib, line: string, names: Counts)
    requires lib.urlparse(line).Some? && !lib.urlparse(line).value.port.BadPort?
    ensures var q := lib.parseQs(lib.urlparse(line).value.query);
      var p := ParseHysteria(lib, line, names).proxy;
      p.Some?
      && p.value.up == (if QueryFirst(q, "up", "") != "" then QueryFirst(q, "up", "") else QueryFirst(q, "upmbps", ""))
      && p.value.down == (if QueryFirst(q, "down", "") != "" then QueryFirst(q, "down", "") else QueryFirst(q, "downmbps", ""))
      && p.value.sni == QueryFirst(q, "peer", "")
  {
  }

  function ParseHysteria2(lib: Lib, line: string, names: Counts): (r: Parsed)
    ensures r.proxy.Some? ==> r.proxy.value.Hysteria2Proxy?
  {
    match Begin(lib, line, names)
    case None => Parsed(None, names)
    case Some(Start(url, q, n)) =>
      if url.port.BadPort? then Parsed(None, n.names)
      else
        Parsed(Some(Hysteria2Proxy(
          n.name, url.hostname, if url.port.Port? && url.port.n != 0 then url.port.n else 443,
          QueryFirst(q, "obfs", ""), QueryFirst(q, "obfs-password", ""), QueryFirst(q, "sni", ""),
          QueryIsTrue(q, "insecure"), AlpnOf(q), url.username, QueryFirst(q, "pinSHA256", ""),
          QueryFirst(q, "down", ""), QueryFirst(q, "up", ""), QueryFirst(q, "mport", ""))), n.names)
  }

  /** A hysteria2 link keeps a non-zero port; a missing port, or port 0, becomes 443.
      The password is the URL's user name. */
  lemma Hysteria2Port(lib: Lib, line: string, names: Counts)
    requires lib.urlparse(line).Some? && !lib.urlparse(line).value.port.BadPort?
    ensures var url := lib.urlparse(line).value;
      var p := ParseHysteria2(lib, line, names).proxy;
      p.Some? && p.value.password == url.username
      && p.value.port2 == (if url.port.Port? && url.port.n != 0 then url.port.n else 443)
  {
  }

  function ParseTuic(lib: Lib, line: string, names: Counts): (r: Parsed)
    ensures r.proxy.Some? ==> r.proxy.value.TuicProxy?
  {
    match Begin(lib, line, names)
    case None => Parsed(None, names)
    case Some(Start(url, q, n)) =>
      if url.port.BadPort? then Parsed(None, n.names)
      else
        var hasPassword := url.password.Some? && url.password.value != "";
        Parsed(Some(TuicProxy(
          n.name, url.hostname, PortOf(url.port),
          if hasPassword then url.username else None,
          if hasPassword then url.password else None,
          if hasPassword then None else url.username,
          QueryFirst(q, "congestion_control", ""), AlpnOf(q), QueryFirst(q, "sni", ""),
          QueryFirst(q, "disable_sni", "") == "1", QueryFirst(q, "udp_relay_mode", ""),
          QueryFirst(q, "allow_insecure", "") == "1")), n.names)
  }

  /** Tuic credentials: a non-empty password gives uuid and password,
      otherwise the user name is the token. */
  lemma TuicCredentials(lib: Lib, line: string, names: Counts)
    requires lib.urlparse(line).Some? && !lib.urlparse(line).value.port.BadPort?
    ensures var url := lib.urlparse(line).value;
      var p := ParseTuic(lib, line, names).proxy;
      p.Some? &&
      (if url.password.Some? && url.password.value != "" then
         p.value.uuid == url.username && p.value.password == url.password && p.value.token.None?
       else
         p.value.token == url.username && p.value.uuid.None? && p.value.password.None?)
  {
  }

  /** `{'grpc-service-name': …}` for trojan and vless. */
  function GrpcOpts(q: Query): Value {
    Dict(map["grpc-service-name" := Str(QueryFirst(q, "serviceName", ""))])
  }

  function ParseTrojan(lib: Lib, line: string, names: Counts): (r: Parsed)
    ensures r.proxy.Some? ==> r.proxy.value.TrojanProxy?
  {
    match Begin(lib, line, names)
    case None => Parsed(None, names)
    case Some(Start(url, q, n)) =>
      if url.port.BadPort? then Parsed(None, n.names)
      else
        var network := Lower(QueryFirst(q, "type", ""));
        var fp := QueryFirst(q, "fp", "");
        var ws := if network == "ws" then
            Dict(map["path" := Str(QueryFirst(q, "path", "")),
                     "headers" := Dict(map["User-Agent" := Str(lib.userAgent)])])
          else Null;
        Parsed(Some(TrojanProxy(
          n.name, url.hostname, PortOf(url.port), url.username, QueryIsTrue(q, "allowInsecure"),
          QueryFirst(q, "sni", ""), AlpnOf(q), network, ws,
          if network != "ws" && network == "grpc" then GrpcOpts(q) else Null,
          if fp != "" then fp else "chrome")), n.names)
  }

  /** Trojan: the password is the user name, the fingerprint defaults to
      `chrome`, and grpc options exist exactly for `type=grpc`. */
  lemma TrojanDefaults(lib: Lib, line: string, names: Counts)
    requires lib.urlparse(line).Some? && !lib.urlparse(line).value.port.BadPort?
    ensures var url := lib.urlparse(line).value;
      var q := lib.parseQs(url.query);
      var p := ParseTrojan(lib, line, names).proxy;
      p.Some? && p.value.password == url.username
      && p.value.clientFingerprint == (if QueryFirst(q, "fp", "") == "" then "chrome" else QueryFirst(q, "fp", ""))
      && (p.value.grpcOpts != Null <==> Lower(QueryFirst(q, "type", "")) == "grpc")
  {
  }

  function ParseVless(lib: Lib, line: string, names: Counts): (r: Parsed)
    ensures r.proxy.Some? ==> r.proxy.value.VlessProxy?
  {
    match Begin(lib, line, names)
    case None => Parsed(None, names)
    case Some(Start(url, q, n)) =>
      if url.port.BadPort? then Parsed(None, n.names)
      else
        var network := Lower(QueryFirst(q, "type", ""));
        var enc := QueryFirst(q, "encryption", "");
        Parsed(Some(VlessProxy(
          n.name, url.hostname, PortOf(url.port), url.username,
          if enc != "" then enc else "none", QueryFirst(q, "flow", ""), QueryFirst(q, "sni", ""),
          network,
          if network == "ws" then
            Dict(map["path" := Str(QueryFirst(q, "path", "")), "headers" := Dict(map[])])
          else Null,
          if network != "ws" && network == "grpc" then GrpcOpts(q) else Null)), n.names)
  }

  /** Vless encryption defaults to `none`, and websocket options exist exactly for `type=ws`. */
  lemma VlessDefaults(lib: Lib, line: string, names: Counts)
    requires lib.urlparse(line).Some? && !lib.urlparse(line).value.port.BadPort?
    ensures var q := lib.parseQs(lib.urlparse(line).value.query);
      var p := ParseVless(lib, line, names).proxy;
      p.Some?
      && p.value.encryption == (if QueryFirst(q, "encryption", "") == "" then "none" else QueryFirst(q, "encryption", ""))
      && (p.value.wsOpts != Null <==> Lower(QueryFirst(q, "type", "")) == "ws")
  {
  }

  /** A port that raises on access makes every URI parser return `None`, but
      only after the fragment's counter was raised. */
  lemma BadPortLeaksCounter(lib: Lib, line: string, names: Counts)
    requires lib.urlparse(line).Some? && lib.urlparse(line).value.port.BadPort?
    ensures var url := lib.urlparse(line).value;
      var t := if url.fragment == "" then lib.randomName else url.fragment;
      var r := ParseVless(lib, line, names);
      r.proxy.None? && Count(r.names, t) == Count(names, t) + 1
  {
  }

  // ---------------------------------------------------------------------
  // vmess: base64 JSON first, then the URI form
  // ---------------------------------------------------------------------

  /** Outcome of the JSON attempt: no name (give up), raised (fall back), or a proxy. */
  datatype JsonAttempt = NoName | Raised(names: Counts) | Built(proxy: Proxy, names: Counts)

  /** The string under `k` (default `d`), or `None` when the value is not a string
      and a string method applied to it would raise. */
  function StrField(values: Record, k: string, d: string): Option<string> {
    var v := GetOr(values, k, Str(d));
    if v.Str? then Some(v.s) else None
  }

  /** The `network` field after the `type`/`net` rewriting. */
  function VmessNetwork(values: Record, net: string): (n: string)
    ensures Get(values, "type") == Str("http") ==> n == "http"
    ensures Get(values, "type") != Str("http") && Lower(net) == "http" ==> n == "h2"
    ensures Get(values, "type") != Str("http") && Lower(net) != "http" ==> n == Lower(net)
  {
    if Get(values, "type") == Str("http") then "http"
    else if Lower(net) == "http" then "h2"
    else Lower(net)
  }

  /** `headers` of the transport options: `Host` present only when truthy. */
  function HostHeaders(values: Record, asList: bool): Value {
    var host := GetOr(values, "host", Str(""));
    Dict(if Truthy(host) then map["Host" := if asList then List([host]) else host] else map[])
  }

  /** The transport options of a vmess JSON link: `(ws, h2, http, grpc)`. */
  datatype VmessTransport = VmessTransport(ws: Value, h2: Value, http: Value, grpc: Value)

  function VmessOpts(values: Record, network: string): (o: VmessTransport)
    ensures network in {"ws", "httpupgrade"} <==> o.ws != Null
    ensures network in {"ws", "httpupgrade"} ==>
      o.ws == Dict(map["path" := GetOr(values, "path", Str("/")), "headers" := HostHeaders(values, false)])
    ensures network == "grpc" <==> o.grpc != Null
    ensures network == "grpc" ==> o.grpc == Dict(map["grpc-service-name" := GetOr(values, "path", Str(""))])
    ensures network == "http" <==> o.http != Null
    ensures network == "http" ==>
      o.http == Dict(map["path" := List([GetOr(values, "path", Str("/"))]), "headers" := HostHeaders(values, true)])
    ensures network == "h2" <==> o.h2 != Null
    ensures network == "h2" ==>
      o.h2 == Dict(map["path" := GetOr(values, "path", Str("")), "headers" := HostHeaders(values, true)])
  {
    if network == "http" then
      VmessTransport(Null, Null, Dict(map["path" := List([GetOr(values, "path", Str("/"))]),
                                          "headers" := HostHeaders(values, true)]), Null)
    else if network == "h2" then
      VmessTransport(Null, Dict(map["path" := GetOr(values, "path", Str("")),
                                    "headers" := HostHeaders(values, true)]), Null, Null)
    else if network == "ws" || network == "httpupgrade" then
      VmessTransport(Dict(map["path" := GetOr(values, "path", Str("/")),
                              "headers" := HostHeaders(values, false)]), Null, Null, Null)
    else if network == "grpc" then
      VmessTransport(Null, Null, Null, Dict(map["grpc-service-name" := GetOr(values, "path", Str(""))]))
    else VmessTransport(Null, Null, Null, Null)
  }

  /** The JSON object a vmess link carries, or `None` when decoding or parsing raises
      or the JSON is not an object (whose `.get` would raise). */
  function VmessValues(lib: Lib, line: string): Option<Record> {
    var body := Strip(Partition(line, "://").after);
    match lib.urlsafeB64decode(body + "===")
    case None => None
    case Some(decoded) =>
      match lib.jsonLoads(decoded)
      case Some(Dict(fields)) => Some(fields)
      case _ => None
  }

  /** Lines 268-310 once the name is known: the fields that can raise are
      `port` and `aid` (`int()`), and `net`, `tls`, `alpn` (string methods). */
  function VmessBuild(values: Record, name: string): (r: Option<Proxy>)
    ensures r.Some? ==> r.value.VmessProxy? && r.value.name == name
  {
    match (PyInt(Get(values, "port")), PyInt(GetOr(values, "aid", Int(0))),
           StrField(values, "net", ""), StrField(values, "tls", ""))
    case (Some(port), Some(aid), Some(net), Some(tls)) =>
      var alpn := GetOr(values, "alpn", Str(""));
      if Truthy(alpn) && !alpn.Str? then None
      else
        var network := VmessNetwork(values, net);
        var o := VmessOpts(values, network);
        Some(VmessProxy(
          name, Get(values, "add"), Int(port), Get(values, "id"), aid,
          EndsWith(Lower(tls), "tls"), GetOr(values, "scy", Str("auto")),
          GetOr(values, "sni", Str("")), Str(network), o.ws, o.h2, o.http, o.grpc,
          if Truthy(alpn) then StrList(Split(alpn.s, ",")) else Null))
    case _ => None
  }

  /** Lines 262-310: the base64 JSON form. A `ps` that is present but not a
      string is treated as raising. */
  function VmessJson(lib: Lib, line: string, names: Counts): (a: JsonAttempt)
    ensures a.Built? ==> a.proxy.VmessProxy?
  {
    match VmessValues(lib, line)
    case None => Raised(names)
    case Some(values) =>
      var ps := Get(values, "ps");
      if !Truthy(ps) then NoName
      else if !ps.Str? then Raised(names)
      else
        var n := UniqueName(names, ps.s, lib.randomName);
        match VmessBuild(values, n.name)
        case None => Raised(n.names)
        case Some(p) => Built(p, n.names)
  }

  /** Lines 312-323: the URI form, tried after the JSON form raised. */
  function VmessUri(lib: Lib, line: string, names: Counts): (r: Parsed)
    ensures r.proxy.Some? ==> r.proxy.value.VmessProxy?
  {
    match Begin(lib, line, names)
    case None => Parsed(None, names)
    case Some(Start(url, q, n)) =>
      if url.port.BadPort? then Parsed(None, n.names)
      else
        Parsed(Some(VmessProxy(
          n.name, OptStr(url.hostname), OptNat(PortOf(url.port)), OptStr(url.username), 0, false,
          Str(QueryFirst(q, "encryption", "auto")), Null, Null, Null, Null, Null, Null, Null)), n.names)
  }

  function ParseVmess(lib: Lib, line: string, names: Counts): (r: Parsed)
    ensures r.proxy.Some? ==> r.proxy.value.VmessProxy?
  {
    match VmessJson(lib, line, names)
    case NoName => Parsed(None, names)
    case Raised(n) => VmessUri(lib, line, n)
    case Built(p, n) => Parsed(Some(p), n)
  }

  /** A JSON object whose `ps` is empty or missing gives no proxy and no URI
      fallback, and leaves the counters alone. */
  lemma VmessNoName(lib: Lib, line: string, names: Counts)
    requires VmessValues(lib, line).Some? && !Truthy(Get(VmessValues(lib, line).value, "ps"))
    ensures ParseVmess(lib, line, names) == Parsed(None, names)
  {
  }

  /** Any other failure of the JSON form falls back to the URI form, whose
      proxy has `alterId` 0 and takes its cipher from `encryption` (default `auto`). */
  lemma VmessFallback(lib: Lib, line: string, names: Counts)
    requires VmessJson(lib, line, names).Raised?
    ensures var r := ParseVmess(lib, line, names);
      r == VmessUri(lib, line, VmessJson(lib, line, names).names)
      && (r.proxy.Some? ==>
            var q := lib.parseQs(lib.urlparse(line).value.query);
            r.proxy.value.alterId == 0 && r.proxy.value.cipher == Str(QueryFirst(q, "encryption", "auto")))
  {
    var n := VmessJson(lib, line, names).names;
    var r := VmessUri(lib, line, n);
    if r.proxy.Some? {
      var st := Begin(lib, line, n).value;
      assert r.proxy.value.cipher == Str(QueryFirst(st.q, "encryption", "auto"));
    }
  }

  /** An undecodable body falls back to the URI form with the counters untouched. */
  lemma VmessUndecodable(lib: Lib, line: string, names: Counts)
    requires VmessValues(lib, line).None?
    ensures ParseVmess(lib, line, names) == VmessUri(lib, line, names)
  {
  }

  /** The JSON form's rules: `type=http` forces `http`, net `http` becomes `h2`,
      tls holds iff the lower-cased `tls` ends with `tls`, ws/httpupgrade
      paths default to `/`, grpc takes its service name from `path`. */
  lemma VmessJsonNetwork(values: Record, name: string)
    requires VmessBuild(values, name).Some?
    ensures var p := VmessBuild(values, name).value;
      var net := StrField(values, "net", "").value;
      && (Get(values, "type") == Str("http") ==> p.vnetwork == Str("http"))
      && (Get(values, "type") != Str("http") && Lower(net) == "http" ==> p.vnetwork == Str("h2"))
      && p.tls == EndsWith(Lower(StrField(values, "tls", "").value), "tls")
      && (p.vnetwork in {Str("ws"), Str("httpupgrade")} ==>
            p.wsOpts.Dict? && p.wsOpts.fields["path"] == GetOr(values, "path", Str("/")))
      && (p.vnetwork == Str("grpc") ==>
            p.grpcOpts == Dict(map["grpc-service-name" := GetOr(values, "path", Str(""))]))
      && p.alterId == PyInt(GetOr(values, "aid", Int(0))).value
  {
  }

  // ---------------------------------------------------------------------
  // ss
  // ---------------------------------------------------------------------

  /** The `k=v` pairs of the plugin parts after the first; parts without `=`
      are ignored, each other part splits at its first `=`, a later key wins. */
  function PluginInfo(parts: seq<string>): (info: map<string, string>)
    ensures forall i :: 0 <= i < |parts| && Contains(parts[i], "=") ==> Partition(parts[i], "=").before in info
    decreases |parts|
  {
    if |parts| == 0 then map[]
    else
      var prev := PluginInfo(parts[..|parts| - 1]);
      var kv := Partition(parts[|parts| - 1], "=");
      var r := if kv.found then prev[kv.before := kv.after] else prev;
      assert forall i :: 0 <= i < |parts| - 1 ==> parts[..|parts| - 1][i] == parts[i];
      r
  }

  /** The value of a key is taken from the last part that defines it. */
  lemma {:induction false} PluginInfoLastWins(parts: seq<string>, i: nat)
    requires i < |parts| && Contains(parts[i], "=")
    requires forall j :: i < j < |parts| && Contains(parts[j], "=") ==>
      Partition(parts[j], "=").before != Partition(parts[i], "=").before
    ensures PluginInfo(parts)[Partition(parts[i], "=").before] == Partition(parts[i], "=").after
    decreases |parts|
  {
    if i < |parts| - 1 {
      var init := parts[..|parts| - 1];
      assert init[i] == parts[i];
      PluginInfoLastWins(init, i);
    }
  }

  /** `plugin_info.get(k)`. */
  function InfoGet(info: map<string, string>, k: string): Value {
    if k in info then Str(info[k]) else Null
  }

  /** `plugin` and `plugin_opts` of an ss proxy from the raw `plugin` query value. */
  function SsPlugin(plugin: string): (r: (string, Value))
    ensures plugin == "" ==> r == ("", Dict(map[]))
  {
    if plugin == "" then ("", Dict(map[]))
    else
      var parts := Split(plugin, ";");
      var info := PluginInfo(parts[1..]);
      if Contains(parts[0], "obfs") then
        ("obfs", Dict(map["mode" := InfoGet(info, "obfs"), "host" := InfoGet(info, "obfs-host")]))
      else if Contains(parts[0], "v2ray-plugin") then
        // `plugin` already holds "v2ray-plugin" when the `tls` test runs.
        ("v2ray-plugin", Dict(map["mode" := InfoGet(info, "mode"), "host" := InfoGet(info, "host"),
                                  "path" := InfoGet(info, "path"),
                                  "tls" := Bool(Contains("v2ray-plugin", "tls"))]))
      else (plugin, Dict(map[]))
  }

  /** A match of a non-empty needle starts with the needle's first character. */
  lemma MatchFirstChar(s: string, sub: string, j: nat)
    requires |sub| > 0 && MatchAt(s, sub, j)
    ensures s[j] == sub[0]
  {
    assert s[j..j + |sub|][0] == s[j];
  }

  /** A string without the letter `t` contains no `tls`. */
  lemma NoTls(s: string)
    requires forall i :: 0 <= i < |s| ==> s[i] != 't'
    ensures !Contains(s, "tls")
  {
    match Find(s, "tls")
    case None =>
    case Some(j) => MatchFirstChar(s, "tls", j);
  }

  /** The v2ray-plugin branch never reports tls, whatever the plugin string says. */
  lemma V2rayPluginNeverTls(plugin: string)
    requires plugin != ""
    requires !Contains(Split(plugin, ";")[0], "obfs")
    requires Contains(Split(plugin, ";")[0], "v2ray-plugin")
    ensures var r := SsPlugin(plugin);
      r.0 == "v2ray-plugin" && r.1.Dict? && r.1.fields["tls"] == Bool(false)
  {
    NoTls("v2ray-plugin");
  }

  /** An obfs plugin takes mode and host from `obfs` and `obfs-host`; a plugin
      naming neither obfs nor v2ray-plugin is kept verbatim with no options. */
  lemma SsPluginKinds(plugin: string)
    requires plugin != ""
    ensures var parts := Split(plugin, ";");
      var info := PluginInfo(parts[1..]);
      var r := SsPlugin(plugin);
      && (Contains(parts[0], "obfs") ==>
            r == ("obfs", Dict(map["mode" := InfoGet(info, "obfs"), "host" := InfoGet(info, "obfs-host")])))
      && (!Contains(parts[0], "obfs") && !Contains(parts[0], "v2ray-plugin") ==> r == (plugin, Dict(map[])))
  {
  }

  /** `port and password`: the URL carries the credentials in clear. */
  predicate SsDirect(url: Url) {
    url.port.Port? && url.port.n != 0 && url.password.Some? && url.password.value != ""
  }

  /** The credentials of an ss link: `(cipher, password)`, or `None` when the
      user-info cannot be decoded into `cipher:password`. */
  function SsCredentials(lib: Lib, url: Url): (r: Option<(Option<string>, Option<string>)>)
    requires !url.port.BadPort?
  {
    if SsDirect(url) then Some((url.username, url.password))
    else if url.username.None? then None
    else
      match lib.urlsafeB64decode(url.username.value + "===")
      case None => None
      case Some(decoded) =>
        var p := Partition(decoded, ":");
        if p.found then Some((Some(p.before), Some(p.after))) else None
  }

  /** With a non-zero port and a non-empty password the user name is the
      cipher; otherwise the user name is base64 of `cipher:password`, cut at
      the first `:`, and no `:` means no proxy. */
  lemma SsCredentialRules(lib: Lib, url: Url)
    requires !url.port.BadPort?
    ensures SsDirect(url) ==> SsCredentials(lib, url) == Some((url.username, url.password))
    ensures (!SsDirect(url) && url.username.Some? && lib.urlsafeB64decode(url.username.value + "===").Some?) ==>
      var decoded := lib.urlsafeB64decode(url.username.value + "===").value;
      (SsCredentials(lib, url).Some? <==> Contains(decoded, ":"))
      && (SsCredentials(lib, url).Some? ==>
            var c := SsCredentials(lib, url).value;
            decoded == c.0.value + ":" + c.1.value && !Contains(c.0.value, ":"))
  {
  }

  function ParseSs(lib: Lib, line: string, names: Counts): (r: Parsed)
    ensures r.proxy.Some? ==> r.proxy.value.SsProxy?
  {
    match lib.urlparse(line)
    case None => Parsed(None, names)
    case Some(url) =>
      var n := UniqueName(names, url.fragment, lib.randomName);
      if url.port.BadPort? then Parsed(None, n.names)
      else
        match SsCredentials(lib, url)
        case None => Parsed(None, n.names)
        case Some(cred) =>
          var q := lib.parseQs(url.query);
          var plugin := SsPlugin(QueryFirst(q, "plugin", ""));
          Parsed(Some(SsProxy(
            n.name, url.hostname, PortOf(url.port), cred.0, cred.1,
            QueryFirst(q, "udp-over-tcp", "") == "true" || QueryFirst(q, "uot", "") == "1",
            plugin.0, plugin.1)), n.names)
  }

  /** An ss proxy carries the credentials and plugin computed above. */
  lemma SsAssembled(lib: Lib, line: string, names: Counts)
    requires lib.urlparse(line).Some? && !lib.urlparse(line).value.port.BadPort?
    ensures var url := lib.urlparse(line).value;
      var r := ParseSs(lib, line, names);
      (r.proxy.Some? <==> SsCredentials(lib, url).Some?)
      && (r.proxy.Some? ==>
            var q := lib.parseQs(url.query);
            (r.proxy.value.sscipher, r.proxy.value.sspassword) == SsCredentials(lib, url).value
            && (r.proxy.value.plugin, r.proxy.value.pluginOpts) == SsPlugin(QueryFirst(q, "plugin", "")))
  {
  }

  // ---------------------------------------------------------------------
  // ssr
  // ---------------------------------------------------------------------

  /** `urlsafe_b64decode(enc + '===')` when `enc` is non-empty, else Python `None`;
      the outer `None` means the decoding raised. */
  function OptionalParam(lib: Lib, enc: string): Option<Option<string>> {
    if enc == "" then Some(None)
    else
      match lib.urlsafeB64decode(enc + "===")
      case None => None
      case Some(s) => Some(Some(s))
  }

  /** `line[6:]`. */
  function SsrPayload(line: string): string {
    if |line| >= 6 then line[6..] else ""
  }

  function ParseSsr(lib: Lib, line: string, names: Counts): (r: Parsed)
    ensures r.proxy.Some? ==> r.proxy.value.SsrProxy?
  {
    match lib.urlsafeB64decode(SsrPayload(line) + "===")
    case None => Parsed(None, names)
    case Some(decoded) => SsrOfDecoded(lib, decoded, names)
  }

  /** The decoded payload `host:port:protocol:method:obfs:password/?query`. */
  function SsrOfDecoded(lib: Lib, decoded: string, names: Counts): (r: Parsed)
    ensures r.proxy.Some? ==> r.proxy.value.SsrProxy?
    ensures (r.proxy.Some? ==> (Partition(decoded, "/?").found && |Split(Partition(decoded, "/?").before, ":")| == 6
      && r == SsrOfFields(lib, Split(Partition(decoded, "/?").before, ":"), Partition(decoded, "/?").after, names)))
  {
    var cut := Partition(decoded, "/?");
    if !cut.found then Parsed(None, names)
    else
      var fields := Split(cut.before, ":");
      if |fields| != 6 then Parsed(None, names)
      else SsrOfFields(lib, fields, cut.after, names)
  }

  /** The six `:`-fields and the query of an ssr payload: a proxy holds the
      fields in the order host:port:protocol:method:obfs:password, and an
      absent `obfsparam`/`protoparam` is `None`. */
  function SsrOfFields(lib: Lib, fields: seq<string>, query: string, names: Counts): (r: Parsed)
    requires |fields| == 6
    ensures (r.proxy.Some? ==> (r.proxy.value.SsrProxy?
      && r.proxy.value.host == fields[0] && r.proxy.value.ssrport == fields[1]
      && r.proxy.value.ssrprotocol == fields[2] && r.proxy.value.ssrmethod == fields[3]
      && r.proxy.value.ssrobfs == fields[4]
      && Some(r.proxy.value.ssrpassword) == lib.urlsafeB64decode(fields[5] + "===")
      && (QueryFirst(lib.parseQs(query), "obfsparam", "") == "" ==> r.proxy.value.obfsParam.None?)
      && (QueryFirst(lib.parseQs(query), "protoparam", "") == "" ==> r.proxy.value.protocolParam.None?)))
  {
    match lib.urlsafeB64decode(fields[5] + "===")
    case None => Parsed(None, names)
    case Some(password) =>
      var q := lib.parseQs(query);
      match lib.urlsafeB64decode(QueryFirst(q, "remarks", "") + "===")
      case None => Parsed(None, names)
      case Some(remarks) =>
        var n := UniqueName(names, remarks, lib.randomName);
        match (OptionalParam(lib, QueryFirst(q, "obfsparam", "")),
               OptionalParam(lib, QueryFirst(q, "protoparam", "")))
        case (Some(obfsParam), Some(protoParam)) =>
          Parsed(Some(SsrProxy(n.name, fields[0], fields[1], fields[3], password, fields[4],
                               fields[2], obfsParam, protoParam)), n.names)
        case _ => Parsed(None, n.names)
  }

  /** A payload without `/?`, or whose part before it does not split into
      exactly six `:`-fields, gives no proxy and leaves the counters alone. */
  lemma SsrShape(lib: Lib, line: string, names: Counts)
    requires lib.urlsafeB64decode(SsrPayload(line) + "===").Some?
    requires var decoded := lib.urlsafeB64decode(SsrPayload(line) + "===").value;
      !Contains(decoded, "/?") || |Split(Partition(decoded, "/?").before, ":")| != 6
    ensures ParseSsr(lib, line, names) == Parsed(None, names)
  {
  }

  /** A parsed ssr line decodes, has `/?` and six `:`-fields before it, and
      its proxy is the one read from those fields and the query after it
      (whose contract gives the field order). */
  lemma SsrFields(lib: Lib, line: string, names: Counts)
    requires ParseSsr(lib, line, names).proxy.Some?
    ensures lib.urlsafeB64decode(SsrPayload(line) + "===").Some?
    ensures (var cut := Partition(lib.urlsafeB64decode(SsrPayload(line) + "===").value, "/?");
      cut.found && |Split(cut.before, ":")| == 6)
    ensures (var cut := Partition(lib.urlsafeB64decode(SsrPayload(line) + "===").value, "/?");
      ParseSsr(lib, line, names) == SsrOfFields(lib, Split(cut.before, ":"), cut.after, names))
  {
  }

  // ---------------------------------------------------------------------
  // Registry and batch conversion
  // ---------------------------------------------------------------------

  datatype ProxyClass = Hysteria | Hysteria2 | Tuic | Trojan | Vless | Vmess | Ss | Ssr

  /** `scheme_to_class.get(scheme)`. */
  function SchemeClass(scheme: string): (c: Option<ProxyClass>)
    ensures c.Some? <==> scheme in {"hysteria", "hysteria2", "hy2", "tuic", "trojan", "vless", "vmess", "ss", "ssr"}
    ensures scheme == "hy2" || scheme == "hysteria2" ==> c == Some(Hysteria2)
  {
    match scheme
    case "hysteria" => Some(Hysteria)
    case "hysteria2" => Some(Hysteria2)
    case "hy2" => Some(Hysteria2)
    case "tuic" => Some(Tuic)
    case "trojan" => Some(Trojan)
    case "vless" => Some(Vless)
    case "vmess" => Some(Vmess)
    case "ss" => Some(Ss)
    case "ssr" => Some(Ssr)
    case _ => None
  }

  /** A record of the class `c`. */
  predicate OfClass(p: Proxy, c: ProxyClass) {
    match c
    case Hysteria => p.HysteriaProxy?
    case Hysteria2 => p.Hysteria2Proxy?
    case Tuic => p.TuicProxy?
    case Trojan => p.TrojanProxy?
    case Vless => p.VlessProxy?
    case Vmess => p.VmessProxy?
    case Ss => p.SsProxy?
    case Ssr => p.SsrProxy?
  }

  /** `cls.parse(line, names)`. */
  function ParseAs(lib: Lib, c: ProxyClass, line: string, names: Counts): (r: Parsed)
    ensures r.proxy.Some? ==> OfClass(r.proxy.value, c)
  {
    match c
    case Hysteria => ParseHysteria(lib, line, names)
    case Hysteria2 => ParseHysteria2(lib, line, names)
    case Tuic => ParseTuic(lib, line, names)
    case Trojan => ParseTrojan(lib, line, names)
    case Vless => ParseVless(lib, line, names)
    case Vmess => ParseVmess(lib, line, names)
    case Ss => ParseSs(lib, line, names)
    case Ssr => ParseSsr(lib, line, names)
  }

  /** The body of the `convert_links` loop for one line. */
  function ConvertOne(lib: Lib, line: string, names: Counts): (r: Parsed)
    ensures !Contains(line, "://") ==> r == Parsed(None, names)
    ensures Contains(line, "://") && SchemeClass(Lower(Partition(line, "://").before)).None? ==>
      r == Parsed(None, names)
    ensures Contains(line, "://") && SchemeClass(Lower(Partition(line, "://").before)).Some? ==>
      r == ParseAs(lib, SchemeClass(Lower(Partition(line, "://").before)).value, line, names)
  {
    var p := Partition(line, "://");
    if !p.found then Parsed(None, names)
    else
      match SchemeClass(Lower(p.before))
      case None => Parsed(None, names)
      case Some(c) => ParseAs(lib, c, line, names)
  }

  /** The loop of `convert_links` for any per-line step: proxies in input
      order, one counter map threaded through the batch. */
  function FoldParse(step: (string, Counts) -> Parsed, links: seq<string>, names: Counts): (r: (seq<Proxy>, Counts))
    ensures |r.0| <= |links|
    decreases |links|
  {
    if |links| == 0 then ([], names)
    else
      var one := step(links[0], names);
      var rest := FoldParse(step, links[1..], one.names);
      (if one.proxy.Some? then [one.proxy.value] + rest.0 else rest.0, rest.1)
  }

  /** `convert_links` from a given counter map. */
  function ConvertFrom(lib: Lib, links: seq<string>, names: Counts): (seq<Proxy>, Counts) {
    FoldParse((line, n) => ConvertOne(lib, line, n), links, names)
  }

  /** `convert_links(links)`: one fresh counter map shared by the whole batch. */
  function ConvertLinks(lib: Lib, links: seq<string>): (r: seq<Record>)
    ensures |r| <= |links|
  {
    var ps := ConvertFrom(lib, links, map[]).0;
    seq(|ps|, i requires 0 <= i < |ps| => ToDict(ps[i]))
  }

  /** Folding over a concatenation is folding the first part, then the second
      part with the counters the first part left: order is preserved and the
      counter map is shared across the call. */
  lemma {:induction false} FoldParseAppend(step: (string, Counts) -> Parsed, a: seq<string>, b: seq<string>, names: Counts)
    ensures var ra := FoldParse(step, a, names);
      var rb := FoldParse(step, b, ra.1);
      FoldParse(step, a + b, names) == (ra.0 + rb.0, rb.1)
    decreases |a|
  {
    if |a| > 0 {
      assert (a + b)[0] == a[0];
      assert (a + b)[1..] == a[1..] + b;
      var one := step(a[0], names);
      FoldParseAppend(step, a[1..], b, one.names);
      var tail := FoldParse(step, a[1..], one.names);
      var rb := FoldParse(step, b, tail.1);
      assert FoldParse(step, a[1..] + b, one.names) == (tail.0 + rb.0, rb.1);
      assert FoldParse(step, a, names).1 == tail.1;
      if one.proxy.Some? {
        assert FoldParse(step, a, names).0 == [one.proxy.value] + tail.0;
        assert [one.proxy.value] + (tail.0 + rb.0) == ([one.proxy.value] + tail.0) + rb.0;
      }
    } else {
      assert a + b == b;
      var rb := FoldParse(step, b, names);
      assert [] + rb.0 == rb.0;
    }
  }

  /** `convert_links` over a concatenation: the two parts in order, sharing one counter map. */
  lemma ConvertFromAppend(lib: Lib, a: seq<string>, b: seq<string>, names: Counts)
    ensures var ra := ConvertFrom(lib, a, names);
      var rb := ConvertFrom(lib, b, ra.1);
      ConvertFrom(lib, a + b, names) == (ra.0 + rb.0, rb.1)
  {
    FoldParseAppend((line, n) => ConvertOne(lib, line, n), a, b, names);
  }

  /** Steps that produce nothing and keep the counters make the fold a no-op. */
  lemma {:induction false} FoldParseNothing(step: (string, Counts) -> Parsed, links: seq<string>, names: Counts)
    requires forall i :: 0 <= i < |links| ==> step(links[i], names) == Parsed(None, names)
    ensures FoldParse(step, links, names) == ([], names)
    decreases |links|
  {
    if |links| > 0 {
      FoldParseNothing(step, links[1..], names);
    }
  }

  /** Lines that do not contain `://` contribute nothing and leave the counters alone. */
  lemma ConvertSkipsNonLinks(lib: Lib, links: seq<string>, names: Counts)
    requires forall i :: 0 <= i < |links| ==> !Contains(links[i], "://")
    ensures ConvertFrom(lib, links, names) == ([], names)
  {
    FoldParseNothing((line, n) => ConvertOne(lib, line, n), links, names);
  }

  /** Every proxy of the fold is one some step produced. */
  lemma {:induction false} FoldParseFrom(step: (string, Counts) -> Parsed, links: seq<string>, names: Counts)
    ensures forall p :: p in FoldParse(step, links, names).0 ==>
      exists i, n :: 0 <= i < |links| && step(links[i], n).proxy == Some(p)
    decreases |links|
  {
    if |links| > 0 {
      var one := step(links[0], names);
      FoldParseFrom(step, links[1..], one.names);
      forall p | p in FoldParse(step, links, names).0
        ensures exists i, n :: 0 <= i < |links| && step(links[i], n).proxy == Some(p)
      {
        if one.proxy == Some(p) {
          assert step(links[0], names).proxy == Some(p);
        } else {
          var i, n :| 0 <= i < |links[1..]| && step(links[1..][i], n).proxy == Some(p);
          assert step(links[i + 1], n).proxy == Some(p);
        }
      }
    }
  }

  /** Every converted proxy carries one of the registered type names. */
  lemma ConvertTypes(lib: Lib, links: seq<string>, names: Counts)
    ensures forall p :: p in ConvertFrom(lib, links, names).0 ==>
      TypeName(p) in {"hysteria", "hysteria2", "tuic", "trojan", "vless", "vmess", "ss", "ssr"}
  {
    FoldParseFrom((line, n) => ConvertOne(lib, line, n), links, names);
  }

  /** The scheme is matched case-insensitively: `HY2://…` goes to the hysteria2 parser. */
  lemma SchemeCaseInsensitive(lib: Lib, rest: string, names: Counts)
    ensures ConvertOne(lib, "HY2://" + rest, names) == ParseHysteria2(lib, "HY2://" + rest, names)
  {
    UpperHy2Scheme(rest);
    assert SchemeClass("hy2") == Some(Hysteria2);
  }

  /** The scheme of `HY2://…` is `HY2`, which lower-cases to `hy2`. */
  lemma UpperHy2Scheme(rest: string)
    ensures var line := "HY2://" + rest;
      Contains(line, "://") && Lower(Partition(line, "://").before) == "hy2"
  {
    var line := "HY2://" + rest;
    assert line[0] == 'H' && line[1] == 'Y' && line[2] == '2';
    assert MatchAt(line, "://", 3);
    assert !MatchAt(line, "://", 0) && !MatchAt(line, "://", 1) && !MatchAt(line, "://", 2) by {
      assert line[0..3][0] == 'H' && line[1..4][0] == 'Y' && line[2..5][0] == '2';
    }
    assert Find(line, "://") == Some(3);
    assert Partition(line, "://").before == "HY2";
    assert Lower("HY2") == "hy2";
  }

  /** `convert_link(link, names)`: the proxy (Python `''` when `None`) and the
      counters the CALLER sees. A caller passing an empty map gets it back
      untouched, because the function then works on a fresh local map. */
  function ConvertLink(lib: Lib, link: string, names: Counts): (r: Parsed)
    ensures names == map[] ==> r.names == map[]
    ensures names != map[] ==> r == ConvertOne(lib, link, names)
    ensures r.proxy == ConvertOne(lib, link, names).proxy
  {
    var one := ConvertOne(lib, link, names);
    Parsed(one.proxy, if names == map[] then names else one.names)
  }
}
