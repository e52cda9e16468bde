# Proxy pool core, modelled in Dafny

This project models the pure logic of a proxy-harvesting tool. The tool scrapes
proxy share links and subscriptions, normalises them into proxy records, keeps
a persistent pool of those records in a key-value store, and evicts the ones
that keep failing probes. Each Dafny module follows one source file (or one
shared concept of several):

- **Link normalisers and serialisers.** `Convert` covers submanager/convert.py,
  with `Naming` for its `unique_name` and the `get_new_name` helper the pool
  modules share. `SsrParser` covers ssrspeed/parser/parser.py and `LinkUtil`
  covers submanager/util.py. `GenLink` covers submanager/xui_scan/gen_link.py,
  and `XuiTools` covers tools/xui.py.
- **Pool bookkeeping.** `Pool` holds the shared pre-processing pieces (strip,
  rename, chunk, listener records). `MihomoConfig` builds the mihomo config
  files. `MihomoLauncher`, `MihomoProxyPool`, `MihomoSpeedTest`,
  `MihomoConfigGenerater`, `MergeSubUpload`, `SubscribeFetcher` and `SubMerger`
  follow the files of the same names.
- **Lifecycle state machines.** The `fail_count` and `success_count` counters
  over the stored pool live in `Lifecycle`. The per-checker transition rules
  live in `SubChecker` (threshold 10), `SubProxyChecker` and
  `XuiSublinkChecker` (threshold 3), `SubCheckerSsrspeed` (the inverted
  variant, threshold 3) and `TempAirport` (the `defeat` counter of the
  temporary-airport script).
- **Validators and small parsers.** `Ipv4` is IPv4 validation. `UserInfo` is
  the `subscription-userinfo` header. `Airport` and `AirportDb` cover the
  airport records and their store. `XuiDb` and `XuiSuccessToDb` cover the
  x-ui tables. `Ping`, `ProxyChecker` and `XuiScan` cover the probe loops.

Library behaviour the code relies on is not re-implemented. `urlparse`,
`parse_qs`, base64, JSON, YAML, `unquote` and the random name are fields of a
`Codecs.Lib` record of total functions, and the models are stated over any
such record. Sockets, HTTP, Redis, subprocesses, clocks and GeoIP lookups
become parameters:

- the outcome of each connection attempt;
- the documents a fetch returns;
- the ports that are free;
- the country an address resolves to.

A Redis hash is a Dafny `map` (`Store.Table`) holding the Python object, with
its enumeration order given as a sequence of keys. A Python `dict` whose
iteration order matters is an `OrderedDict.ODict`. Python values are a
JSON-like `PyValue.Value`. A `None` result stands for an exception that
escapes the function being modelled.

Some helpers in the source copy one another:

- submanager/xui_scan/xui_scan.py's `trim`, `convert_bytes_to_readable_unit`
  and `Panel` defaults are the same code as tools/xui.py's, and are modelled
  once, by `XuiTools.Trim`, `XuiTools.ReadableUnit` and `XuiTools.NewPanel`;
- its `tcp_ping` loop is proxy_check/ping.py's `sync_tcp_ping`
  (`Ping.SyncTcpPing`);
- submanager/xui_scan/xui_success_to_db.py's `is_valid_ipv4` is
  submanager/merge_sub_upload.py's (`Ipv4.IsValidIpv4`).

## Model

| member | source | states |
|---|---|---|
| Naming.UniqueName | submanager/convert.py:15-22 | an empty request takes the random name; the name's counter rises by exactly one and no other counter changes; the first use returns the name itself, a later use returns `name_k` with k the previous count |
| Naming.RepeatCount | submanager/convert.py:18-19 | n requests for one name raise its counter by exactly n |
| Naming.SameNameCount | submanager/convert.py:18-19 | every request for the same non-empty name raises its counter by one, whatever the counters held before |
| Naming.UniqueNameKth | submanager/convert.py:18-22 | the (k+1)-th request for an unused name in a batch yields `name_k`, the first yields the name unchanged |
| Naming.UniqueNameCanRepeat | submanager/convert.py:15-22 | the scheme does not guarantee distinct names: requests `HK`, `HK`, `HK_1` in one batch hand out `HK_1` twice |
| Naming.NewName | submanager/mihomo_proxy_pool.py:156-161 | the chosen name is not taken, starts with the requested name, is the requested name when that is free, and otherwise starts with `name-1` |
| Naming.RenameAll | submanager/mihomo_proxy_pool.py:156-161 | renaming a batch in order, adding each choice to the taken set, yields pairwise distinct, untaken names, each starting with its request |
| Naming.RenameAllKeepsDistinct | submanager/mihomo_proxy_pool.py:156-161 | names that are already distinct and untaken are all kept unchanged |
| Convert.AlpnOf | submanager/convert.py:56 | `alpn` is absent exactly when the first `alpn` query value is empty; otherwise joining its parts with `,` gives back that value |
| Convert.Begin | submanager/convert.py:48-51 | a URI parser starts exactly when `urlparse` succeeds, with the parsed query and the name `unique_name` hands out for the fragment |
| Convert.ParseHysteria | submanager/convert.py:45-64 | a parsed hysteria line is a hysteria proxy (its fields are stated by `HysteriaSpeeds`) |
| Convert.HysteriaSpeeds | submanager/convert.py:59-60 | `up` falls back to `upmbps` only when empty, and `down` to `downmbps` likewise |
| Convert.ParseHysteria2 | submanager/convert.py:80-102 | a parsed hysteria2 line is a hysteria2 proxy |
| Convert.Hysteria2Port | submanager/convert.py:88-94 | a hysteria2 proxy keeps a non-zero port, a missing or zero port becomes 443, and the password is the URL's user name |
| Convert.ParseTuic | submanager/convert.py:121-148 | a parsed tuic line is a tuic proxy |
| Convert.TuicCredentials | submanager/convert.py:134-138 | with a non-empty password the user name is the uuid and the password is kept; otherwise the user name is the token and uuid and password are `None` |
| Convert.ParseTrojan | submanager/convert.py:168-194 | a parsed trojan line is a trojan proxy |
| Convert.TrojanDefaults | submanager/convert.py:177-190 | the password is the user name, the fingerprint defaults to `chrome`, and grpc options exist exactly for `type=grpc` |
| Convert.ParseVless | submanager/convert.py:212-238 | a parsed vless line is a vless proxy |
| Convert.VlessDefaults | submanager/convert.py:225-232 | encryption defaults to `none`, and websocket options exist exactly for `type=ws` |
| Convert.BadPortLeaksCounter | submanager/convert.py:48-53 | a port that raises makes the URI parser return nothing, but the fragment's name counter has already been raised |
| Convert.VmessNetwork | submanager/convert.py:278-282 | `type=http` forces network `http`; otherwise a lower-cased net `http` becomes `h2`, and any other net is kept lower-cased |
| Convert.VmessOpts | submanager/convert.py:289-308 | websocket options exist exactly for `ws`/`httpupgrade`, grpc options exactly for `grpc` (service name from `path`), http options exactly for `http` |
| Convert.VmessBuild | submanager/convert.py:268-310 | a vmess record built from the JSON object is a vmess proxy carrying the name handed out |
| Convert.VmessJson | submanager/convert.py:262-310 | the base64-JSON form, when it builds, builds a vmess proxy |
| Convert.VmessUri | submanager/convert.py:312-323 | the URI fallback, when it builds, builds a vmess proxy |
| Convert.ParseVmess | submanager/convert.py:259-323 | a parsed vmess line is a vmess proxy |
| Convert.VmessNoName | submanager/convert.py:265-267 | a JSON object whose `ps` is empty or missing gives no proxy, no URI fallback and no counter change |
| Convert.VmessFallback | submanager/convert.py:311-321 | any other failure of the JSON form gives the URI form's proxy, with `alterId` 0 and the cipher from `encryption`, default `auto` |
| Convert.VmessUndecodable | submanager/convert.py:263-321 | an undecodable body falls back to the URI form with the counters untouched by the JSON attempt |
| Convert.VmessJsonNetwork | submanager/convert.py:278-308 | in the JSON form, `type=http` forces `http`, net `http` becomes `h2`, tls holds exactly when the lower-cased `tls` ends with `tls`, ws/httpupgrade paths default to `/`, and grpc takes its service name from `path` |
| Convert.PluginInfo | submanager/convert.py:367-371 | every plugin part after the first that contains `=` contributes its key (the text before the first `=`) |
| Convert.PluginInfoLastWins | submanager/convert.py:368-371 | a key's value comes from the last part that defines it, cut after the first `=` |
| Convert.SsPlugin | submanager/convert.py:362-382 | an empty plugin string gives no plugin and empty options |
| Convert.V2rayPluginNeverTls | submanager/convert.py:375-381 | the v2ray-plugin branch never reports tls, because `plugin` was reassigned before the test |
| Convert.SsPluginKinds | submanager/convert.py:372-374 | an obfs plugin becomes `obfs` with mode and host from `obfs` and `obfs-host`; a plugin naming neither obfs nor v2ray-plugin is kept verbatim with no options |
| Convert.SsCredentialRules | submanager/convert.py:351-357 | with a port and a password the user name is the cipher; otherwise the user name is decoded and cut at the first `:`, and no `:` gives no proxy |
| Convert.ParseSs | submanager/convert.py:345-385 | a parsed ss line is an ss proxy |
| Convert.SsAssembled | submanager/convert.py:358-383 | an ss proxy carries the credentials and plugin the rules above compute |
| Convert.ParseSsr | submanager/convert.py:400-429 | a parsed ssr line is an ssr proxy |
| Convert.SsrShape | submanager/convert.py:404-410 | a payload without `/?`, or whose front part does not split into exactly six `:` fields, gives no proxy and no counter change |
| Convert.SsrOfDecoded | submanager/convert.py:405-410 | a proxy is produced only when the decoded payload has `/?` and exactly six `:` fields before it, and it is then the proxy read from those fields and the query |
| Convert.SsrOfFields | submanager/convert.py:411-427 | a proxy read from the six fields holds them in the order host:port:protocol:method:obfs:password, its password is the decoded sixth field, and a missing `obfsparam`/`protoparam` is `None` |
| Convert.SsrFields | submanager/convert.py:404-427 | a parsed ssr line's payload decodes, has `/?` and six `:` fields before it, and its proxy is the one read from those fields and the query |
| Convert.SchemeClass | submanager/convert.py:446-456 | exactly the nine registered schemes have a parser, and `hy2` and `hysteria2` both map to the hysteria2 parser |
| Convert.ParseAs | submanager/convert.py:469 | each class's parser yields a proxy of that class |
| Convert.ConvertOne | submanager/convert.py:479-488 | a line without `://` yields nothing and keeps the counters; an unregistered scheme likewise; a registered one goes to its parser |
| Convert.ConvertLinks | submanager/convert.py:476-489 | there are never more proxies than lines |
| Convert.FoldParseAppend | submanager/convert.py:477-489 | converting a concatenation converts the first part, then the second with the counters the first left: order is kept and one counter map is shared |
| Convert.ConvertFromAppend | submanager/convert.py:477-489 | the same, for `convert_links` itself |
| Convert.ConvertSkipsNonLinks | submanager/convert.py:480-482 | lines without `://` contribute nothing and leave the counters alone |
| Convert.ConvertTypes | submanager/convert.py:446-456 | every converted proxy carries one of the registered type names |
| Convert.SchemeCaseInsensitive | submanager/convert.py:483-484 | the scheme is lower-cased before lookup: `HY2://` reaches the hysteria2 parser |
| Convert.ConvertLink | submanager/convert.py:459-472 | `convert_link` gives the same proxy as one step of `convert_links`; a caller passing an empty counter map gets it back unchanged, because the function then works on a fresh local map |
| SsrParser.ParseLinks | ssrspeed/parser/parser.py:139-241 | `parse_links` yields at most one node per link, in input order, starting with `cfg` unbound; the first exception a sub-parser lets through aborts the call |
| SsrParser.ParseLinksSkipsEmpty | ssrspeed/parser/parser.py:141-144 | a link that is empty once `\r` is removed contributes nothing and leaves `cfg` alone |
| SsrParser.ParseLinksAppend | ssrspeed/parser/parser.py:140-241 | when the first part raises nothing, the loop over a concatenation is the loop over the first part, then the loop over the second from the `cfg` the first part left |
| SsrParser.ParseLinksAppendErr | ssrspeed/parser/parser.py:140-241 | an exception in the first part of a concatenation is the result of the whole loop |
| SsrParser.SuppressedReusesCfg | ssrspeed/parser/parser.py:211-217 | after a suppressed trojan `ValueError`, an unbound `cfg` raises `UnboundLocalError` and a bound one becomes this link's node, staying bound |
| SsrParser.StaleTrojanNode | ssrspeed/parser/parser.py:156-217 | an `ss://` link with a truthy configuration followed by a trojan link whose parser raises `ValueError` gives two nodes with the ss configuration; the trojan link alone aborts the call |
| SsrParser.PrefixesExclusive | ssrspeed/parser/parser.py:156-236 | no link starts with two of the recognised, case-sensitive prefixes, so the dispatch order does not matter |
| SsrParser.SsFallbackOrder | ssrspeed/parser/parser.py:158-166 | the SIP002 parser is consulted only when the Basic parser raised `ValueError` |
| SsrParser.VmessFallbackOrder | ssrspeed/parser/parser.py:192-209 | Quantumult is consulted only when V2RayN returned nothing truthy or raised `ValueError`; both failing yields no node |
| SsrParser.UnsupportedLink | ssrspeed/parser/parser.py:235-236 | a link with none of the prefixes yields no node, raises nothing and leaves `cfg` alone |
| SsrParser.WebKind | ssrspeed/parser/parser.py:86-99 | exactly the seven type tags `Shadowsocks` … `Hysteria2` are known |
| SsrParser.WebConfigToNode | ssrspeed/parser/parser.py:83-102 | at most one node per config, and one per config when every tag is known |
| SsrParser.WebConfigKinds | ssrspeed/parser/parser.py:84-101 | every node comes from a config with a known tag, of that tag's kind |
| SsrParser.ClashNodes | ssrspeed/parser/parser.py:254-282 | at most one node per Clash configuration; unknown types are dropped |
| SsrParser.TrafficOf | ssrspeed/parser/parser.py:303-306 | the report is `(total, upload + download, expire)`, and it fails exactly when one of those keys is missing |
| SsrParser.TrafficRoundTrip | ssrspeed/parser/parser.py:301-306 | a header written as `k=n; k=n; …` is read back as its pairs, so `read_subscription_trafic` reports that header's total, used and expiry |
| SsrParser.ReadOneOrder | ssrspeed/parser/parser.py:313-390 | a share link is parsed directly without fetching; a fetched body is read as base64 of a link list when it decodes, and as Clash only when base64 raised `ValueError` |
| SsrParser.ReadSubscriptionExtends | ssrspeed/parser/parser.py:308-391 | nodes already read are never dropped: each URL only appends |
| LinkUtil.UrlHostPort | submanager/util.py:30-31 | the host and port are read exactly when reading the port does not raise, and the host is the URL's hostname |
| LinkUtil.ParseLinkHostPort | submanager/util.py:17-31 | a link is accepted only when its stripped text splits at `://` into exactly two parts |
| LinkUtil.OneSchemeSeparator | submanager/util.py:19 | a link that does not contain `://` exactly once is rejected |
| LinkUtil.VmessHostPort | submanager/util.py:21-23 | a vmess link yields the `add` and `port` fields of its decoded JSON body |
| LinkUtil.SsHostPort | submanager/util.py:25-28 | an ss link drops its `#` fragment, decodes the rest and reads host and port from `ss://<decoded>` |
| LinkUtil.OtherHostPort | submanager/util.py:30-31 | any other scheme, compared exactly and case-sensitively, reads host and port from the link itself |
| LinkUtil.MinMaxFrom | submanager/util.py:36-41 | the running pair starts at (99999, 1), bounds every number seen, and each bound is its start value or one of the numbers |
| LinkUtil.ProxyPortRange | submanager/util.py:34-46 | the call fails exactly when no file name holds a number, and whenever it returns, min ≤ max |
| LinkUtil.PortRangeExact | submanager/util.py:37-46 | numbers within 1..99999 give exactly their smallest and largest |
| LinkUtil.PortRangeCapped | submanager/util.py:36-41 | the start values leak into the result: a single number above 99999 is reported with minimum 99999 |
| LinkUtil.PortRangeRaisesIff | submanager/util.py:43-44 | the call raises exactly when no file name holds a digit |
| GenLink.SafeBase64 | submanager/xui_scan/gen_link.py:24-27 | the result never ends in `=`, is a prefix of the URL-safe base64 text, and only `=` characters were cut from it |
| GenLink.SubOf | submanager/xui_scan/gen_link.py:138-140 | `r.get(k, {})` can be read as a settings object exactly when the key is absent (giving the empty object) or holds a mapping (giving its fields); any other value raises at the `.get` that follows |
| GenLink.ItemStrs | submanager/xui_scan/gen_link.py:141 | a list yields its strings exactly when every item is a string, and then item `i` is the `i`-th string |
| GenLink.JoinOf | submanager/xui_scan/gen_link.py:141 | `','.join` of a list succeeds exactly when every item is a string and joins them with `,`; a string joins its characters; `None`, numbers and booleans raise |
| GenLink.JoinList | submanager/xui_scan/gen_link.py:191 | joining a missing list gives the empty string |
| GenLink.GetHeader | submanager/xui_scan/gen_link.py:40-46 | the value is that of the first header whose name matches case-insensitively when every earlier header is a mapping with a string name; no match at all gives Python's `None`; an unreadable header met before a match raises |
| GenLink.HeaderList | submanager/xui_scan/gen_link.py:42-43 | the loop visits a list's items and nothing for an empty string or mapping; anything else raises |
| GenLink.HttpRequest | submanager/xui_scan/gen_link.py:139-143 | the tcp http request object succeeds exactly when `request` is a mapping, its path list joins and its headers can be scanned, and yields the joined path and the `host` header |
| GenLink.HostOf | submanager/xui_scan/gen_link.py:153 | the ws-like `Host` lookup succeeds exactly when `headers` is absent or a mapping, and an absent `headers` gives `None` |
| GenLink.NonEmptyHost | submanager/xui_scan/gen_link.py:154 | `host and len(host) > 0` is the host's truthiness, and raises exactly on a truthy number or boolean |
| GenLink.Security | submanager/xui_scan/gen_link.py:132 | the effective security is the stream's own when `forceTls` is `same`, and `forceTls` otherwise; the Trojan link (line 308) takes its effective security by the same rule |
| GenLink.ClientId | submanager/xui_scan/gen_link.py:216 | reading the first client's id succeeds exactly when there is a first client holding `id`, and gives that value |
| GenLink.SettingsKey | submanager/xui_scan/gen_link.py:137-182 | exactly the eight listed networks read a settings object, and `httpupgrade` reads `httpSettings` |
| GenLink.TransportParams | submanager/xui_scan/gen_link.py:131-182 | the transport block succeeds exactly when a listed network's settings object is a mapping and its reads succeed; `type` is the network, only transport keys are set, grpc sets `mode=multi` exactly in multi mode, ws sets `path` and sets `host` exactly for a truthy Host, and an unknown network sets nothing else |
| GenLink.NetworkParams | submanager/xui_scan/gen_link.py:137-182 | each network case succeeds exactly when its own reads succeed, and keeps `type` |
| GenLink.TcpParams | submanager/xui_scan/gen_link.py:137-145 | a tcp stream without an http header adds nothing; with one it sets the joined path, `headerType=http` and a truthy `host`, and fails exactly when the request cannot be read |
| GenLink.WithPathHost | submanager/xui_scan/gen_link.py:150-155 | `path` is always set from the settings and `host` exactly when the `Host` header is truthy; nothing else changes; it fails exactly when the Host cannot be read or tested |
| GenLink.FirstOfList | submanager/xui_scan/gen_link.py:203-208 | the first comma-separated element is a prefix of the setting and holds no comma |
| GenLink.TlsParams | submanager/xui_scan/gen_link.py:187-195 | the tls block succeeds exactly when `alpn` joins, sets `security=tls` and the joined `alpn`, sets `allowInsecure=1` exactly for a truthy setting, sets `sni` only for a non-empty server name, and keeps the other parameters |
| GenLink.RealityParams | submanager/xui_scan/gen_link.py:198-210 | the reality block succeeds exactly when neither `serverNames` nor `shortIds` is a truthy non-string, sets `security=reality`, the public key and fingerprint, takes `sni`/`sid` from the first comma-separated entries, and keeps the other parameters |
| GenLink.WithRealityHeader | submanager/xui_scan/gen_link.py:199-202 | `security=reality`, `pbk` and `fp` are set and every other entry is kept |
| GenLink.RealityLists | submanager/xui_scan/gen_link.py:203-210 | `sni` and `sid` are the first comma-separated entries of non-empty strings and are added exactly for truthy settings; a truthy non-string raises; nothing but `sni`, `sid` and `spx` changes |
| GenLink.WithFirstOf | submanager/xui_scan/gen_link.py:204-208 | a falsy setting changes nothing, a non-empty string sets its first entry, and it raises exactly on a truthy non-string |
| GenLink.SecurityParams | submanager/xui_scan/gen_link.py:187-214 | the security block succeeds exactly when the chosen settings object is a mapping and its reads succeed, reports `tls` or `reality` when chosen and `none` otherwise, and changes only security keys |
| GenLink.LinkParams | submanager/xui_scan/gen_link.py:361-384 | the shared parameters exist exactly when the transport and security blocks succeed, carry the stream's network as `type` and the effective security (`none` for anything but tls or reality), and hold no `flow` |
| GenLink.VlessParams | submanager/xui_scan/gen_link.py:185-214 | the VLESS parameters exist exactly when there is a first client and the transport and security blocks succeed |
| GenLink.VlessFlowRule | submanager/xui_scan/gen_link.py:196-212 | `flow` is emitted exactly for a tcp stream with a non-empty flow under tls or reality, and it is the client's flow |
| GenLink.GenVlessLink | submanager/xui_scan/gen_link.py:216-223 | the link exists exactly when the first client has an id and both blocks succeed, and is `vless://<client id>@<address>:<port>` with the VLESS parameters and the quoted remark |
| GenLink.GenTrojanLink | submanager/xui_scan/gen_link.py:307-392 | the link exists exactly when both blocks succeed, and is `trojan://<password>@<address>:<port>` with the shared parameters and the quoted remark |
| GenLink.VlessIsLinkPlusFlow | submanager/xui_scan/gen_link.py:130-223 | given a first client, the VLESS parameters exist exactly when the Trojan parameters do, and are them plus, at most, `flow` |
| GenLink.ListServerNamesRaise | submanager/xui_scan/gen_link.py:203-205 | a reality `serverNames` stored as a JSON array makes both the Trojan and the VLESS generator raise at `.split` |
| GenLink.VmessObject | submanager/xui_scan/gen_link.py:52-124 | an object exists exactly when the first client has an id, the transport block succeeds and, under tls, the tls block does; the id is a one-element list, `http` becomes net `h2`, any other network is kept, and grpc multi-mode sets `type=multi` |
| GenLink.VmessObjectFor | submanager/xui_scan/gen_link.py:52-65 | the object carries `v=2`, the remark, address, port, the effective security and the client id as a one-element list (the trailing comma at line 52), whatever the transport and tls blocks add |
| GenLink.VmessBase | submanager/xui_scan/gen_link.py:54-63 | the object starts with the fixed fields and `type=none` |
| GenLink.VmessTransport | submanager/xui_scan/gen_link.py:64-112 | the transport block succeeds exactly when a listed network's settings object is a mapping and its reads succeed; it keeps the version, remark, address, port, id and tls entries, turns `http` into net `h2`, keeps any other network, sets `type=multi` for grpc multi-mode and always leaves a `type` |
| GenLink.VmessNetwork | submanager/xui_scan/gen_link.py:65-112 | each network case succeeds exactly when its own reads succeed |
| GenLink.VmessTcp | submanager/xui_scan/gen_link.py:66-74 | `tcp` copies the header type and keeps the network; with an http header it sets the joined path and fails exactly when the request cannot be read |
| GenLink.WithPathAndHost | submanager/xui_scan/gen_link.py:71-74 | the http header sets the path list and sets `host` exactly when the request's Host is truthy, leaving the other entries alone |
| GenLink.VmessKcp | submanager/xui_scan/gen_link.py:75-78 | `kcp` copies the header type and puts the seed in `path` |
| GenLink.VmessPathHost | submanager/xui_scan/gen_link.py:79-84 | `ws` (and `httpupgrade`, `splithttp`) sets the path, keeps network and type, and fails exactly when the Host cannot be read or tested |
| GenLink.VmessH2 | submanager/xui_scan/gen_link.py:85-89 | `http` renames the network `h2`, sets the path and the joined hosts, and fails exactly when the hosts do not join |
| GenLink.VmessQuic | submanager/xui_scan/gen_link.py:90-94 | `quic` copies the type, puts the security in `host` and the key in `path` |
| GenLink.VmessGrpc | submanager/xui_scan/gen_link.py:95-100 | `grpc` puts the service name in `path` and the authority in `authority`, and sets `type=multi` exactly in multi mode |
| GenLink.VmessTls | submanager/xui_scan/gen_link.py:114-124 | the tls block fails exactly when a truthy `alpn` does not join, changes only `sni`, `fp`, `alpn` and `allowInsecure`, takes `sni` from a non-empty server name and keeps `allowInsecure`'s own value |
| GenLink.VmessTlsNames | submanager/xui_scan/gen_link.py:116-119 | `sni` and `fp` are set from non-empty settings and nothing else changes |
| GenLink.VmessAlpn | submanager/xui_scan/gen_link.py:120-124 | a truthy `alpn` is joined (raising exactly when it cannot be), a truthy `allowInsecure` is copied, and nothing else changes |
| GenLink.GenVmessLink | submanager/xui_scan/gen_link.py:48-128 | any protocol but vmess gives `''`; otherwise the link is `vmess://` and the base64 of the JSON object, and it exists exactly when the first client has an id and the transport and tls blocks succeed |
| GenLink.MissingIdRaises | submanager/xui_scan/gen_link.py:216 | a first client without `id` makes the VLESS generator raise, and the vmess generator too (its `clientId` read at line 52) |
| XuiTools.Trim | tools/xui.py:43-44 | a non-string gives `""`; the result neither starts nor ends with whitespace and is no longer than the input; the scanner's copy (submanager/xui_scan/xui_scan.py lines 51-52) is the same function |
| XuiTools.TrimIdempotent | tools/xui.py:43-44 | trimming an already trimmed string changes nothing |
| XuiTools.ReadableUnit | tools/xui.py:47-57 | TB exactly from 2^40 bytes, GB on [2^30, 2^40), MB below; the number times the unit size is the byte count, and it is at least 1 for TB and GB and below 1024 for GB and MB; the scanner's copy (submanager/xui_scan/xui_scan.py lines 55-65) is the same function |
| XuiTools.UnitMonotone | tools/xui.py:47-57 | a larger byte count never gets a smaller unit |
| XuiTools.NewPanel | tools/xui.py:72-75 | the url is trimmed; username and password are the trimmed arguments, or `admin` when those are blank, so never empty; the scanner's `Panel` (submanager/xui_scan/xui_scan.py lines 111-114) does the same |
| XuiTools.BlankCredentials | tools/xui.py:72-75 | blank or non-string credentials give the same panel as passing `admin` for both |
| XuiTools.WithRemark | tools/xui.py:226-227 | a falsy remark leaves the link alone; a string remark appends `#` and its quoted text; any other truthy remark raises |
| XuiTools.RemarkSplitsOff | tools/xui.py:226-227 | for a link without `#`, splitting at the first `#` gives back the link and the quoted remark |
| XuiTools.BuildVlessLink | tools/xui.py:211-228 | when it does not raise, the link is non-empty exactly when the first client's flow is `xtls-rprx-vision`, and then it starts with `vless://` |
| XuiTools.BuildTrojanLink | tools/xui.py:253-259 | the link starts with `trojan://` |
| XuiTools.BuildShadowsocksLink | tools/xui.py:261-269 | the link is `ss://` followed by the unpadded base64 of `method:password@address:port`, and exists only when those credentials do |
| XuiTools.VmessConfig | tools/xui.py:237-249 | `ps` is the remark when truthy and otherwise the inbound's `tag`; `add` and `port` are the address and port |
| XuiTools.BuildVmessLink | tools/xui.py:230-251 | the link exists exactly when the config does and is `vmess://` followed by the unpadded base64 of its JSON text |
| XuiTools.BuildLink | tools/xui.py:200-209 | an unsupported protocol gives `""`; a non-empty link starts with the scheme of its protocol |
| XuiTools.RemarkIsFragment | tools/xui.py:211-269 | for vless, trojan and shadowsocks an empty remark gives the bare link, and a non-empty one gives the bare link plus `#` and the quoted remark |
| XuiTools.VmessPsFallsBackToTag | tools/xui.py:239 | an empty remark makes the vmess `ps` the inbound's `tag` |
| XuiTools.EntryOf | tools/xui.py:179-197 | one inbound adds at most one entry, with a non-empty link, and only if enabled; a disabled mapping adds nothing and does not raise |
| XuiTools.EntriesOf | tools/xui.py:179-198 | no more entries than inbounds, and every link is non-empty |
| XuiTools.GenerateSubscriptionLinks | tools/xui.py:173-198 | falsy data, or data without a truthy `success`, gives `[]`; entries come only from successful data and every link is non-empty |
| XuiTools.DisabledSkipped | tools/xui.py:180-181 | removing a disabled inbound from the list does not change the result |
| XuiTools.MainlandYieldsNothing | tools/xui.py:189-191 | a panel located in mainland China yields no links |
| XuiTools.PreferSubpathThenHttps | tools/xui.py:340-343 | under `cmp` a URL with a sub-path beats one without, and with equal sub-path status https beats anything else |
| XuiTools.KeyOf | tools/xui.py:340-343 | the key keeps the URL, its first part is 1 exactly when the URL has a sub-path, its second is 2 exactly for https |
| XuiTools.KeyLessTransitive | tools/xui.py:358 | the tuple order `sorted` uses is transitive |
| XuiTools.KeyLessTotal | tools/xui.py:358 | any two keys of different URLs are ordered one way or the other |
| XuiTools.KeyLessIrreflexive | tools/xui.py:358 | no key is below itself |
| XuiTools.GroupLines | tools/xui.py:345-352 | the grouping raises exactly when `urlparse` raises on some accepted line; otherwise at most one group per line |
| XuiTools.StepLine | tools/xui.py:347-352 | a line that is blank, a comment or has no netloc leaves the groups as they are; otherwise it is added to its netloc's group |
| XuiTools.GroupLinesSummarises | tools/xui.py:345-352 | every recorded URL is an input line of its own netloc, and for every input line its netloc's recorded URL is that line or beats it |
| XuiTools.Dedup | tools/xui.py:331-363 | dedup raises exactly when the grouping does, and never lengthens the list |
| XuiTools.DedupKeepsMaximumPerDomain | tools/xui.py:354-363 | the kept URLs are normalised input lines with distinct netlocs, and each netloc of the input keeps the maximum of its lines under `cmp` |
| XuiTools.DedupKept | tools/xui.py:354-363 | the k-th kept URL is the recorded best line of the k-th netloc in first-seen order, and a normalised input line |
| XuiTools.DedupCovers | tools/xui.py:345-363 | a grouped input line's netloc is kept, by that line or one that beats it under `cmp` |
| Ipv4.LeadingZeroRejected | submanager/merge_sub_upload.py:45-47 | a part of two or more characters starting with `0` is rejected |
| Ipv4.AllPartsOk | submanager/merge_sub_upload.py:40-47 | the loop accepts exactly when every part passes its checks |
| Ipv4.IsValidIpv4 | submanager/merge_sub_upload.py:33-49 | true exactly for the dotted-quad texts, and then the text splits into four parts |
| Ipv4.ValidIffQuad | submanager/merge_sub_upload.py:33-49 | four parts each passing the checks is the same as being `a.b.c.d` with each number in 0..255 written without leading zeros; the validator in submanager/xui_scan/xui_success_to_db.py (lines 11-28) is the same |
| Ipv4.QuadIsValid | submanager/merge_sub_upload.py:33-49 | the dotted text of four numbers in 0..255 splits back into their decimal texts, each of which passes |
| MergeSubUpload.DomainToIp | submanager/merge_sub_upload.py:52-60 | an IPv4 text is kept, a failed lookup keeps the domain, and otherwise the result is the looked-up address |
| MergeSubUpload.DottedQuadKept | submanager/merge_sub_upload.py:54-55 | an address already in dotted form is never looked up |
| MergeSubUpload.LocationLabel | submanager/merge_sub_upload.py:152-157 | a location without words raises; one mentioning Hong Kong or else Taiwan is labelled so, and any other by its first word |
| MergeSubUpload.HongKongLocation | submanager/merge_sub_upload.py:154-155 | a location mentioning Hong Kong is labelled Hong Kong |
| MergeSubUpload.BaseName | submanager/merge_sub_upload.py:145-161 | a name needs a `server` that renders; without risk data it is the server's country, `-` and its address |
| MergeSubUpload.HongKongLabel | submanager/merge_sub_upload.py:149-159 | with risk data located in Hong Kong the name is Hong Kong, the address and the risk score joined by `-` |
| MergeSubUpload.BaseNames | submanager/merge_sub_upload.py:144-164 | one base name per proxy, each the proxy's own |
| MergeSubUpload.DropMainland | submanager/merge_sub_upload.py:167 | exactly the proxies whose name does not mention mainland China survive, in order, and distinct names stay distinct |
| MergeSubUpload.PostProcessProxies | submanager/merge_sub_upload.py:127-167 | raises exactly when naming does; the survivors are no more than the input, none in mainland China, all names distinct |
| MergeSubUpload.PostProcessRenamesOnly | submanager/merge_sub_upload.py:135-164 | each survivor is an input proxy with only its name changed, and the new name starts with the base name it asked for |
| XuiSuccessToDb.SiteUrl | submanager/xui_scan/xui_success_to_db.py:61-66 | a blank line is skipped; otherwise the stripped line, prefixed with `http://` when it lacks it |
| XuiSuccessToDb.SiteUrlIdempotent | submanager/xui_scan/xui_success_to_db.py:61-66 | a stored key maps to itself |
| XuiSuccessToDb.RunEnd | submanager/xui_scan/xui_success_to_db.py:68 | `\d+` from a position stops at the first non-digit: everything before it is a digit |
| XuiSuccessToDb.Groups | submanager/xui_scan/xui_success_to_db.py:68 | a match of the pattern at a position ends after four dot-separated non-empty digit groups, and the next character, if any, is not a digit (the greedy end) |
| XuiSuccessToDb.GroupsComplete | submanager/xui_scan/xui_success_to_db.py:68 | whenever a stretch starting at a position is four dotted digit groups, the pattern matches at that position |
| XuiSuccessToDb.QuadSearch | submanager/xui_scan/xui_success_to_db.py:68 | `re.search` reports the leftmost position where the pattern matches: it matches there and at no earlier position, and no position matches when nothing is reported |
| XuiSuccessToDb.FindQuad | submanager/xui_scan/xui_success_to_db.py:68 | the text `group(0)` returns is itself four dotted digit groups and starts at the reported position; there is one exactly when the search reports a position |
| XuiSuccessToDb.NoQuadIffNoMatch | submanager/xui_scan/xui_success_to_db.py:68 | the search finds nothing exactly when no stretch of the line is four dotted digit groups, in which case `.group` on `None` raises |
| XuiSuccessToDb.LineStep | submanager/xui_scan/xui_success_to_db.py:60-68 | a line is skipped exactly when blank; a stored line's key is its `http://` URL and its IP the dotted quad found in that URL; the loop stops exactly at a non-blank line with no dotted quad |
| XuiSuccessToDb.StoreRun | submanager/xui_scan/xui_success_to_db.py:60-83 | every stored key starts with `http://` and every stored IP is a dotted quad, at most one entry per line; the run ends early exactly when some line has no dotted quad |
| XuiSuccessToDb.StoreRunAppend | submanager/xui_scan/xui_success_to_db.py:60-83 | the run over two stretches of lines is the run over the first followed, unless it stopped, by the run over the second: entries come in line order and nothing after the stopping line is stored |
| XuiSuccessToDb.StoreRunOne | submanager/xui_scan/xui_success_to_db.py:60-83 | a single line stores nothing when blank, its key and IP when it holds a dotted quad, and stops the run otherwise |
| Airport.NewAirPort | subscribe/airport.py:91-119 | the site is the argument with its trailing slashes removed; the coupon is stripped; the airport starts available, without subscription, account or traffic |
| Airport.SiteCleanIdempotent | subscribe/airport.py:93 | cleaning an already cleaned site changes nothing |
| Airport.ParseSubscriptionUserInfo | subscribe/airport.py:483-490 | only the traffic fields change; a header that does not parse changes nothing, and one carrying `total` but lacking `upload` or `download` sets only the total before raising |
| Airport.UserInfoRoundTrip | subscribe/airport.py:483-490 | printing `k=v` pairs with `; ` and parsing them back sets the fields from those pairs |
| Airport.ToDict | subscribe/airport.py:150-174 | the record always has url, comm_config, available and coupon; userinfo exactly when both credentials are set; subscription and title exactly with a subscription; the four traffic fields exactly when the total is also positive; no other keys |
| Airport.ItemFromDb | subscribe/airport.py:180-185 | a site missing from the table gives `{}`, a stored JSON record is returned as loaded |
| Airport.NeedResubscribe | subscribe/airport.py:381-393 | a record that is not a mapping, or whose traffic cannot be compared, needs resubscribing; otherwise exactly when used traffic reaches the total or the expiry is not in the past |
| Airport.CheckNeedResubscribe | subscribe/airport.py:381-393 | a site with no stored record needs resubscribing |
| Airport.StoredRecordResubscribe | subscribe/airport.py:150-174 | a stored record of a subscription with traffic left and an expiry in the past does not need resubscribing; one without a subscription and positive total always does |
| Airport.CommConfig | subscribe/airport.py:408-412 | the stored config has exactly the three flags of the site's common config |
| Airport.GetSubscribeStart | subscribe/airport.py:399-419 | no registration without need; a refusal exactly when invite, captcha or whitelist rules block it, which also marks the airport unavailable; otherwise only the config is recorded |
| Airport.GmailWhitelistRegisters | subscribe/airport.py:415-416 | a verifying site whose whitelist admits `gmail.com`, with no invite or captcha requirement, goes on to register |
| Airport.DomainChoices | subscribe/airport.py:426 | the domains are the site's whitelist when it has one, else the built-in list, which has no empty entry |
| Airport.RegistrationEmail | subscribe/airport.py:426-431 | the email is the user name, `@` and the chosen domain; with the built-in list it always exists |
| Airport.ReplyValue | subscribe/airport.py:237-241 | a non-200 status gives false; a 200 reply gives the body's `data` field, false when absent, and raises `AttributeError` when the JSON body is not an object |
| Airport.SendEmailVerify | subscribe/airport.py:227-244 | a blank email or no retries gives false without a request; an answered post decides the result, including the escaping `AttributeError`; never more requests than retries |
| Airport.FirstAnswerDecides | subscribe/airport.py:233-244 | after `j` caught errors the next answered post decides the result, with `j + 1` posts made |
| Airport.EmailForm | subscribe/airport.py:231 | the form holds only `email`, stripped |
| Airport.AllFailuresExhaustRetries | subscribe/airport.py:242-244 | when every request fails, all retries are used and the result is false |
| AirportDb.StartRecord | subscribe/airport_db.py:26-29 | the stored record when it is JSON, `{}` when missing or unparsable, and a raise when the JSON is not an object |
| AirportDb.Update | subscribe/airport_db.py:25-33 | the record stored and returned has the old keys plus the new ones, the new values win, the old values stay elsewhere |
| AirportDb.UpdateReadsBack | subscribe/airport_db.py:25-33 | reading the key after an update gives the returned record |
| AirportDb.UpdateIdempotent | subscribe/airport_db.py:25-33 | applying the same update twice is applying it once |
| AirportDb.FilterRecords | subscribe/airport_db.py:15-23 | the filter raises unless every record is a mapping; it keeps exactly the records whose field is truthy |
| AirportDb.FilterRecordsOrdered | subscribe/airport_db.py:15-23 | the kept records are in table order |
| AirportDb.GetAvailableAirports | subscribe/airport_db.py:15-23 | every airport returned is a stored record with a truthy `available` |
| AirportDb.AvailableExactly | subscribe/airport_db.py:15-23 | every stored record with a truthy `available` is returned |
| AirportDb.GetAllSubscribedAirports | subscribe/airport_db.py:35-43 | every airport returned is a stored record with a truthy `subscribe` |
| AirportDb.SubscribedExactly | subscribe/airport_db.py:35-43 | every stored record with a truthy `subscribe` is returned, and the query raises exactly when loading fails or a stored record is not a mapping |
| AirportDb.GetAllAirportDict | subscribe/airport_db.py:45-52 | it fails exactly when a stored text is not JSON; the keys are the table's, texts are loaded and other values kept |
| UserInfo.HeaderItems | subscribe/airport.py:485 | one `k=v` item per pair, in order |
| UserInfo.ItemValue | subscribe/airport.py:485 | a `k=n` item adds `k` with the integer `n`, overriding an earlier one |
| UserInfo.HeaderValuesOfItems | subscribe/airport.py:485 | parsing printed pairs gives the map of those pairs, the last value winning |
| UserInfo.HeaderRoundTrip | subscribe/airport.py:485 | joining printed pairs with `; ` and parsing the header gives back their map |
| UserInfo.RawValues | submanager/mihomo_proxy_pool.py:277 | the raw dictionary fails exactly when some item has no `=` |
| UserInfo.HeaderValuesAreInts | ssrspeed/parser/parser.py:302 | when the integer form parses, the raw form does too, with the same keys and each value's text parsing to the integer |
| UserInfo.HeaderIsRaw | ssrspeed/parser/parser.py:302 | the same for a whole header text |
| XuiDb.PutXuiLink | submanager/xui_scan/xui_db.py:14-20 | a non-empty list is stored as `{link: first element}`, any other non-list as given, and an empty list raises |
| Strings.SplitWhitespace | submanager/xui_scan/xui_db.py:29 | `str.split()` yields some piece exactly when the text holds a non-whitespace character |
| Strings.SplitWhitespaceWords | submanager/xui_scan/xui_db.py:29 | every piece `str.split()` yields is a non-empty run of non-whitespace characters |
| Strings.PyIntOfStr | submanager/mihomo_proxy_pool.py:278-280 | `int` of plain digit text is its decimal value (ASCII digits only, see Left out) |
| Strings.PyIntRoundTrip | submanager/mihomo_proxy_pool.py:278-280 | `int(str(i)) == i` for every integer, negative ones included |
| XuiDb.LinksOf | submanager/xui_scan/xui_db.py:29 | a record without `link` gives no links; every link returned is one whitespace-free word |
| XuiDb.GetAllLinks | submanager/xui_scan/xui_db.py:25-31 | every link returned is one whitespace-free word |
| XuiDb.GetAllLinksAppend | submanager/xui_scan/xui_db.py:25-31 | the links of one more record are the earlier links followed by that record's words |
| XuiDb.MissingLinkContributesNothing | submanager/xui_scan/xui_db.py:29-30 | a record without `link` adds no link |
| XuiDb.GetAllSuccessSites | submanager/xui_scan/xui_db.py:58-68 | it fails exactly when a stored value is not a JSON object; the keys are exactly the sites whose status is not `failure`, each record gets its key as `url` and is otherwise as stored |
| XuiDb.MissingStatusIsSuccess | submanager/xui_scan/xui_db.py:65 | a site without `status` counts as a success |
| Store.Put | proxy_db/redis_client.py:51-60 | the key is added or overwritten with the value and every other key keeps its value |
| Store.Delete | proxy_db/redis_client.py:62-68 | only the key is removed |
| Store.Loaded | proxy_db/redis_client.py:84 | a value stored as JSON from an object reads back as that object |
| Store.GetLoaded | subscribe/airport.py:180-185 | a missing key fails to load; a present one reads back as its stored value |
| Store.GetAll | proxy_db/redis_client.py:78-85 | it fails exactly when a stored text is not JSON; otherwise one loaded value per key, in the hash's order |
| Pool.HasFailed | submanager/mihomo_launcher.py:62-63 | a proxy without `fail_count` has not failed; an integer count has failed exactly when positive; the comparison raises exactly when the count is not a number |
| Pool.NameOf | submanager/sub_checker.py:48 | a name exists exactly when `name` holds a string, and is that string; a missing `name` raises, and a non-string one is treated as raising (see Left out) |
| Pool.Names | submanager/sub_checker.py:43-51 | the names of all proxies, one per proxy, present exactly when every proxy has one |
| Pool.WithNames | submanager/sub_checker.py:49 | each proxy gets its new name and nothing else changes |
| Pool.StripAndRename | submanager/sub_checker.py:31-54 | it raises exactly when a name is missing; every copy loses the bookkeeping keys, keeps its other fields, gets a name starting with its old one, and all names are distinct |
| Pool.StripAndRenameKeepsDistinctNames | submanager/sub_checker.py:31-54 | proxies with distinct names keep them and only lose the bookkeeping keys |
| Pool.StripAndRenameIs | submanager/sub_checker.py:31-54 | the result is the stripped copies renamed by the shared renaming rule |
| Pool.ProxyDict | submanager/sub_checker.py:53 | it raises exactly when a proxy lacks `server` or `port`; every proxy's key is present and each entry is a proxy carrying that key |
| Pool.ProxyDictLastWins | submanager/sub_checker.py:53 | a key maps to the last proxy carrying it |
| Pool.Healthy | submanager/mihomo_launcher.py:61-65 | exactly the proxies whose fail count is not positive survive, in order; it raises exactly when some count cannot be compared |
| Pool.SsFixups | submanager/mihomo_proxy_pool.py:170-175 | non-ss proxies are unchanged; for ss a cipher for which `'poly1305' in cipher` holds (substring of text, element of a list, key of a mapping) becomes `chacha20-ietf-poly1305`, a truthy password is unquoted, nothing else changes, and a missing, `None`, numeric or boolean cipher raises |
| Pool.Chunks | submanager/mihomo_launcher.py:123-124 | the chunks concatenate back to the list; each has between 1 and `n` items and all but the last exactly `n` |
| Pool.ChunksPrefixLength | submanager/mihomo_launcher.py:123-128 | the chunks before chunk `c` hold `n * c` items, so a proxy's offset is its chunk start plus its index |
| Pool.FlattenMember | submanager/mihomo_launcher.py:123-124 | every item of a chunk is an item of the list |
| Pool.Listener | submanager/mihomo_launcher.py:98-103 | a listener has exactly name `mixed` plus the tag, type `mixed`, the port and the proxy name |
| Lifecycle.Bumped | submanager/sub_checker.py:71-75 | a missing counter becomes 1, an integer one goes up by one, and it succeeds exactly for an integer or boolean counter: a string, list or mapping raises, and a float is treated as raising (see Left out) |
| Lifecycle.Probed | submanager/sub_checker.py:69-78 | a success bumps `success_count` and resets `fail_count`, and the record is kept; a failure bumps `fail_count`, and the record is deleted exactly when it reaches the threshold |
| Lifecycle.Stamped | submanager/sub_checker.py:88 | only `last_check_time` is set |
| Lifecycle.KeptBelowThreshold | submanager/sub_checker.py:75-80 | a record the checker keeps is below the threshold |
| Lifecycle.StoreKeptBelowThreshold | submanager/sub_checker.py:76-89 | storing a kept record keeps every stored record below the threshold |
| Lifecycle.ProxyDictKeysMatch | submanager/sub_checker.py:53 | each record of the dictionary sits under its own `server:port` key |
| Lifecycle.BookkeepingKeepsKey | submanager/sub_checker.py:87 | writing a counter keeps a record's key, and the key `update_proxy` renders is the one it was looked up by |
| Lifecycle.ProbedKeepsKey | submanager/sub_checker.py:66-89 | a probed and stamped record keeps the key it was looked up by |
| Lifecycle.ApplyResult | submanager/sub_checker.py:65-80 | a key missing from the dictionary raises; only that key's record changes, the keys stay matched, and the store is settled as the outcome says |
| Lifecycle.ApplyAll | submanager/sub_checker.py:65-80 | the dictionary keeps its keys and matches them, and the store only gains keys of the dictionary |
| Lifecycle.ApplyAllBelowThreshold | submanager/sub_checker.py:61-80 | a pass over results leaves every stored record below the threshold when it starts so |
| Lifecycle.ApplyAllAppend | submanager/sub_checker.py:65-80 | two batches back to back are their concatenation, and an exception stops the rest |
| Lifecycle.ApplyChunksFlat | submanager/sub_checker.py:61-80 | probing chunk by chunk applies the results as one pass over all of them in order |
| Ping.Successes | proxy_check/ping.py:18-46 | the successes among `n` attempts are at most `n` |
| Ping.Entries | proxy_check/ping.py:33-40 | one entry per attempt: its time on success, 0 on failure |
| Ping.ContinuesBelowTen | proxy_check/ping.py:22 | a loop that has not stopped has made fewer than ten attempts |
| Ping.StopFrom | proxy_check/ping.py:21-23 | from a point the loop has reached, it stops at the first count where three failures or a success and ten tries are reached, and never later than ten |
| Ping.AttemptCount | proxy_check/ping.py:21-41 | the loop makes between 3 and 10 attempts, stops exactly at its exit test and not before |
| Ping.TcpPingResult | proxy_check/ping.py:43-46 | the entries are those of the attempts made; with no success average and ratio are 0, otherwise the ratio is in (0, 1] |
| Ping.SyncTcpPing | proxy_check/ping.py:18-46 | the loop returns the entries of 3 to 10 attempts, stops exactly at the exit test and computes the result of the attempts it made |
| Ping.PingLoop | proxy_check/ping.py:21-41 | the `while True` loop makes exactly `AttemptCount` attempts, and its counters, summed time and entries are those of the attempts made |
| Ping.PingTask | proxy_check/ping.py:49-109 | one task (`tcp_ping_task`, or `google_ping_task` of the same shape) counts exactly one success, when it connected, or one failure, and appends its time or 0 |
| Ping.Summed | proxy_check/ping.py:120-124 | successes and failures together are the number of tasks done |
| Ping.Aggregate | proxy_check/ping.py:112-125 | one entry per task done; no success gives zeros, otherwise the ratio is successes over tasks done and lies in (0, 1] |
| Ping.SummedCountsConnected | proxy_check/ping.py:120-124 | the summed successes are exactly the tasks that connected |
| ProxyChecker.NextFree | proxy_check/proxy_checker.py:154-155 | the port found is at or after the start, within range and free |
| ProxyChecker.NextFreeSkips | proxy_check/proxy_checker.py:154-155 | every port passed over is busy, up to the one found or to the end of the range |
| ProxyChecker.Allocation | proxy_check/proxy_checker.py:151-158 | an allocation gives one port per proxy |
| ProxyChecker.AllocationFree | proxy_check/proxy_checker.py:151-158 | the ports are free, in range and strictly increasing, and every port skipped before or between them is busy |
| ProxyChecker.AllocationSplit | proxy_check/proxy_checker.py:151-158 | allocating more ports continues the search just after the last one allocated |
| ProxyChecker.AllocationFails | proxy_check/proxy_checker.py:154-155 | once the search for a proxy's port fails, every longer allocation fails |
| ProxyChecker.AllocatePorts | proxy_check/proxy_checker.py:151-158 | the loop raises exactly when the allocation fails; otherwise it assigns the allocation, and when it raises the earlier proxies keep the ports they got |
| ProxyChecker.AllocationStops | proxy_check/proxy_checker.py:153-157 | a failing search for one proxy fails the whole allocation |
| ProxyChecker.WithLocalPorts | proxy_check/proxy_checker.py:156 | each proxy gets its port as `local_port` and nothing else changes |
| ProxyChecker.AllocatedListeners | proxy_check/proxy_checker.py:116-131 | after allocation, one listener per proxy on its port and named after it exactly when every proxy has a name, and no two listeners share a port |
| ProxyChecker.Retry | proxy_check/proxy_checker.py:141-147 | one to four tries; it succeeds exactly when some try succeeds, stopping at the first, and otherwise uses all four |
| ProxyChecker.TestUrl | proxy_check/proxy_checker.py:226-229 | a name containing `中国` gets the domestic site, any other string name the foreign one, and a missing name raises; `start_test` does not call it |
| ProxyChecker.StartTest | proxy_check/proxy_checker.py:231-240 | it raises exactly when `server`, `port` or a numeric `local_port` is missing; the record has exactly those three fields, copied, and the verdict |
| ProxyChecker.StartTestFeedsSubChecker | proxy_check/proxy_checker.py:231-240 | the record reads back in the sub-checker as the probed proxy's own `server:port` key with the probe's verdict |
| MihomoConfig.ListenersFor | submanager/mihomo_launcher.py:92-107 | the listeners exist exactly when every proxy has a name and a renderable port; one per proxy, named after and bound to its `local_port` |
| MihomoConfig.WithPorts | submanager/mihomo_launcher.py:126-128 | proxy `j` gets `local_port` base plus `j`, nothing else |
| MihomoConfig.WithPortsAppend | submanager/mihomo_launcher.py:123-128 | numbering two lists one after the other numbers their concatenation |
| MihomoConfig.ListenersOfNumbered | submanager/mihomo_launcher.py:96-103 | proxies on consecutive ports get listeners on those ports, in the same order |
| MihomoConfig.IndexedListeners | submanager/mihomo_config_generater.py:24-31 | listeners built by position exist exactly when every proxy is named; listener `i` is named by tag base plus `i` on port start plus `i` |
| MihomoConfig.IndexedListenersNumbered | submanager/mihomo_proxy_pool.py:200-212 | numbering by position gives the same listeners as storing ports first and reading them back |
| MihomoConfig.ChunkFiles | submanager/mihomo_launcher.py:123-132 | one file per chunk, holding that chunk, its end port the first port plus its size |
| MihomoConfig.ChunkFilesNumbering | submanager/mihomo_launcher.py:123-132 | across all files the proxies are numbered as one list: chunking does not change a proxy's port |
| MihomoConfig.ChunkFileFirstPort | submanager/mihomo_launcher.py:128-131 | file `c` starts just after the ports of the chunks before it |
| MihomoConfig.ChunkFileListeners | submanager/mihomo_launcher.py:126-130 | with named proxies, each file's listener `j` serves its proxy `j` on the file's first port plus `j` |
| MihomoConfig.ChunkFileProxies | submanager/mihomo_launcher.py:124-128 | the proxies of file `c` are chunk `c` numbered from the file's first port |
| MihomoConfig.Files | submanager/mihomo_launcher.py:114-132 | one file per chunk of `n`, and the proxies of all files are the list numbered from the start port |
| MihomoConfig.FilesNames | submanager/mihomo_launcher.py:123-131 | file `c` starts at port start plus `n * c`, holds 1 to `n` proxies, exactly `n` unless it is the last, and names its end port |
| MihomoConfig.FilesListeners | submanager/mihomo_launcher.py:123-132 | with named proxies, every file serves each of its proxies on its own port |
| MihomoConfigGenerater.GenerateYaml | submanager/mihomo_config_generater.py:3-31 | a document without `proxies` raises; the config keeps the proxies and has one listener per proxy |
| MihomoConfigGenerater.GenerateYamlListeners | submanager/mihomo_config_generater.py:24-31 | listener `i` is `mixed{i}` on port start plus `i`, serving proxy `i`, and it exists exactly when every proxy is named |
| MihomoConfigGenerater.GenerateYamlEmpty | submanager/mihomo_config_generater.py:43-47 | an empty proxy list gives no listeners, and the empty `proxies:` document of the example call raises |
| MihomoConfigGenerater.GenerateYamlAgreesWithPool | submanager/mihomo_config_generater.py:24-31 | the generator and the pool builder put each proxy on the same port under the same name |
| MihomoLauncher.PreProcess | submanager/mihomo_launcher.py:49-78 | it raises exactly when filtering, renaming or keying raises; one copy per healthy proxy, renamed apart from its old name, without bookkeeping keys, and the dictionary keys each copy by its own `server:port` |
| MihomoLauncher.PreProcessDropsFailed | submanager/mihomo_launcher.py:61-65 | the healthy proxies are exactly the stored ones that never failed |
| MihomoLauncher.GenerateConfigs | submanager/mihomo_launcher.py:114-132 | the configs exist exactly when pre-processing succeeds, and together hold the pre-processed proxies numbered from the start port |
| MihomoLauncher.GeneratedFileNames | submanager/mihomo_launcher.py:123-131 | file `c` starts at start plus 50 times `c`, holds 1 to 50 proxies and ends at its last port plus one |
| MihomoLauncher.GeneratedListeners | submanager/mihomo_launcher.py:126-130 | every generated file serves each of its proxies on its own port |
| MihomoLauncher.UpdateProxy | submanager/mihomo_launcher.py:84-87 | it raises exactly when the key cannot be rendered; the stamped proxy is stored under its own key and nothing else changes |
| MihomoProxyPool.GeneratePoolConfig | submanager/mihomo_proxy_pool.py:85-101 | the config exists exactly when every proxy is named; it keeps the proxies, names the file from the start port to start plus count, and listener `i` is `mixed{start + i}` on that port serving proxy `i` |
| MihomoProxyPool.PoolConfigAsNumbered | submanager/mihomo_proxy_pool.py:89-97 | these listeners are the ones read from proxies carrying consecutive ports |
| MihomoProxyPool.Admit | submanager/mihomo_proxy_pool.py:163-180 | an unsupported vless flow is skipped; otherwise it raises exactly when the fix-ups or the fail test raise, and a proxy that never failed is admitted with its fix-ups |
| MihomoProxyPool.Admitted | submanager/mihomo_proxy_pool.py:163-180 | it raises exactly when one proxy does; every admitted proxy comes from the input and every proxy admitted on its own is in the result |
| MihomoProxyPool.AdmittedAreClean | submanager/mihomo_proxy_pool.py:163-180 | every admitted proxy has a supported flow, has never failed and is the fixed-up form of an input proxy |
| MihomoProxyPool.SublinkPreProcess | submanager/mihomo_proxy_pool.py:151-193 | it raises exactly when admission, renaming or keying raises; one named copy per admitted proxy, names distinct, no bookkeeping keys, and the dictionary holds the copies |
| MihomoProxyPool.SublinkConfigs | submanager/mihomo_proxy_pool.py:221-235 | the configs exist exactly when pre-processing succeeds, and together hold the proxies numbered from the start port |
| MihomoProxyPool.SublinkFiles | submanager/mihomo_proxy_pool.py:226-235 | file `c` starts at start plus 100 times `c`, holds 1 to 100 proxies, names its last port, and serves each proxy on its own port |
| MihomoProxyPool.SubscriptionUserInfo | submanager/mihomo_proxy_pool.py:275-284 | a header that does not split into `k=v` items gives `('', '')`; otherwise the result is read from the raw values |
| MihomoProxyPool.UserInfoOf | submanager/mihomo_proxy_pool.py:277-284 | a missing key gives `('', '')`; otherwise the remaining traffic is an integer and the expiry an integer or `''` |
| MihomoProxyPool.UserInfoOfInts | submanager/mihomo_proxy_pool.py:278-281 | integer values give the total minus upload and download, and the expiry |
| MihomoProxyPool.SubscriptionUserInfoOfHeader | submanager/mihomo_proxy_pool.py:275-281 | a header whose four values are integers gives the remaining traffic and the expiry |
| MihomoProxyPool.SubscriptionUserInfoOfRaw | submanager/mihomo_proxy_pool.py:275-281 | a header whose four text values are integer texts gives the total minus upload and download, and the expiry |
| MihomoProxyPool.PyLen | submanager/mihomo_proxy_pool.py:325 | the length of a list is its size; numbers, booleans and `None` have no length |
| MihomoProxyPool.CheckSubAvailable | submanager/mihomo_proxy_pool.py:311-328 | true exactly when the traffic is a number that is zero or at least 1 GiB, the expiry is zero or later than now truncated, and the proxy list is non-empty |
| MihomoProxyPool.CheckSubTrafficDefaults | submanager/mihomo_proxy_pool.py:314-319 | a missing traffic counts as -1 and rejects the subscription; an empty-text traffic raises |
| MihomoProxyPool.CheckSubExpiry | submanager/mihomo_proxy_pool.py:321-323 | with enough traffic and proxies, a non-zero expiry decides: available exactly when it is after now |
| MihomoProxyPool.Blocks | submanager/mihomo_proxy_pool.py:339-356 | the first block starts at the start port and each next block starts where the previous one ends |
| MihomoProxyPool.BlocksDisjoint | submanager/mihomo_proxy_pool.py:339-356 | the port blocks of two pools never overlap |
| MihomoSpeedTest.TestCommand | submanager/mihomo_speedtest.py:36-51 | the input is the config file when there are proxies and the URL otherwise; the command has the five fixed arguments, and `--proxy` and the fetch proxy exactly when there are none |
| MihomoSpeedTest.FilterAvailable | submanager/mihomo_speedtest.py:62-81 | a failed test command gives no names; it raises exactly when an item is not a mapping or a reachable item has no name; the names are exactly those of the items whose delay is not 9999 |
| MihomoSpeedTest.Names | submanager/mihomo_speedtest.py:65-67 | the names are exactly those of the reachable items, no more of them than items |
| MihomoSpeedTest.MissingDelayKept | submanager/mihomo_speedtest.py:66 | an item without `delay` counts as reachable |
| MihomoSpeedTest.KeepAvailable | submanager/subproxy_checker.py:40-45 | it raises exactly when a proxy has no name; it keeps, in order, exactly the proxies whose name was reported available |
| MihomoSpeedTest.KeepAvailableChunks | submanager/subproxy_checker.py:30-48 | the kept proxies are in input order, and every proxy whose chunk reported it available is kept |
| MihomoSpeedTest.FilterAvailableProxies | submanager/subproxy_checker.py:30-48 | the result is an ordered selection of the input proxies, chunk by chunk in input order; the copy in submanager/subscribe_fetcher.py (lines 67-85) behaves the same |
| SubChecker.PreProcess | submanager/sub_checker.py:31-54 | it raises exactly when renaming or keying raises; one copy per proxy, and the dictionary keys the stored proxies by their own `server:port` |
| SubChecker.ItemOutcome | submanager/sub_checker.py:66-69 | a result reads as its `server:port` key and the truth of `valid`, and raises when either is missing |
| SubChecker.TestAndProcess | submanager/sub_checker.py:56-80 | a failed pre-processing stops with an exception and nothing changed; the store only gains keys of the dictionary |
| SubChecker.TestAndProcessBelowThreshold | submanager/sub_checker.py:56-80 | a pass keeps every stored record below ten failures |
| SubChecker.SuccessResets | submanager/sub_checker.py:69-72 | a valid result stores its record with `fail_count` 0 and the new check time |
| SubChecker.FailureDeletesAtThreshold | submanager/sub_checker.py:73-78 | an invalid result deletes its record exactly when the bumped count reaches ten |
| SubChecker.CheckStore | submanager/sub_checker.py:94-96 | a store holding a value that is not JSON raises before anything changes |
| SubCheckerSsrspeed.PreProcess | submanager/sub_checker_ssrspeed.py:33-42 | it raises exactly when keying raises; the copies only lose the bookkeeping keys and the dictionary keys the stored proxies |
| SubCheckerSsrspeed.Alive | submanager/sub_checker_ssrspeed.py:57-59 | alive exactly when both losses are at most 0.5, missing losses counting as 1 |
| SubCheckerSsrspeed.ItemOutcome | submanager/sub_checker_ssrspeed.py:55-69 | a result reads as its key, and counts as a success exactly when it is not alive |
| SubCheckerSsrspeed.AliveCountsAsFailure | submanager/sub_checker_ssrspeed.py:60-65 | an alive proxy has its `fail_count` bumped and is deleted exactly when that reaches three |
| SubCheckerSsrspeed.LostClearsFailures | submanager/sub_checker_ssrspeed.py:66-70 | a lost proxy is stored with `fail_count` 0 |
| SubCheckerSsrspeed.TestAndProcess | submanager/sub_checker_ssrspeed.py:44-70 | a failed pre-processing stops with nothing changed; the store only gains keys of the dictionary |
| SubCheckerSsrspeed.TestAndProcessBelowThreshold | submanager/sub_checker_ssrspeed.py:44-70 | a pass keeps every stored record below three failures |
| SubProxyChecker.LoadProxiesDict | submanager/subproxy_checker.py:21-28 | the keys stay the same; objects stay as they are and a text that is not JSON is kept as text |
| SubProxyChecker.Prepared | submanager/subproxy_checker.py:60-73 | a non-mapping raises; an unsupported vless flow is skipped unchanged; otherwise it raises exactly when the fix-ups raise, and the proxy gains `name` set to its key |
| SubProxyChecker.SupportedKeepsKey | submanager/subproxy_checker.py:73 | a prepared proxy is named after its own key |
| SubProxyChecker.UnsupportedKeepsName | submanager/subproxy_checker.py:62-64 | a skipped proxy keeps its old name |
| SubProxyChecker.PreProcess | submanager/subproxy_checker.py:59-75 | it raises exactly when one entry does; otherwise each entry is prepared in place |
| SubProxyChecker.CheckProxies | submanager/subproxy_checker.py:50-57 | it raises exactly when a proxy has no name; each proxy gains only `valid`, true exactly when its name was reported available |
| SubProxyChecker.Settle | submanager/subproxy_checker.py:90-107 | only the proxy's name key changes; the record is stored, stamped, exactly when the checker keeps it |
| SubProxyChecker.SettleAll | submanager/subproxy_checker.py:90-103 | keys no proxy names keep their values, and the store only gains names of the proxies |
| SubProxyChecker.SettleAllBelowThreshold | submanager/subproxy_checker.py:90-103 | a pass keeps every stored record below three failures |
| SubProxyChecker.ProcessChunksBelowThreshold | submanager/subproxy_checker.py:86-103 | the chunked pass keeps every stored record below three failures |
| SubProxyChecker.SubProxyCheckTask | submanager/subproxy_checker.py:80-103 | a failed pre-processing raises before the store changes |
| SubProxyChecker.TaskBelowThreshold | submanager/subproxy_checker.py:80-103 | the whole task keeps every stored record below three failures |
| XuiSublinkChecker.LinkServerPort | submanager/xui_scan/xui_sublink_checker.py:57-61 | the server and port exist exactly when the parser returns a first node whose config has both, and they are that config's values |
| XuiSublinkChecker.NoAnswerNotAlive | submanager/xui_scan/xui_sublink_checker.py:40-41 | a server that never answers is not alive |
| XuiSublinkChecker.NoneConnected | proxy_check/ping.py:18-46 | attempts that all fail count no success |
| XuiSublinkChecker.ProcessXuiItem | submanager/xui_scan/xui_sublink_checker.py:34-55 | a falsy link leaves the store alone and a non-mapping raises; only the item's own key can change, and it changes only for a parsable link |
| XuiSublinkChecker.ProcessXuiItemOutcome | submanager/xui_scan/xui_sublink_checker.py:43-55 | an alive link is stored with `fail_count` 0 and the new check time; a dead one is deleted exactly when its bumped count reaches three |
| XuiSublinkChecker.Recorded | submanager/xui_scan/xui_sublink_checker.py:43-55 | the update succeeds exactly when the relevant counter can be incremented; only `key` changes; alive gives `fail_count` 0 and the check time, dead deletes exactly at three failures |
| XuiSublinkChecker.CheckAll | submanager/xui_scan/xui_sublink_checker.py:63-67 | keys not visited keep their values and the store gains no other keys |
| SubscribeFetcher.SourceProxies | submanager/subscribe_fetcher.py:103-118 | a kind other than link or base64 contributes nothing; otherwise it raises exactly when one fetch raises, and only the last URL's proxies are kept |
| SubscribeFetcher.LastUrlWins | submanager/subscribe_fetcher.py:107-116 | of several URLs only the last one's proxies count, and the clash kind contributes none |
| SubscribeFetcher.Gather | submanager/subscribe_fetcher.py:102-118 | it raises exactly when a source does; every proxy of every source is collected and nothing else |
| SubscribeFetcher.KeysOf | submanager/subscribe_fetcher.py:121-124 | one `server:port` key per proxy, raising exactly when one cannot be built |
| SubscribeFetcher.RenameFresh | submanager/subscribe_fetcher.py:120-129 | one result per proxy |
| SubscribeFetcher.RenameFreshDefined | submanager/subscribe_fetcher.py:120-129 | it raises exactly when the first proxy of some key has no name |
| SubscribeFetcher.RenameFreshShape | submanager/subscribe_fetcher.py:120-129 | a repeated key leaves its proxy alone; the first proxy of a key changes only its name, to one not taken before that starts with the old name |
| SubscribeFetcher.RenameFreshDistinct | submanager/subscribe_fetcher.py:120-129 | the first proxies of their keys get pairwise distinct names |
| SubscribeFetcher.RenameFreshKeepsDistinct | submanager/subscribe_fetcher.py:94-100 | proxies with distinct fresh keys and distinct untaken names keep them |
| SubscribeFetcher.FetchProxies | submanager/subscribe_fetcher.py:91-131 | the result exists only when gathering and keying succeed, and is the renamed gathered list, of the same length |
| SubscribeFetcher.FetchProxiesNames | submanager/subscribe_fetcher.py:120-131 | repeated `server:port` proxies are returned unchanged, and the first ones of their keys get distinct names |
| SubscribeFetcher.SaveProxies | submanager/subscribe_fetcher.py:62-65 | it raises exactly when some proxy has no string name |
| SubscribeFetcher.SaveProxiesKeys | submanager/subscribe_fetcher.py:62-65 | every name is stored, no other key is added, and keys no proxy names keep their values |
| SubscribeFetcher.SaveProxiesLastWins | submanager/subscribe_fetcher.py:62-65 | a name is stored and maps to the last proxy carrying it |
| SubscribeFetcher.FetchProxyTask | submanager/subscribe_fetcher.py:133-136 | the stored proxies are those the speed tester kept, in fetch order |
| SubMerger.CleanLines | submanager/sub_merger.py:131-132 | the kept lines are the non-blank lines, stripped, in order |
| SubMerger.Iterated | submanager/sub_merger.py:142 | a list extends with its items; numbers, booleans and `None` raise |
| SubMerger.ReadSubscription | submanager/sub_merger.py:122-145 | it raises exactly when the fetch does; base64 text adds its cleaned lines to the links, anything else can only add clash proxies |
| SubMerger.ClashProxies | submanager/sub_merger.py:139-145 | the links are untouched and the clash list only grows; a loaded mapping whose `proxies` iterates appends those items, and anything else changes nothing |
| SubMerger.ReadClashDocument | submanager/sub_merger.py:139-142 | a clash document's proxies are appended to the clash list |
| SubMerger.ReadAll | submanager/sub_merger.py:193-199 | reading only appends to the links and to the clash proxies |
| SubMerger.ReadAllAppend | submanager/sub_merger.py:194-199 | reading two URL lists one after the other is reading their concatenation |
| SubMerger.FailedSubscriptionSkipped | submanager/sub_merger.py:195-199 | a subscription whose fetch raises changes nothing |
| SubMerger.ProxyName | submanager/sub_merger.py:150 | the name is read exactly when the proxy is a mapping with a string `name` |
| SubMerger.FilterProxies | submanager/sub_merger.py:147-153 | it raises exactly when a name is missing; it keeps exactly the proxies whose name is not an advertisement, in order |
| SubMerger.MergedName | submanager/sub_merger.py:168 | the name is the country and `-` unless it is unknown, then the server, `-` and the port |
| SubMerger.Renamed | submanager/sub_merger.py:164-168 | the proxy's only change is its new name |
| SubMerger.RenamedAll | submanager/sub_merger.py:164-168 | every converted proxy is renamed, in order |
| SubMerger.MergeProxies | submanager/sub_merger.py:155-171 | the merged list is the clash proxies followed by the renamed converted ones, without advertisements |
| SubMerger.MergedProxyKept | submanager/sub_merger.py:164-171 | a converted proxy survives exactly when its new name is not an advertisement |
| SubMerger.SaveProxyToDb | submanager/sub_merger.py:182-191 | it raises exactly when a key cannot be built; every stored key keeps its value and every proxy's key ends up stored |
| SubMerger.SaveProxyNewKeys | submanager/sub_merger.py:182-191 | every new key is some proxy's key |
| SubMerger.SaveProxyFirstWins | submanager/sub_merger.py:186-191 | a new key holds the first proxy carrying it |
| SubMerger.Run | submanager/sub_merger.py:193-202 | the run stores the merged proxies of all readable subscriptions and never overwrites a stored key |
| TempAirport.ReclassifyOne | subscribe/scripts/tempairport.py:174-190 | with `retry`, an unknown airport that is enabled leaves the unknown table and nothing else there changes; one with a subscription becomes usable, one without is queued for registration; a disabled or empty entry is left alone; it raises exactly when a truthy entry is not a mapping |
| TempAirport.Reclassify | subscribe/scripts/tempairport.py:174-190 | the loop over the unknown airports keeps the tables consistent |
| TempAirport.Candidates | subscribe/scripts/tempairport.py:192-197 | the probed pairs are exactly the keys and `sub` values of the enabled, non-empty usable entries; it raises exactly when a truthy entry is not a mapping |
| TempAirport.Recheck | subscribe/scripts/tempairport.py:202-206 | rechecking leaves the unknown table alone and only appends to the queue of airports to register (which airports leave the table and are queued: `RecheckDrops`, `RecheckQueues`) |
| TempAirport.RecheckDrops | subscribe/scripts/tempairport.py:202-206 | with distinct probed domains, the loop raises exactly when a failed airport's entry is not a mapping; otherwise exactly the domains whose subscription failed the probe leave the usable table, and every other entry keeps its value |
| TempAirport.RecheckQueues | subscribe/scripts/tempairport.py:202-206 | with distinct probed domains and mapping entries, every failed airport is appended to the queue as `[domain, type, coupon]` read from its entry, and nothing else is appended |
| TempAirport.CandidatesDistinct | subscribe/scripts/tempairport.py:192-197 | the probed domains are pairwise distinct and each names a mapping entry of the usable table |
| TempAirport.DedupKeepsTask | subscribe/scripts/tempairport.py:206-211 | a failed airport's task, appended by the recheck, is still queued after de-duplication |
| TempAirport.LoadRechecks | subscribe/scripts/tempairport.py:154-213 | after the unknown airports are reclassified, `load` removes from the usable table exactly the airports whose subscription failed the probe and keeps every other entry; each failed airport is queued as `[domain, type, coupon]` from its entry, every queued task names a domain queued by the reclassification or a failed airport, and the unknown table and the raw document come back as they were |
| TempAirport.RecheckAllAvailable | subscribe/scripts/tempairport.py:202-206 | when every probed subscription is available, nothing changes |
| TempAirport.DedupTable | subscribe/scripts/tempairport.py:210 | the table holds each domain once |
| TempAirport.DedupTableCovers | subscribe/scripts/tempairport.py:210 | every queued domain has an entry |
| TempAirport.DedupTableLastWins | subscribe/scripts/tempairport.py:210 | a domain's entry is the type and coupon of its last task |
| TempAirport.DedupTableSize | subscribe/scripts/tempairport.py:210 | the table is no larger than the queue |
| TempAirport.Dedup | subscribe/scripts/tempairport.py:209-211 | the deduplicated queue names each domain once, as three-field tasks |
| TempAirport.DedupLastWins | subscribe/scripts/tempairport.py:209-211 | a domain's last task survives deduplication and the queue never grows |
| TempAirport.QueuedFrom | subscribe/scripts/tempairport.py:166-206 | every task in the queue after the recheck names a domain queued before it or one whose subscription failed the probe |
| TempAirport.DedupTableFrom | subscribe/scripts/tempairport.py:210 | every domain in the de-duplication table is the domain of some task |
| TempAirport.DedupFrom | subscribe/scripts/tempairport.py:209-211 | de-duplication only keeps domains that some task named |
| TempAirport.Load | subscribe/scripts/tempairport.py:154-215 | a failed load yields empty tables and an empty document; otherwise the raw document is returned as read, and the tables stay consistent (which airports are removed and queued: `LoadRechecks`) |
| TempAirport.LoadAllAvailable | subscribe/scripts/tempairport.py:154-213 | without `retry` and with every usable subscription available, the persisted tables come back unchanged and nothing is queued |
| TempAirport.Threshold | subscribe/scripts/tempairport.py:81 | the threshold is at least 1 and at least the given value, equal to it when it is already at least 1; it raises exactly when the value is not a number |
| TempAirport.Inc | subscribe/scripts/tempairport.py:110 | an integer defeat count goes up by one; the addition raises exactly when the count is not a number |
| TempAirport.RegisterOne | subscribe/scripts/tempairport.py:93-124 | a failed registration bumps the defeat count and stores the task as unknown, disabling it past the threshold; a successful one stores the credentials with a zero count as usable; nothing else changes, and it raises exactly when the task is not a mapping or its count not a number |
| TempAirport.DefeatRule | subscribe/scripts/tempairport.py:110-114 | an airport failing with `n` defeats is stored with `n + 1`, disabled exactly when `n + 1` exceeds the threshold, and otherwise keeps its `enable` flag |
| TempAirport.RegisterAll | subscribe/scripts/tempairport.py:91-124 | registering keeps the tables consistent and does not touch the queue |
| TempAirport.UniqueValues | subscribe/scripts/tempairport.py:146 | each `push_to` value appears once and exactly the original values appear |
| TempAirport.PushTargets | subscribe/scripts/tempairport.py:146 | a list of hashable values is collected as is; a list holding a list or mapping raises |
| TempAirport.ResultItem | subscribe/scripts/tempairport.py:135-148 | a disabled entry is skipped, a non-mapping entry raises, and every item built is saved, carries `sub` and a duplicate-free `push_to` list |
| TempAirport.ResultItemFromTemplate | subscribe/scripts/tempairport.py:139-148 | an entry without its own `config` gets the template's name, fields and push targets and its own `sub` |
| TempAirport.ResultItems | subscribe/scripts/tempairport.py:134-148 | there are no more results than entries, every result is saved, and every item built is among them; the loop raises exactly when one entry does |
| TempAirport.FetchSub | subscribe/scripts/tempairport.py:73-151 | missing or non-mapping parameters give no results, a non-numeric threshold raises, missing `persist` or `push_to` gives no results; the tables are persisted exactly when some airport needed registering, and otherwise the results are built from the usable airports |
| XuiScan.TotalDelayPositive | submanager/xui_scan/xui_scan.py:69-96 | the summed connection time is positive exactly when some attempt connected after a positive time |
| XuiScan.AliveIffConnected | submanager/xui_scan/xui_scan.py:261-264 | a port is alive exactly when one of the ping's attempts connected after a positive time, and then the ping counted a success |
| XuiScan.SuccessesPositive | submanager/xui_scan/xui_scan.py:93-96 | a connected attempt makes the success count positive |
| XuiScan.Remark | submanager/xui_scan/xui_scan.py:284-290 | the remark is `{country}-{address}` when the lookup succeeds, else the inbound's remark, defaulting to the address |
| XuiScan.FirstLinkIsFirst | submanager/xui_scan/xui_scan.py:272-296 | the chosen link is the one built for the first qualifying inbound with a non-empty link; every inbound before it is skipped or yields an empty link |
| XuiScan.AllPassedGivesEmpty | submanager/xui_scan/xui_scan.py:272-296 | when every inbound is skipped or yields an empty link, the panel contributes `""` |
| XuiScan.GenerateSubscriptionLinks | submanager/xui_scan/xui_scan.py:266-296 | an empty response or one without `success` gives `""`; a non-empty link needs a successful response with a list of inbounds |
| XuiScan.UnqualifiedNotProbed | submanager/xui_scan/xui_scan.py:272-282 | disabled inbounds and those of other protocols are never probed: what their ports answer does not change the result |

## Left out

- Network I/O: HTTP fetches, socket connections, DNS, GeoIP and IP-risk lookups are parameters (attempt outcomes, fetched documents, lookup functions); their own behaviour is not modelled.
- The Redis client: a hash is a map holding the Python object, so the `isinstance(item, str)` filter in `get_all` (proxy_db/redis_client.py:84) has nothing to drop; connection errors are not modelled.
- Processes and containers: subprocess calls, docker start and stop, the mihomo runtime and `MihomoSpeedTest.run_test` are left out; a test run is given as its report (`None` for a failed command).
- Concurrency: asyncio tasks, thread pools and `multi_thread_run` are left out; results are taken in task order, and the shared progress counter of the proxy checker is not modelled.
- Floating point: averages, loss ratios and thresholds are Dafny reals, so rounding is not modelled; neither is the `.2f` rendering of byte counts.
- Time: `time.time()` and `datetime.now().strftime(...)` are given as a timestamp string or left out; date formatting of expiry times is not modelled.
- YAML and JSON dumping, file writes, directory clean-up and the docker-compose file are left out; the models produce the documents that would be dumped.
- Rendering of composite and float Python values inside f-strings and `str()` gives `None` in the model (`PyValue.Render`); only strings, integers, booleans and `None` are rendered.
- Python comparisons between lists, or between values of unrelated types, are treated as raising.
- Partial updates before an exception: when a loop raises half way, the model reports the exception (`None`) and drops the updates already applied to the store or the mutable record.
- Aliasing: the source mutates the same dictionary through `proxy_dict` and the stored record, and `tempairport` mutates the task it read from the raw document; the model copies values, so these shared mutations are not modelled beyond the values they produce.
- The fixed DNS section and the closing message of `generate_yaml_file` (submanager/mihomo_config_generater.py) are not modelled.
- `save_clash_subscription` (submanager/subscribe_fetcher.py:87-89) downloads a fixed subscription through the subscription pool; it is not modelled, and the clash source kind contributes no proxies.
- The traffic-report file that ssrspeed/parser/parser.py writes while reading a subscription is not modelled.
- The ssrspeed checker's inverted branch (submanager/sub_checker_ssrspeed.py:60-70) is modelled as written: an alive proxy gets its failure counter bumped.
- tools/xray.py is not part of this model: `Inbound.genLink` is the `genLink` parameter of `XuiScan`.
- subscribe/utils.py is not part of this model: `isblank` and `extract_domain` are the fields of `TempAirport.Utils`, the downloaded document is the `doc` parameter, and registration and the availability probe are parameters too.
- The per-format ssrspeed sub-parsers (`ParserShadowsocksBasic`, `ParserV2RayVmess`, `ClashParser`, …) are not part of this model; they are parameters of `SsrParser`.
- `genSSLink`'s reference to the undefined `isSS2022`/`isSSMultiUser` is not modelled.
- `load_authentication` (submanager/mihomo_proxy_pool.py:65-69) adds an `authentication` entry from environment variables; it and the fixed sections of the mihomo config are not modelled, only its listeners and proxies.
- The `flow` rewrite of a skipped vless proxy (submanager/mihomo_proxy_pool.py:165-168) is not modelled: the model skips the proxy and leaves the input list alone.
- TempAirport.UniqueValues: `list(set(...))` has an unspecified order; the model keeps first occurrences in order, and the contracts state only that each value appears once and the same values appear.
- TempAirport.PushTargets: Python hashes `1`, `1.0` and `True` alike; the model compares values structurally, so such values are not merged, and a mapping given as `push_to` is treated as raising.
- TempAirport.ResultItem: the contract states that `name` is present only when the blank test rejects `""`; the domain-derived name comes from `extract_domain`, which is an oracle.
- TempAirport.Load: a table that is not a mapping, and `update` called with a list of pairs, are treated as raising.
- Convert.ParseHysteria: the contract names only the kind of proxy built; its field values are stated by `Convert.HysteriaSpeeds`.
- GenLink.JoinOf: `str.join` over a non-empty mapping joins its keys in insertion order; records keep no order, so that case is treated as raising.
- GenLink.GenVlessLink: the query is the parameter mapping; the order `urlencode` writes it in, the text of `None` and list values under `doseq=True`, a query parsed out of an id or address holding `?`, and `urlunparse` itself are not modelled.
- GenLink.GenTrojanLink: the query is the parameter mapping, with the same omissions as `GenLink.GenVlessLink`.
- GenLink.GenVmessLink: `json.dumps(obj, indent=2)` is the `jsonDumps` oracle applied to the record, so the key order and layout of the JSON text are not stated.
- GenLink: an inbound's `settings` and `streamSettings` are given as parsed records; text that is not JSON, or a JSON value that is not an object, is not modelled.
- Pool.NameOf: `get_new_name` keeps a non-string name such as a YAML `name: 123` (and renames a clash through its f-string text); names are strings in the model, so such a proxy is treated as raising.
- Lifecycle.Bumped: Python bumps a float counter (`1.0` becomes `2.0`) and compares it with the threshold; counters are integers in the model, so a float counter is treated as raising.
- Convert.VmessJson: `unique_name` accepts any hashable truthy `ps`, so a number or `true` becomes the proxy name and a counter key; names and counters are strings in the model, so such a `ps` is treated as raising, as a list or mapping `ps` does raise (unhashable).
- Character classes are ASCII. `str.strip`, `str.split` and `str.isspace` also treat the Unicode spaces (`\x1c`-`\x1f`, `\x85`, `\xa0`, …) as whitespace, and `str.lower` folds non-ASCII letters; the model does neither. This touches XuiSuccessToDb.SiteUrl, SubMerger.CleanLines, XuiTools.Trim, XuiDb.LinksOf, the header-name match of GenLink.GetHeader and the digit runs of LinkUtil.PortNumbers (see its own line).
- Strings.PyIntOfStr: `int` also accepts single underscores between digits (`int('1_000') == 1000`), reads non-ASCII decimal digits (`int('١٢') == 12`) and strips Unicode spaces; the model reads optionally signed ASCII digits only, so such text raises in the model. This reaches `UserInfo.Header` and `MihomoProxyPool.UserInfoOf`.
- LinkUtil.PortNumbers: `re.findall(r'\d+')` also matches runs of non-ASCII decimal digits and `int` reads them; the model's digits are ASCII, so such a run contributes no number.
- XuiSuccessToDb.StoreRun: each stored entry is its key and the IP found; the `country`, `ip_type` and `ip_risk_score` fields come from the GeoIP and risk lookups and are not modelled, and neither is the read of `data/success.txt`.
- XuiSuccessToDb.FindQuad: Python's `\d` also matches non-ASCII decimal digits; the model's digits are ASCII, so a line whose only dotted quad uses such digits stops the run in the model but not in the program.
- Ipv4.IsValidIpv4: `str.isdigit` also accepts non-ASCII digits. Decimal ones such as `١` fail the `str(int(part))` round trip and are rejected as in the model. A superscript such as `²` makes `int` raise, where the model answers `False`.
