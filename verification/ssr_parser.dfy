/** ssrspeed/parser/parser.py: the universal parser that turns share links,
    subscriptions and web configurations into typed nodes. The per-format
    sub-parsers (`ParserShadowsocksBasic`, `ParserV2RayVmess`, `ClashParser`, …)
    are not part of this model: they are given as functions, and what is
    modelled is the dispatch, fallback order and format detection around them. */
module SsrParser {
  import opened Wrappers
  import opened Strings
  import opened PyValue
  import opened UserInfo

  /** What a sub-parser call does: return a configuration (possibly falsy),
      raise `ValueError`, or raise something else. */
  datatype Outcome = Returned(v: Value) | ValueErr | OtherErr

  /** A computation that may raise; `valueError` tells whether it was a `ValueError`. */
  datatype Res<T> = Ok(value: T) | Err(valueError: bool)

  datatype NodeKind = Shadowsocks | ShadowsocksR | Vless | Vmess | Trojan | Hysteria | Hysteria2

  /** `NodeShadowsocks(cfg)`, `NodeVmess(cfg)`, … */
  datatype Node = Node(kind: NodeKind, cfg: Value)

  datatype SubParsers = SubParsers(
    ssBasic: string -> Outcome,
    ssSip002: string -> Outcome,
    ssr: string -> Outcome,
    vless: string -> Outcome,
    vmessV2rayN: string -> Outcome,
    vmessQuantumult: string -> Outcome,
    trojan: string -> Outcome,
    hysteria: string -> Outcome,
    hysteria2: string -> Outcome,
    /** `V2RayBaseConfigs.generate_config(cfg, LOCAL_ADDRESS, LOCAL_PORT)`. */
    generate: Value -> Value,
    /** `b64plus.decode(s).decode('utf-8')`; `None` when it raises `ValueError`. */
    b64plus: string -> Option<string>,
    /** `ParserShadowsocksD.parse_subs_config`. */
    ssd: string -> seq<Value>,
    /** `ClashParser.parse_config(...).config_list` as `(type, config)` pairs. */
    clash: string -> seq<(string, Value)>,
    /** The body a subscription URL serves. */
    fetch: string -> string)

  // ---------------------------------------------------------------------
  // parse_links
  // ---------------------------------------------------------------------

  /** The prefixes `parse_links` recognises, in the order it tests them. */
  const Prefixes: seq<string> := ["ss://", "ssr://", "vless://", "vmess://", "trojan://", "hysteria://", "hysteria2://"]

  /** A node when the configuration is truthy. */
  function NodeIf(kind: NodeKind, cfg: Value): Option<Node> {
    if Truthy(cfg) then Some(Node(kind, cfg)) else None
  }

  /** Shadowsocks: the Basic parser, and SIP002 only when Basic raised `ValueError`.
      Anything SIP002 raises propagates. */
  function ParseSs(sp: SubParsers, link: string): Res<Option<Node>> {
    match sp.ssBasic(link)
    case Returned(v) => Ok(NodeIf(Shadowsocks, v))
    case OtherErr => Err(false)
    case ValueErr =>
      match sp.ssSip002(link)
      case Returned(v) => Ok(NodeIf(Shadowsocks, v))
      case ValueErr => Err(true)
      case OtherErr => Err(false)
  }

  /** A parser whose exceptions all propagate (ssr, vless). */
  function ParsePlain(o: Outcome, kind: NodeKind, generate: Value -> Value, viaGenerate: bool): Res<Option<Node>> {
    match o
    case Returned(v) =>
      Ok(if Truthy(v) then Some(Node(kind, if viaGenerate then generate(v) else v)) else None)
    case ValueErr => Err(true)
    case OtherErr => Err(false)
  }

  /** A parser whose `ValueError` is suppressed (trojan, hysteria, hysteria2).
      After a suppressed `ValueError` the branch tests the `cfg` local as the
      earlier links left it (`None` when it is still unbound): a truthy
      earlier configuration becomes this link's node, and an unbound `cfg`
      raises `UnboundLocalError`, which is not a `ValueError`. */
  function ParseSuppressed(o: Outcome, kind: NodeKind, cfg: Option<Value>): Res<Option<Node>> {
    match o
    case Returned(v) => Ok(NodeIf(kind, v))
    case ValueErr => if cfg.None? then Err(false) else Ok(NodeIf(kind, cfg.value))
    case OtherErr => Err(false)
  }

  /** Vmess: V2RayN first with `ValueError` suppressed; Quantumult only when
      that produced nothing truthy, again with `ValueError` suppressed. */
  function ParseVmess(sp: SubParsers, link: string): Res<Option<Node>> {
    var first: Res<Value> :=
      match sp.vmessV2rayN(link)
      case Returned(v) => Ok(v)
      case ValueErr => Ok(Null)
      case OtherErr => Err(false);
    if first.Err? then Err(false)
    else if Truthy(first.value) then Ok(Some(Node(Vmess, sp.generate(first.value))))
    else
      match sp.vmessQuantumult(link)
      case Returned(v) => Ok(if Truthy(v) then Some(Node(Vmess, sp.generate(v))) else None)
      case ValueErr => Ok(None)
      case OtherErr => Err(false)
  }

  /** One iteration of the `parse_links` loop, on a link already cleaned of
      `\r`, with `cfg` the binding the earlier iterations left. */
  function ParseLink(sp: SubParsers, cfg: Option<Value>, link: string): Res<Option<Node>> {
    if StartsWith(link, "ss://") then ParseSs(sp, link)
    else if StartsWith(link, "ssr://") then ParsePlain(sp.ssr(link), ShadowsocksR, sp.generate, false)
    else if StartsWith(link, "vless://") then ParsePlain(sp.vless(link), Vless, sp.generate, true)
    else if StartsWith(link, "vmess://") then ParseVmess(sp, link)
    else if StartsWith(link, "trojan://") then ParseSuppressed(sp.trojan(link), Trojan, cfg)
    else if StartsWith(link, "hysteria://") then ParseSuppressed(sp.hysteria(link), Hysteria, cfg)
    else if StartsWith(link, "hysteria2://") then ParseSuppressed(sp.hysteria2(link), Hysteria2, cfg)
    else Ok(None)
  }

  /** What a parser returned, or `d` when it raised. */
  function ReturnedOr(o: Outcome, d: Value): Value {
    if o.Returned? then o.v else d
  }

  /** The `cfg` local after an iteration that raised nothing. The ss and
      vmess branches first reset it to `None`; every branch then binds what
      its parser returned, except that a suppressed `ValueError` leaves the
      binding as it was, and so does an unsupported link. */
  function CfgAfter(sp: SubParsers, cfg: Option<Value>, link: string): Option<Value> {
    if StartsWith(link, "ss://") then Some(ReturnedOr(sp.ssBasic(link), ReturnedOr(sp.ssSip002(link), Null)))
    else if StartsWith(link, "ssr://") then Some(ReturnedOr(sp.ssr(link), Null))
    else if StartsWith(link, "vless://") then Some(ReturnedOr(sp.vless(link), Null))
    else if StartsWith(link, "vmess://") then
      var first := ReturnedOr(sp.vmessV2rayN(link), Null);
      Some(if Truthy(first) then first else ReturnedOr(sp.vmessQuantumult(link), first))
    else if StartsWith(link, "trojan://") then (if sp.trojan(link).Returned? then Some(sp.trojan(link).v) else cfg)
    else if StartsWith(link, "hysteria://") then (if sp.hysteria(link).Returned? then Some(sp.hysteria(link).v) else cfg)
    else if StartsWith(link, "hysteria2://") then (if sp.hysteria2(link).Returned? then Some(sp.hysteria2(link).v) else cfg)
    else cfg
  }

  /** One iteration on a raw link: `\r` is removed and an empty link is
      skipped; otherwise the node it yields and the binding it leaves. */
  function Step(sp: SubParsers, cfg: Option<Value>, raw: string): Res<(Option<Node>, Option<Value>)> {
    var link := RemoveChar(raw, '\r');
    if link == "" then Ok((None, cfg))
    else
      match ParseLink(sp, cfg, link)
      case Err(ve) => Err(ve)
      case Ok(node) => Ok((node, CfgAfter(sp, cfg, link)))
  }

  /** `Step` as the loop's step function. */
  function Stepper(sp: SubParsers): (Option<Value>, string) -> Res<(Option<Node>, Option<Value>)> {
    (cfg: Option<Value>, raw: string) => Step(sp, cfg, raw)
  }

  /** The nodes `x` followed by those of a loop result, which keeps its
      exception or its final binding. */
  function Preceded(x: seq<Node>, r: Res<(seq<Node>, Option<Value>)>): Res<(seq<Node>, Option<Value>)> {
    if r.Err? then r else Ok((x + r.value.0, r.value.1))
  }

  /** A loop that threads one binding through `step`: the nodes in input
      order and the final binding, or the first exception. */
  function Loop(step: (Option<Value>, string) -> Res<(Option<Node>, Option<Value>)>, cfg: Option<Value>, links: seq<string>): (r: Res<(seq<Node>, Option<Value>)>)
    ensures r.Ok? ==> |r.value.0| <= |links|
    decreases |links|
  {
    if |links| == 0 then Ok(([], cfg))
    else
      match step(cfg, links[0])
      case Err(ve) => Err(ve)
      case Ok((node, next)) => Preceded(if node.Some? then [node.value] else [], Loop(step, next, links[1..]))
  }

  /** Preceding by `x` and then by `y` is preceding by `y + x`. */
  lemma PrecededTwice(y: seq<Node>, x: seq<Node>, r: Res<(seq<Node>, Option<Value>)>)
    ensures Preceded(y, Preceded(x, r)) == Preceded(y + x, r)
  {
    if r.Ok? {
      assert y + (x + r.value.0) == (y + x) + r.value.0;
    }
  }

  /** One unfolding of the loop over a non-empty sequence whose first step
      raises nothing. */
  lemma LoopCons(step: (Option<Value>, string) -> Res<(Option<Node>, Option<Value>)>,
                 cfg: Option<Value>, links: seq<string>)
    requires |links| > 0 && step(cfg, links[0]).Ok?
    ensures (var (node, next) := step(cfg, links[0]).value;
             Loop(step, cfg, links) == Preceded(if node.Some? then [node.value] else [], Loop(step, next, links[1..])))
  {
  }

  /** The loop over a concatenation, when the first part raises nothing. */
  lemma {:induction false} LoopAppend(step: (Option<Value>, string) -> Res<(Option<Node>, Option<Value>)>,
                                      cfg: Option<Value>, a: seq<string>, b: seq<string>)
    requires Loop(step, cfg, a).Ok?
    ensures Loop(step, cfg, a + b) == Preceded(Loop(step, cfg, a).value.0, Loop(step, Loop(step, cfg, a).value.1, b))
    decreases |a|
  {
    if |a| == 0 {
      assert a + b == b;
      var r := Loop(step, cfg, b);
      assert r.Ok? ==> [] + r.value.0 == r.value.0;
    } else {
      var ab := a + b;
      assert ab[0] == a[0];
      assert ab[1..] == a[1..] + b;
      var (node, next) := step(cfg, a[0]).value;
      var x := if node.Some? then [node.value] else [];
      LoopCons(step, cfg, a);
      LoopCons(step, cfg, ab);
      LoopAppend(step, next, a[1..], b);
      var rest := Loop(step, next, a[1..]).value;
      PrecededTwice(x, rest.0, Loop(step, rest.1, b));
    }
  }

  /** An exception in the first part of a concatenation is the result. */
  lemma {:induction false} LoopAppendErr(step: (Option<Value>, string) -> Res<(Option<Node>, Option<Value>)>,
                                         cfg: Option<Value>, a: seq<string>, b: seq<string>)
    requires Loop(step, cfg, a).Err?
    ensures Loop(step, cfg, a + b) == Loop(step, cfg, a)
    decreases |a|
  {
    assert (a + b)[0] == a[0];
    assert (a + b)[1..] == a[1..] + b;
    if step(cfg, a[0]).Ok? {
      LoopAppendErr(step, step(cfg, a[0]).value.1, a[1..], b);
    }
  }

  /** The `parse_links` loop from a given `cfg` binding: the nodes in input
      order and the final binding; the first exception aborts the loop. */
  function ParseLinksFrom(sp: SubParsers, cfg: Option<Value>, links: seq<string>): (r: Res<(seq<Node>, Option<Value>)>)
    ensures r.Ok? ==> |r.value.0| <= |links|
  {
    Loop(Stepper(sp), cfg, links)
  }

  /** `parse_links(links)`: every call starts with `cfg` unbound. */
  function ParseLinks(sp: SubParsers, links: seq<string>): (r: Res<seq<Node>>)
    ensures r.Ok? ==> |r.value| <= |links|
  {
    match ParseLinksFrom(sp, None, links)
    case Ok((nodes, _)) => Ok(nodes)
    case Err(ve) => Err(ve)
  }

  /** A link that is empty once `\r` is removed contributes nothing and
      leaves `cfg` alone. */
  lemma ParseLinksSkipsEmpty(sp: SubParsers, cfg: Option<Value>, link: string, links: seq<string>)
    requires RemoveChar(link, '\r') == ""
    ensures ParseLinksFrom(sp, cfg, [link] + links) == ParseLinksFrom(sp, cfg, links)
  {
    assert ([link] + links)[0] == link && ([link] + links)[1..] == links;
    var r := Loop(Stepper(sp), cfg, links);
    assert r.Ok? ==> [] + r.value.0 == r.value.0;
  }

  /** The loop over a concatenation is the loop over the first part followed
      by the loop over the second from the binding the first part left. */
  lemma ParseLinksAppend(sp: SubParsers, cfg: Option<Value>, a: seq<string>, b: seq<string>)
    requires ParseLinksFrom(sp, cfg, a).Ok?
    ensures (ParseLinksFrom(sp, cfg, a + b) ==
      Preceded(ParseLinksFrom(sp, cfg, a).value.0, ParseLinksFrom(sp, ParseLinksFrom(sp, cfg, a).value.1, b)))
  {
    LoopAppend(Stepper(sp), cfg, a, b);
  }

  /** An exception in the first part of a concatenation is the result of
      the whole loop. */
  lemma ParseLinksAppendErr(sp: SubParsers, cfg: Option<Value>, a: seq<string>, b: seq<string>)
    requires ParseLinksFrom(sp, cfg, a).Err?
    ensures ParseLinksFrom(sp, cfg, a + b) == ParseLinksFrom(sp, cfg, a)
  {
    LoopAppendErr(Stepper(sp), cfg, a, b);
  }

  /** After a suppressed trojan `ValueError` the earlier binding of `cfg`
      decides: an unbound `cfg` raises, a bound one is reused as this link's
      configuration and stays bound. */
  lemma SuppressedReusesCfg(sp: SubParsers, cfg: Option<Value>, link: string)
    requires StartsWith(link, "trojan://") && sp.trojan(link).ValueErr?
    ensures cfg.None? ==> ParseLink(sp, cfg, link) == Err(false)
    ensures cfg.Some? ==> ParseLink(sp, cfg, link) == Ok(NodeIf(Trojan, cfg.value))
    ensures CfgAfter(sp, cfg, link) == cfg
  {
    NotEarlierPrefix(link, 4);
    assert !StartsWith(link, Prefixes[0]) && !StartsWith(link, Prefixes[1]);
    assert !StartsWith(link, Prefixes[2]) && !StartsWith(link, Prefixes[3]);
  }

  /** A shadowsocks link followed by a trojan link whose parser raises
      `ValueError` yields two nodes carrying the shadowsocks configuration;
      the trojan link alone makes `parse_links` raise. */
  lemma StaleTrojanNode(sp: SubParsers, a: string, b: string, v: Value)
    requires StartsWith(a, "ss://") && '\r' !in a && sp.ssBasic(a) == Returned(v) && Truthy(v)
    requires StartsWith(b, "trojan://") && '\r' !in b && sp.trojan(b) == ValueErr
    ensures ParseLinks(sp, [a, b]) == Ok([Node(Shadowsocks, v), Node(Trojan, v)])
    ensures ParseLinks(sp, [b]) == Err(false)
  {
    SuppressedReusesCfg(sp, Some(v), b);
    SuppressedReusesCfg(sp, None, b);
    assert RemoveChar(a, '\r') == a && RemoveChar(b, '\r') == b;
    assert ParseLink(sp, None, a) == Ok(Some(Node(Shadowsocks, v)));
    assert CfgAfter(sp, None, a) == Some(v);
    assert [a, b][0] == a && [a, b][1..] == [b];
    assert [b][0] == b && [b][1..] == [];
    assert |a| > 0 && |b| > 0;
    assert NodeIf(Trojan, v) == Some(Node(Trojan, v));
    assert ParseLinksFrom(sp, Some(v), []) == Ok(([], Some(v)));
    assert [Node(Trojan, v)] + [] == [Node(Trojan, v)];
    assert ParseLinksFrom(sp, Some(v), [b]) == Ok(([Node(Trojan, v)], Some(v)));
    assert [Node(Shadowsocks, v)] + [Node(Trojan, v)] == [Node(Shadowsocks, v), Node(Trojan, v)];
    assert ParseLinksFrom(sp, None, [a, b]) == Ok(([Node(Shadowsocks, v), Node(Trojan, v)], Some(v)));
  }

  /** A link starting with the `i`-th recognised prefix starts with none of
      the earlier ones. */
  lemma NotEarlierPrefix(link: string, i: nat)
    requires i < |Prefixes| && StartsWith(link, Prefixes[i])
    ensures forall j :: 0 <= j < i ==> !StartsWith(link, Prefixes[j])
  {
    forall j | 0 <= j < i
      ensures !StartsWith(link, Prefixes[j])
    {
      PrefixesExclusive(link, j, i);
    }
  }

  /** At most one of the recognised prefixes matches a link, so the
      dispatch does not depend on the order of the tests. */
  lemma PrefixesExclusive(link: string, i: nat, j: nat)
    requires i < j < |Prefixes|
    ensures !(StartsWith(link, Prefixes[i]) && StartsWith(link, Prefixes[j]))
  {
    var k := DifferAt(Prefixes[i], Prefixes[j]);
  }

  /** A position at which two distinct recognised prefixes differ. */
  function DifferAt(p: string, q: string): (k: nat)
    requires p in Prefixes && q in Prefixes && p != q
    ensures k < |p| && k < |q| && p[k] != q[k]
  {
    if p[0] != q[0] then 0
    else if p[1] != q[1] then 1
    else if p[2] != q[2] then 2
    else if p[3] != q[3] then 3
    else if p[4] != q[4] then 4
    else if p[5] != q[5] then 5
    else if p[6] != q[6] then 6
    else if p[7] != q[7] then 7
    else 8
  }

  /** Shadowsocks fallback order: SIP002 is consulted only when Basic raised `ValueError`. */
  lemma SsFallbackOrder(sp: SubParsers, link: string)
    ensures !sp.ssBasic(link).ValueErr? ==>
      ParseSs(sp, link) == (match sp.ssBasic(link)
                            case Returned(v) => Ok(NodeIf(Shadowsocks, v))
                            case _ => Err(false))
    ensures sp.ssBasic(link).ValueErr? && sp.ssSip002(link).Returned? ==>
      ParseSs(sp, link) == Ok(NodeIf(Shadowsocks, sp.ssSip002(link).v))
  {
  }

  /** Vmess fallback order: Quantumult is consulted only when V2RayN returned
      nothing truthy or raised `ValueError`; both failing yields no node. */
  lemma VmessFallbackOrder(sp: SubParsers, link: string)
    ensures sp.vmessV2rayN(link).Returned? && Truthy(sp.vmessV2rayN(link).v) ==>
      ParseVmess(sp, link) == Ok(Some(Node(Vmess, sp.generate(sp.vmessV2rayN(link).v))))
    ensures ((sp.vmessV2rayN(link).ValueErr? || (sp.vmessV2rayN(link).Returned? && !Truthy(sp.vmessV2rayN(link).v)))
      && sp.vmessQuantumult(link).Returned? && Truthy(sp.vmessQuantumult(link).v)) ==>
      ParseVmess(sp, link) == Ok(Some(Node(Vmess, sp.generate(sp.vmessQuantumult(link).v))))
    ensures ((sp.vmessV2rayN(link).ValueErr? || (sp.vmessV2rayN(link).Returned? && !Truthy(sp.vmessV2rayN(link).v)))
      && (sp.vmessQuantumult(link).ValueErr? || (sp.vmessQuantumult(link).Returned? && !Truthy(sp.vmessQuantumult(link).v)))) ==>
      ParseVmess(sp, link) == Ok(None)
  {
  }

  /** A link with none of the recognised prefixes yields no node, raises
      nothing and leaves `cfg` alone. */
  lemma UnsupportedLink(sp: SubParsers, cfg: Option<Value>, link: string)
    requires forall i :: 0 <= i < |Prefixes| ==> !StartsWith(link, Prefixes[i])
    ensures ParseLink(sp, cfg, link) == Ok(None) && CfgAfter(sp, cfg, link) == cfg
  {
    assert !StartsWith(link, Prefixes[0]) && !StartsWith(link, Prefixes[1]) && !StartsWith(link, Prefixes[2]);
    assert !StartsWith(link, Prefixes[3]) && !StartsWith(link, Prefixes[4]) && !StartsWith(link, Prefixes[5]);
    assert !StartsWith(link, Prefixes[6]);
  }

  // ---------------------------------------------------------------------
  // web_config_to_node and the Clash mapping
  // ---------------------------------------------------------------------

  /** The seven type tags of web configurations. */
  function WebKind(tag: Value): (k: Option<NodeKind>)
    ensures k.Some? <==> tag in {Str("Shadowsocks"), Str("ShadowsocksR"), Str("Vless"), Str("Vmess"),
                                Str("Trojan"), Str("Hysteria"), Str("Hysteria2")}
  {
    if tag == Str("Shadowsocks") then Some(Shadowsocks)
    else if tag == Str("ShadowsocksR") then Some(ShadowsocksR)
    else if tag == Str("Vless") then Some(Vless)
    else if tag == Str("Vmess") then Some(Vmess)
    else if tag == Str("Trojan") then Some(Trojan)
    else if tag == Str("Hysteria") then Some(Hysteria)
    else if tag == Str("Hysteria2") then Some(Hysteria2)
    else None
  }

  /** `web_config_to_node(configs)`: known tags become nodes of their
      `config`, unknown tags are dropped; a known tag without `config` raises `KeyError`. */
  function WebConfigToNode(configs: seq<Record>): (r: Res<seq<Node>>)
    ensures r.Ok? ==> |r.value| <= |configs|
    ensures r.Ok? && (forall i :: 0 <= i < |configs| ==> WebKind(GetOr(configs[i], "type", Str("N/A"))).Some?) ==>
      |r.value| == |configs|
    decreases |configs|
  {
    if |configs| == 0 then Ok([])
    else
      var c := configs[0];
      var kind := WebKind(GetOr(c, "type", Str("N/A")));
      match WebConfigToNode(configs[1..])
      case Err(ve) => if kind.Some? && "config" !in c then Err(false) else Err(ve)
      case Ok(rest) =>
        if kind.None? then Ok(rest)
        else if "config" !in c then Err(false)
        else Ok([Node(kind.value, c["config"])] + rest)
  }

  /** Every node of `web_config_to_node` comes from a config with a known tag, in order. */
  lemma {:induction false} WebConfigKinds(configs: seq<Record>)
    requires WebConfigToNode(configs).Ok?
    ensures forall n :: n in WebConfigToNode(configs).value ==>
      exists i :: (0 <= i < |configs| && WebKind(GetOr(configs[i], "type", Str("N/A"))) == Some(n.kind)
        && "config" in configs[i] && configs[i]["config"] == n.cfg)
    decreases |configs|
  {
    if |configs| > 0 {
      WebConfigKinds(configs[1..]);
      forall n | n in WebConfigToNode(configs).value
        ensures exists i :: (0 <= i < |configs| && WebKind(GetOr(configs[i], "type", Str("N/A"))) == Some(n.kind)
          && "config" in configs[i] && configs[i]["config"] == n.cfg)
      {
        var rest := WebConfigToNode(configs[1..]).value;
        if n in rest {
          var i :| 0 <= i < |configs[1..]| && WebKind(GetOr(configs[1..][i], "type", Str("N/A"))) == Some(n.kind)
            && "config" in configs[1..][i] && configs[1..][i]["config"] == n.cfg;
          assert configs[i + 1] == configs[1..][i];
        }
      }
    }
  }

  /** `__parse_clash`: the Clash configurations mapped to nodes; vless and
      vmess go through `generate_config`, unknown types are dropped. */
  function ClashNodes(sp: SubParsers, cfgs: seq<(string, Value)>): (r: seq<Node>)
    ensures |r| <= |cfgs|
    decreases |cfgs|
  {
    if |cfgs| == 0 then []
    else
      var (t, c) := cfgs[0];
      var rest := ClashNodes(sp, cfgs[1..]);
      match t
      case "ss" => [Node(Shadowsocks, c)] + rest
      case "ssr" => [Node(ShadowsocksR, c)] + rest
      case "vless" => [Node(Vless, sp.generate(c))] + rest
      case "vmess" => [Node(Vmess, sp.generate(c))] + rest
      case "trojan" => [Node(Trojan, c)] + rest
      case "hysteria" => [Node(Hysteria, c)] + rest
      case "hysteria2" => [Node(Hysteria2, c)] + rest
      case _ => rest
  }

  // ---------------------------------------------------------------------
  // read_subscription_trafic and read_subscription
  // ---------------------------------------------------------------------

  /** What `read_subscription_trafic` computes from the header dictionary:
      `(total, upload + download, expire)`, or `None` (`KeyError`) when a key is missing. */
  function TrafficOf(h: Option<map<string, int>>): (r: Option<(int, int, int)>)
    ensures match h
            case None => r.None?
            case Some(v) => (r.Some? <==> HasTrafficKeys(v))
                            && (r.Some? ==> r.value == (v["total"], v["upload"] + v["download"], v["expire"]))
  {
    if h.Some? && HasTrafficKeys(h.value) then
      Some((h.value["total"], h.value["upload"] + h.value["download"], h.value["expire"]))
    else None
  }

  /** `read_subscription_trafic(t)`. The expiry is returned as the raw
      timestamp (its date formatting is not modelled). */
  function ReadSubscriptionTrafic(t: string): Option<(int, int, int)> {
    TrafficOf(Header(t))
  }

  /** A `subscription-userinfo` header written as `k=n; k=n; …` from pairs
      with plain keys is read back as the pairs' dictionary, so
      `read_subscription_trafic` reports its `total`, `upload + download`
      and `expire`, and fails exactly when one of these keys is absent. */
  lemma TrafficRoundTrip(kvs: seq<(string, nat)>)
    requires |kvs| > 0 && PlainKeys(kvs)
    ensures ReadSubscriptionTrafic(Join(HeaderItems(kvs), "; ")) == TrafficOf(Some(PairsMap(kvs)))
  {
    HeaderRoundTrip(kvs);
  }

  /** The state `read_subscription` threads: the node list so far, or an exception. */
  function ReadOne(sp: SubParsers, nodes: seq<Node>, url: string): Res<seq<Node>> {
    if url == "" then Ok(nodes)
    else if exists i :: 0 <= i < |Prefixes| && StartsWith(url, Prefixes[i]) then
      match ParseLinks(sp, [url])
      case Ok(ns) => Ok(nodes + ns)
      case Err(ve) => Err(ve)
    else
      var res := sp.fetch(url);
      if |res| >= 6 && res[..6] == "ssd://" then
        match sp.b64plus(res[6..])
        case None => Err(true)
        case Some(text) => Ok(nodes + seq(|sp.ssd(text)|, i requires 0 <= i < |sp.ssd(text)| => Node(Shadowsocks, sp.ssd(text)[i])))
      else
        var stripped := Strip(res);
        var viaBase64: Res<seq<Node>> :=
          match sp.b64plus(stripped)
          case None => Err(true)
          case Some(text) => ParseLinks(sp, Split(text, "\n"));
        match viaBase64
        case Ok(ns) => Ok(nodes + ns)
        case Err(true) => Ok(nodes + ClashNodes(sp, sp.clash(stripped)))
        case Err(false) => Err(false)
  }

  /** `read_subscription(urls)` starting from the parser's current nodes. */
  function ReadSubscription(sp: SubParsers, nodes: seq<Node>, urls: seq<string>): Res<seq<Node>>
    decreases |urls|
  {
    if |urls| == 0 then Ok(nodes)
    else
      match ReadOne(sp, nodes, urls[0])
      case Err(ve) => Err(ve)
      case Ok(ns) => ReadSubscription(sp, ns, urls[1..])
  }

  /** The detection order for one URL: a share link is parsed directly
      without fetching; a fetched body is tried as ShadowsocksD, then as
      base64 of a link list, and as Clash only when base64 raised `ValueError`. */
  lemma ReadOneOrder(sp: SubParsers, nodes: seq<Node>, url: string)
    requires url != ""
    ensures StartsWith(url, "vmess://") ==>
      ReadOne(sp, nodes, url) == (match ParseLinks(sp, [url]) case Ok(ns) => Ok(nodes + ns) case Err(ve) => Err(ve))
    ensures ((forall i :: 0 <= i < |Prefixes| ==> !StartsWith(url, Prefixes[i]))
      && !StartsWith(sp.fetch(url), "ssd://") && sp.b64plus(Strip(sp.fetch(url))).None?) ==>
      ReadOne(sp, nodes, url) == Ok(nodes + ClashNodes(sp, sp.clash(Strip(sp.fetch(url)))))
    ensures ((forall i :: 0 <= i < |Prefixes| ==> !StartsWith(url, Prefixes[i]))
      && !StartsWith(sp.fetch(url), "ssd://") && sp.b64plus(Strip(sp.fetch(url))).Some?
      && ParseLinks(sp, Split(sp.b64plus(Strip(sp.fetch(url))).value, "\n")).Ok?) ==>
      ReadOne(sp, nodes, url) == Ok(nodes + ParseLinks(sp, Split(sp.b64plus(Strip(sp.fetch(url))).value, "\n")).value)
  {
    if StartsWith(url, "vmess://") {
      assert StartsWith(url, Prefixes[3]);
    }
  }

  /** Nodes already read are never dropped: each URL only appends. */
  lemma {:induction false} ReadSubscriptionExtends(sp: SubParsers, nodes: seq<Node>, urls: seq<string>)
    requires ReadSubscription(sp, nodes, urls).Ok?
    ensures nodes <= ReadSubscription(sp, nodes, urls).value
    decreases |urls|
  {
    if |urls| > 0 {
      var ns := ReadOne(sp, nodes, urls[0]).value;
      assert nodes <= ns;
      ReadSubscriptionExtends(sp, ns, urls[1..]);
    }
  }
}
