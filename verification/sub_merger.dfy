/** submanager/sub_merger.py: the `SubMerger` that reads every configured
    subscription as a base64 link list or else as a clash document, converts
    the collected links to clash proxies named after their address, drops
    the advertisement entries and stores each proxy under its `server:port`
    key unless that key is already stored. HTTP, subconverter, YAML, the
    GeoIP reader and the file writes are outside the model: their results
    are the fields of an `Env`. */
module SubMerger {
  import opened Wrappers
  import opened Strings
  import opened PyValue
  import opened Codecs
  import opened Store
  import opened Seqs

  /** The services `SubMerger` calls. */
  datatype Env = Env(
    /** `requests.get(url).text`; `None` when the request raises. */
    fetch: string -> Option<string>,
    /** `str.splitlines`. */
    splitLines: string -> seq<string>,
    /** `yaml.load(text, Loader=yaml.FullLoader)`; `None` when it raises. */
    yamlLoad: string -> Option<Value>,
    /** The keys of a mapping in insertion order (what iterating it yields). */
    dictKeys: map<string, Value> -> seq<string>,
    /** `convert_to_clash(generate_config(...))` over the base64 of the
        joined links: the `proxies` subconverter produces, `None` when the
        conversion fails or a step raises. */
    convert: seq<string> -> Option<seq<Value>>,
    /** `get_country_by_ip(server)`: the GeoIP country, `未知` when unknown. */
    country: Value -> string)

  /** The two lists a `SubMerger` accumulates. */
  datatype State = State(nodeLinks: seq<string>, clash: seq<Value>)

  const Unknown: string := "未知"

  // ---------------------------------------------------------------------
  // read_subscription
  // ---------------------------------------------------------------------

  /** `[line.strip() for line in lines]`. */
  function StripAll(lines: seq<string>): (r: seq<string>)
    ensures |r| == |lines| && forall i :: 0 <= i < |lines| ==> r[i] == Strip(lines[i])
  {
    seq(|lines|, i requires 0 <= i < |lines| => Strip(lines[i]))
  }

  /** `[line.strip() for line in lines if line.strip()]`. */
  function CleanLines(lines: seq<string>): (r: seq<string>)
    ensures forall k :: 0 <= k < |r| ==> r[k] != ""
    ensures forall i :: 0 <= i < |lines| && Strip(lines[i]) != "" ==> Strip(lines[i]) in r
    ensures IsSubsequence(r, StripAll(lines))
    decreases |lines|
  {
    if |lines| == 0 then []
    else
      var rest := CleanLines(lines[1..]);
      CleanLinesStep(lines, rest);
      if Strip(lines[0]) != "" then [Strip(lines[0])] + rest else rest
  }

  /** The step of `CleanLines`: the first stripped line, kept or dropped,
      in front of the rest. */
  lemma CleanLinesStep(lines: seq<string>, rest: seq<string>)
    requires |lines| > 0 && IsSubsequence(rest, StripAll(lines[1..]))
    ensures IsSubsequence([Strip(lines[0])] + rest, StripAll(lines)) && IsSubsequence(rest, StripAll(lines))
    ensures forall i :: 1 <= i < |lines| ==> lines[i] == lines[1..][i - 1]
  {
    var stripped := StripAll(lines);
    assert stripped == [stripped[0]] + StripAll(lines[1..]);
    assert ([Strip(lines[0])] + rest)[1..] == rest;
    SubsequenceCons(rest, StripAll(lines[1..]), stripped[0]);
  }

  /** What `self.clash_proxies.extend(proxies)` appends for the `proxies`
      entry of a document: a list's items, a string's characters, a
      mapping's keys; `None` for a value that is not iterable (`TypeError`). */
  function Iterated(env: Env, v: Value): (r: Option<seq<Value>>)
    ensures v.List? ==> r == Some(v.items)
    ensures v.Int? || v.Real? || v.Bool? || v.Null? ==> r.None?
  {
    match v
    case List(items) => Some(items)
    case Str(s) => Some(seq(|s|, i requires 0 <= i < |s| => Str([s[i]])))
    case Dict(fields) =>
      var keys := env.dictKeys(fields);
      Some(seq(|keys|, i requires 0 <= i < |keys| => Str(keys[i])))
    case _ => None
  }

  /** `read_subscription(url)`: the stripped response is read as base64
      links first; only when that decoding raises is it read as a clash
      document, whose `proxies` are appended. A document that does not load
      or has no usable `proxies` changes nothing. `None` when the request
      itself raises. */
  function ReadSubscription(lib: Lib, env: Env, s: State, url: string): (r: Option<State>)
    ensures r.None? <==> env.fetch(url).None?
    ensures (r.Some? && lib.b64plusDecode(Strip(env.fetch(url).value)).Some? ==>
      r.value == State(s.nodeLinks + CleanLines(env.splitLines(lib.b64plusDecode(Strip(env.fetch(url).value)).value)), s.clash))
    ensures (r.Some? && lib.b64plusDecode(Strip(env.fetch(url).value)).None? ==>
      r.value.nodeLinks == s.nodeLinks && |s.clash| <= |r.value.clash| && r.value.clash[..|s.clash|] == s.clash)
  {
    match env.fetch(url)
    case None => None
    case Some(text) =>
      var res := Strip(text);
      match lib.b64plusDecode(res)
      case Some(decoded) => Some(State(s.nodeLinks + CleanLines(env.splitLines(decoded)), s.clash))
      case None => Some(ClashProxies(env, s, env.yamlLoad(res)))
  }

  /** The clash branch of `read_subscription`: a loaded mapping's `proxies`
      are appended; a document that does not load, is not a mapping or whose
      `proxies` is not iterable changes nothing. */
  function ClashProxies(env: Env, s: State, data: Option<Value>): (r: State)
    ensures r.nodeLinks == s.nodeLinks && |s.clash| <= |r.clash| && r.clash[..|s.clash|] == s.clash
    ensures (data.Some? && data.value.Dict? && Iterated(env, GetOr(data.value.fields, "proxies", List([]))).Some? ==>
      r.clash == s.clash + Iterated(env, GetOr(data.value.fields, "proxies", List([]))).value)
    ensures (data.None? || !data.value.Dict? || Iterated(env, GetOr(data.value.fields, "proxies", List([]))).None?) ==> r == s
  {
    match data
    case None => s
    case Some(d) =>
      if !d.Dict? then s
      else
        match Iterated(env, GetOr(d.fields, "proxies", List([])))
        case None => s
        case Some(items) =>
          assert (s.clash + items)[..|s.clash|] == s.clash;
          State(s.nodeLinks, s.clash + items)
  }

  /** A clash document's proxy list is appended as it is. */
  lemma ReadClashDocument(lib: Lib, env: Env, s: State, url: string, items: seq<Value>)
    requires env.fetch(url).Some? && lib.b64plusDecode(Strip(env.fetch(url).value)).None?
    requires env.yamlLoad(Strip(env.fetch(url).value)) == Some(Dict(map["proxies" := List(items)]))
    ensures ReadSubscription(lib, env, s, url) == Some(State(s.nodeLinks, s.clash + items))
  {
    var doc := map["proxies" := List(items)];
    assert GetOr(doc, "proxies", List([])) == List(items);
  }

  /** The loop of `run()` over the subscriptions: a subscription whose
      request raises is logged and skipped. */
  function ReadAll(lib: Lib, env: Env, s: State, urls: seq<string>): (r: State)
    ensures |s.nodeLinks| <= |r.nodeLinks| && r.nodeLinks[..|s.nodeLinks|] == s.nodeLinks
    ensures |s.clash| <= |r.clash| && r.clash[..|s.clash|] == s.clash
    decreases |urls|
  {
    if |urls| == 0 then s
    else
      var s1 := match ReadSubscription(lib, env, s, urls[0]) case None => s case Some(s1) => s1;
      var r := ReadAll(lib, env, s1, urls[1..]);
      assert r.nodeLinks[..|s.nodeLinks|] == r.nodeLinks[..|s1.nodeLinks|][..|s.nodeLinks|];
      assert r.clash[..|s.clash|] == r.clash[..|s1.clash|][..|s.clash|];
      r
  }

  /** Reading two lists of subscriptions one after the other is reading
      their concatenation. */
  lemma {:induction false} ReadAllAppend(lib: Lib, env: Env, s: State, a: seq<string>, b: seq<string>)
    ensures ReadAll(lib, env, s, a + b) == ReadAll(lib, env, ReadAll(lib, env, s, a), b)
    decreases |a|
  {
    if |a| == 0 {
      assert a + b == b;
    } else {
      var s1 := match ReadSubscription(lib, env, s, a[0]) case None => s case Some(s1) => s1;
      assert (a + b)[0] == a[0] && (a + b)[1..] == a[1..] + b;
      ReadAllAppend(lib, env, s1, a[1..], b);
    }
  }

  /** A subscription whose request fails does not disturb the others: the
      result is the one without it. */
  lemma FailedSubscriptionSkipped(lib: Lib, env: Env, s: State, a: seq<string>, url: string, b: seq<string>)
    requires env.fetch(url).None?
    ensures ReadAll(lib, env, s, a + [url] + b) == ReadAll(lib, env, s, a + b)
  {
    ReadAllAppend(lib, env, s, a + [url], b);
    ReadAllAppend(lib, env, s, a, [url]);
    ReadAllAppend(lib, env, s, a, b);
    var sa := ReadAll(lib, env, s, a);
    assert ReadAll(lib, env, sa, [url]) == ReadAll(lib, env, sa, []);
  }

  // ---------------------------------------------------------------------
  // filter_proxies and merge_proxies
  // ---------------------------------------------------------------------

  /** The alternatives of the pattern `官网|流量|过期|剩余|时间|Expire|Traffic`. */
  const Advertising: seq<string> := ["官网", "流量", "过期", "剩余", "时间", "Expire", "Traffic"]

  /** `re.search(pattern, name)` finds a match. */
  predicate IsAdvert(name: string) {
    exists k :: 0 <= k < |Advertising| && Contains(name, Advertising[k])
  }

  /** `proxy['name']` as text; `None` when the proxy is not a mapping, has
      no name, or its name is not a string (`re.search` raises). */
  function ProxyName(v: Value): (r: Option<string>)
    ensures r.Some? <==> v.Dict? && "name" in v.fields && v.fields["name"].Str?
    ensures r.Some? ==> v.fields["name"] == Str(r.value)
  {
    if v.Dict? && "name" in v.fields && v.fields["name"].Str? then Some(v.fields["name"].s) else None
  }

  /** `filter_proxies()`: the proxies whose name matches none of the
      advertisement words, in order. `None` when a name cannot be searched. */
  function FilterProxies(ps: seq<Value>): (r: Option<seq<Value>>)
    ensures r.Some? <==> forall i :: 0 <= i < |ps| ==> ProxyName(ps[i]).Some?
    ensures r.Some? ==> forall k :: 0 <= k < |r.value| ==> ProxyName(r.value[k]).Some? && !IsAdvert(ProxyName(r.value[k]).value)
    ensures r.Some? ==> forall i :: 0 <= i < |ps| && !IsAdvert(ProxyName(ps[i]).value) ==> ps[i] in r.value
    ensures r.Some? ==> IsSubsequence(r.value, ps)
    decreases |ps|
  {
    if |ps| == 0 then Some([])
    else
      assert forall i :: 1 <= i < |ps| ==> ps[i] == ps[1..][i - 1];
      match (ProxyName(ps[0]), FilterProxies(ps[1..]))
      case (Some(name), Some(rest)) =>
        if IsAdvert(name) then
          assert ps == [ps[0]] + ps[1..];
          SubsequenceCons(rest, ps[1..], ps[0]);
          Some(rest)
        else
          assert ([ps[0]] + rest)[1..] == rest;
          Some([ps[0]] + rest)
      case _ => None
  }

  /** The name `merge_proxies` gives a converted proxy:
      `{country}-{server}-{port}`, or `{server}-{port}` when the country is
      unknown. `None` when a field cannot be rendered. */
  function MergedName(server: Value, port: Value, country: string): (r: Option<string>)
    ensures r.Some? <==> Render(server).Some? && Render(port).Some?
    ensures (r.Some? ==> (r.value == (if country != Unknown then country + "-" else "")
      + Render(server).value + "-" + Render(port).value))
  {
    match (Render(server), Render(port))
    case (Some(s), Some(p)) => Some(if country != Unknown then country + "-" + s + "-" + p else s + "-" + p)
    case _ => None
  }

  /** A converted proxy renamed after its address; `None` when it is not a
      mapping or its name cannot be built. */
  function Renamed(env: Env, v: Value): (r: Option<Value>)
    ensures (r.Some? <==> v.Dict? && MergedName(GetOr(v.fields, "server", Str("")), GetOr(v.fields, "port", Str("")),
      env.country(GetOr(v.fields, "server", Str("")))).Some?)
    ensures (r.Some? ==> r.value == Dict(v.fields["name" := Str(MergedName(GetOr(v.fields, "server", Str("")),
      GetOr(v.fields, "port", Str("")), env.country(GetOr(v.fields, "server", Str("")))).value)]))
  {
    if !v.Dict? then None
    else
      var server := GetOr(v.fields, "server", Str(""));
      var port := GetOr(v.fields, "port", Str(""));
      match MergedName(server, port, env.country(server))
      case None => None
      case Some(name) => Some(Dict(v.fields["name" := Str(name)]))
  }

  /** The renaming loop of `merge_proxies` over the converted proxies. */
  function RenamedAll(env: Env, vs: seq<Value>): (r: Option<seq<Value>>)
    ensures r.Some? <==> forall i :: 0 <= i < |vs| ==> Renamed(env, vs[i]).Some?
    ensures r.Some? ==> |r.value| == |vs| && forall i :: 0 <= i < |vs| ==> r.value[i] == Renamed(env, vs[i]).value
  {
    if forall i :: 0 <= i < |vs| ==> Renamed(env, vs[i]).Some? then
      Some(seq(|vs|, i requires 0 <= i < |vs| => Renamed(env, vs[i]).value))
    else None
  }

  /** `merge_proxies()`: the clash proxies read so far followed by the
      renamed converted ones, filtered. `None` when a step raises. */
  function MergeProxies(env: Env, s: State): (r: Option<seq<Value>>)
    ensures (r.Some? ==> (env.convert(s.nodeLinks).Some? && RenamedAll(env, env.convert(s.nodeLinks).value).Some?
      && r == FilterProxies(s.clash + RenamedAll(env, env.convert(s.nodeLinks).value).value)))
  {
    match env.convert(s.nodeLinks)
    case None => None
    case Some(converted) =>
      match RenamedAll(env, converted)
      case None => None
      case Some(renamed) => FilterProxies(s.clash + renamed)
  }

  /** A converted proxy with a known country is dropped exactly when its
      country or address contains an advertisement word. */
  lemma MergedProxyKept(env: Env, s: State, i: nat)
    requires MergeProxies(env, s).Some?
    requires i < |env.convert(s.nodeLinks).value|
    ensures var v := env.convert(s.nodeLinks).value[i];
      var kept := MergeProxies(env, s).value;
      var name := MergedName(GetOr(v.fields, "server", Str("")), GetOr(v.fields, "port", Str("")),
        env.country(GetOr(v.fields, "server", Str("")))).value;
      (!IsAdvert(name) ==> Renamed(env, v).value in kept) && (IsAdvert(name) ==> Renamed(env, v).value !in kept)
  {
    var renamed := RenamedAll(env, env.convert(s.nodeLinks).value).value;
    var all := s.clash + renamed;
    assert all[|s.clash| + i] == renamed[i];
    var v := env.convert(s.nodeLinks).value[i];
    assert ProxyName(renamed[i]).value == MergedName(GetOr(v.fields, "server", Str("")), GetOr(v.fields, "port", Str("")),
        env.country(GetOr(v.fields, "server", Str("")))).value;
  }

  // ---------------------------------------------------------------------
  // save_proxy_to_db
  // ---------------------------------------------------------------------

  /** The `f'{proxy["server"]}:{proxy["port"]}'` key of a merged proxy. */
  function MergedKey(v: Value): Option<string> {
    if v.Dict? then ServerPortKey(v.fields) else None
  }

  /** `save_proxy_to_db()`: each proxy is put under its key unless the key
      is already stored (by an earlier run or an earlier proxy of this
      one). `None` when a key cannot be built. */
  function SaveProxyToDb(t: Table, ps: seq<Value>): (r: Option<Table>)
    ensures r.Some? <==> forall i :: 0 <= i < |ps| ==> MergedKey(ps[i]).Some?
    ensures r.Some? ==> t.Keys <= r.value.Keys && forall k :: k in t ==> r.value[k] == t[k]
    ensures r.Some? ==> forall i :: 0 <= i < |ps| ==> MergedKey(ps[i]).value in r.value
    decreases |ps|
  {
    if |ps| == 0 then Some(t)
    else
      assert forall i :: 1 <= i < |ps| ==> ps[i] == ps[1..][i - 1];
      match MergedKey(ps[0])
      case None => None
      case Some(k) =>
        var t1 := if k in t then t else Put(t, k, ps[0]);
        SaveProxyToDb(t1, ps[1..])
  }

  /** Every key the save adds is the key of one of the proxies. */
  lemma {:induction false} SaveProxyNewKeys(t: Table, ps: seq<Value>)
    requires SaveProxyToDb(t, ps).Some?
    ensures forall k :: k in SaveProxyToDb(t, ps).value && k !in t ==> exists i :: 0 <= i < |ps| && MergedKey(ps[i]) == Some(k)
    decreases |ps|
  {
    if |ps| > 0 {
      var k0 := MergedKey(ps[0]).value;
      var t1 := if k0 in t then t else Put(t, k0, ps[0]);
      assert SaveProxyToDb(t, ps) == SaveProxyToDb(t1, ps[1..]);
      SaveProxyNewKeys(t1, ps[1..]);
      forall k | k in SaveProxyToDb(t, ps).value && k !in t
        ensures exists i :: 0 <= i < |ps| && MergedKey(ps[i]) == Some(k)
      {
        if k == k0 {
          assert MergedKey(ps[0]) == Some(k);
        } else {
          var j :| 0 <= j < |ps| - 1 && MergedKey(ps[1..][j]) == Some(k);
          assert ps[1..][j] == ps[j + 1];
        }
      }
    }
  }

  /** A key not stored before gets the first proxy that carries it. */
  lemma {:induction false} SaveProxyFirstWins(t: Table, ps: seq<Value>, i: nat)
    requires SaveProxyToDb(t, ps).Some? && i < |ps|
    requires MergedKey(ps[i]).value !in t
    requires forall j :: 0 <= j < i ==> MergedKey(ps[j]) != MergedKey(ps[i])
    ensures SaveProxyToDb(t, ps).value[MergedKey(ps[i]).value] == ps[i]
    decreases |ps|
  {
    assert forall j :: 1 <= j < |ps| ==> ps[j] == ps[1..][j - 1];
    var k := MergedKey(ps[0]).value;
    var t1 := if k in t then t else Put(t, k, ps[0]);
    assert SaveProxyToDb(t, ps) == SaveProxyToDb(t1, ps[1..]);
    if i > 0 {
      assert MergedKey(ps[0]) != MergedKey(ps[i]);
      assert MergedKey(ps[1..][i - 1]) == MergedKey(ps[i]);
      SaveProxyFirstWins(t1, ps[1..], i - 1);
    } else {
      assert t1[k] == ps[0];
    }
  }

  /** `run()`: read every subscription, merge, save. */
  function Run(lib: Lib, env: Env, s: State, urls: seq<string>, t: Table): (r: Option<Table>)
    ensures (r.Some? ==> (MergeProxies(env, ReadAll(lib, env, s, urls)).Some?
      && r == SaveProxyToDb(t, MergeProxies(env, ReadAll(lib, env, s, urls)).value)))
    ensures r.Some? ==> forall k :: k in t ==> k in r.value && r.value[k] == t[k]
  {
    match MergeProxies(env, ReadAll(lib, env, s, urls))
    case None => None
    case Some(ps) => SaveProxyToDb(t, ps)
  }
}
