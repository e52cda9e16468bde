/** The proxy-pool bookkeeping that submanager/mihomo_launcher.py,
    submanager/mihomo_proxy_pool.py, submanager/sub_checker.py,
    submanager/subproxy_checker.py and the other pool scripts each write out
    in their own copy: failed-proxy filtering, removal of the bookkeeping
    keys, de-duplicated names, the `server:port` dictionary, the mihomo
    fix-ups, chunking and listener records. */
module Pool {
  import opened Wrappers
  import opened Strings
  import opened PyValue
  import opened Codecs
  import opened Naming

  /** The only vless flow current mihomo accepts. */
  const Vision: string := "xtls-rprx-vision"

  // ---------------------------------------------------------------------
  // Filtering, stripping and renaming
  // ---------------------------------------------------------------------

  /** `proxy.get('fail_count', 0) > 0`; `None` when the comparison raises. */
  function HasFailed(p: Record): (r: Option<bool>)
    ensures "fail_count" !in p ==> r == Some(false)
    ensures "fail_count" in p && p["fail_count"].Int? ==> r == Some(p["fail_count"].i > 0)
    ensures r.Some? <==> Number(GetOr(p, "fail_count", Int(0))).Some?
  {
    match PyGe(Int(0), GetOr(p, "fail_count", Int(0)))
    case None => None
    case Some(b) => Some(!b)
  }

  /** `p['name']` as text; `None` when it is absent (`KeyError`) or not a
      string (names are strings throughout the pools). */
  function NameOf(p: Record): (r: Option<string>)
    ensures r.Some? <==> "name" in p && p["name"].Str?
    ensures r.Some? ==> p["name"] == Str(r.value)
  {
    if "name" in p && p["name"].Str? then Some(p["name"].s) else None
  }

  /** The names of all proxies, in order. */
  function Names(ps: seq<Record>): (r: Option<seq<string>>)
    ensures r.Some? <==> forall i :: 0 <= i < |ps| ==> NameOf(ps[i]).Some?
    ensures r.Some? ==> |r.value| == |ps| && forall i :: 0 <= i < |ps| ==> NameOf(ps[i]) == Some(r.value[i])
  {
    if |ps| == 0 then Some([])
    else
      var rest := Names(ps[1..]);
      assert forall i :: 1 <= i < |ps| ==> ps[i] == ps[1..][i - 1];
      if NameOf(ps[0]).Some? && rest.Some? then Some([NameOf(ps[0]).value] + rest.value) else None
  }

  /** `proxy['name'] = new_name` for every proxy. */
  function WithNames(ps: seq<Record>, names: seq<string>): (r: seq<Record>)
    requires |names| == |ps|
    ensures |r| == |ps|
    ensures forall i :: 0 <= i < |r| ==> r[i] == ps[i]["name" := Str(names[i])]
  {
    if |ps| == 0 then [] else [ps[0]["name" := Str(names[0])]] + WithNames(ps[1..], names[1..])
  }

  /** The loop shared by the `pre_process_proxies` copies: each proxy is
      copied without the bookkeeping keys and renamed by `get_new_name`
      against the names chosen before it. `None` when a name is missing. */
  function StripAndRename(ps: seq<Record>): (r: Option<seq<Record>>)
    ensures r.Some? <==> Names(ps).Some?
    ensures r.Some? ==> |r.value| == |ps|
    ensures (r.Some? ==> forall i :: 0 <= i < |ps| ==>
      r.value[i] == Without(ps[i], Bookkeeping)["name" := Str(RenameAll(Names(ps).value, {})[i])])
    ensures r.Some? ==> forall i :: 0 <= i < |ps| ==> NameOf(r.value[i]).Some? && StartsWith(NameOf(r.value[i]).value, NameOf(ps[i]).value)
    ensures r.Some? ==> forall i, j :: 0 <= i < j < |ps| ==> NameOf(r.value[i]) != NameOf(r.value[j])
    ensures r.Some? ==> forall i, k :: 0 <= i < |ps| && k in Bookkeeping ==> k !in r.value[i]
  {
    match Names(ps)
    case None => None
    case Some(names) =>
      var stripped := StrippedAll(ps);
      var renamed := RenameAll(names, {});
      Some(WithNames(stripped, renamed))
  }

  /** Every proxy without the bookkeeping keys. */
  function StrippedAll(ps: seq<Record>): (r: seq<Record>)
    ensures |r| == |ps| && forall i :: 0 <= i < |ps| ==> r[i] == Without(ps[i], Bookkeeping)
  {
    if |ps| == 0 then [] else [Without(ps[0], Bookkeeping)] + StrippedAll(ps[1..])
  }

  predicate Distinct(xs: seq<string>) {
    forall i, j :: 0 <= i < j < |xs| ==> xs[i] != xs[j]
  }

  /** Proxies whose names are already distinct keep them: renaming only
      removes the bookkeeping keys. */
  lemma StripAndRenameKeepsDistinctNames(ps: seq<Record>)
    requires Names(ps).Some? && Distinct(Names(ps).value)
    ensures StripAndRename(ps) == Some(StrippedAll(ps))
  {
    var names := Names(ps).value;
    RenameAllKeepsDistinct(names, {});
    var renamed := RenameAll(names, {});
    assert renamed == names;
    StripAndRenameIs(ps);
    NamesAreFields(ps);
    WithOwnNames(ps, names);
    calc {
      StripAndRename(ps);
      Some(WithNames(StrippedAll(ps), renamed));
      Some(WithNames(StrippedAll(ps), names));
      Some(StrippedAll(ps));
    }
  }

  lemma StripAndRenameIs(ps: seq<Record>)
    requires Names(ps).Some?
    ensures StripAndRename(ps) == Some(WithNames(StrippedAll(ps), RenameAll(Names(ps).value, {})))
  {
  }

  lemma NamesAreFields(ps: seq<Record>)
    requires Names(ps).Some?
    ensures forall i :: 0 <= i < |ps| ==> "name" in ps[i] && ps[i]["name"] == Str(Names(ps).value[i])
  {
    forall i | 0 <= i < |ps|
      ensures "name" in ps[i] && ps[i]["name"] == Str(Names(ps).value[i])
    {
      assert NameOf(ps[i]) == Some(Names(ps).value[i]);
    }
  }

  lemma WithOwnNames(ps: seq<Record>, names: seq<string>)
    requires |names| == |ps|
    requires forall i :: 0 <= i < |ps| ==> "name" in ps[i] && ps[i]["name"] == Str(names[i])
    ensures WithNames(StrippedAll(ps), names) == StrippedAll(ps)
  {
    var stripped := StrippedAll(ps);
    var r := WithNames(stripped, names);
    forall i | 0 <= i < |ps|
      ensures r[i] == stripped[i]
    {
      NameUnchanged(ps[i], names[i]);
    }
  }

  /** Writing back a proxy's own name into its stripped copy changes nothing. */
  lemma NameUnchanged(p: Record, name: string)
    requires "name" in p && p["name"] == Str(name)
    ensures Without(p, Bookkeeping)["name" := Str(name)] == Without(p, Bookkeeping)
  {
    assert "name" !in Bookkeeping;
  }

  /** The proxies whose `fail_count` is not positive, in order; `None` when
      a comparison raises. */
  function Healthy(ps: seq<Record>): (r: Option<seq<Record>>)
    ensures r.Some? ==> |r.value| <= |ps|
    ensures r.Some? ==> forall k :: 0 <= k < |r.value| ==> r.value[k] in ps && HasFailed(r.value[k]) == Some(false)
    ensures r.Some? ==> forall i :: 0 <= i < |ps| && HasFailed(ps[i]) == Some(false) ==> ps[i] in r.value
    ensures r.Some? <==> forall i :: 0 <= i < |ps| ==> HasFailed(ps[i]).Some?
  {
    if |ps| == 0 then Some([])
    else
      var rest := Healthy(ps[1..]);
      assert forall i :: 1 <= i < |ps| ==> ps[i] == ps[1..][i - 1];
      match HasFailed(ps[0])
      case None => None
      case Some(failed) =>
        if rest.None? then None
        else if failed then rest
        else Some([ps[0]] + rest.value)
  }

  // ---------------------------------------------------------------------
  // The `server:port` dictionary
  // ---------------------------------------------------------------------

  /** `{f"{x['server']}:{x['port']}": x for x in ps}`: a later proxy with the
      same key replaces an earlier one. `None` when a key cannot be built. */
  function ProxyDict(ps: seq<Record>): (r: Option<map<string, Record>>)
    ensures r.Some? <==> forall i :: 0 <= i < |ps| ==> ServerPortKey(ps[i]).Some?
    ensures r.Some? ==> forall i :: 0 <= i < |ps| ==> ServerPortKey(ps[i]).value in r.value
    ensures (r.Some? ==> forall k :: k in r.value ==>
      exists i :: 0 <= i < |ps| && ServerPortKey(ps[i]) == Some(k) && r.value[k] == ps[i])
    decreases |ps|
  {
    if |ps| == 0 then Some(map[])
    else
      var init := ps[..|ps| - 1];
      var last := ps[|ps| - 1];
      assert forall i :: 0 <= i < |ps| - 1 ==> init[i] == ps[i];
      match (ProxyDict(init), ServerPortKey(last))
      case (Some(d), Some(k)) => Some(d[k := last])
      case _ => None
  }

  /** The entry for a key is the last proxy carrying it. */
  lemma {:induction false} ProxyDictLastWins(ps: seq<Record>, i: nat)
    requires ProxyDict(ps).Some? && i < |ps|
    requires forall j :: i < j < |ps| ==> ServerPortKey(ps[j]) != ServerPortKey(ps[i])
    ensures ProxyDict(ps).value[ServerPortKey(ps[i]).value] == ps[i]
    decreases |ps|
  {
    var init := ps[..|ps| - 1];
    if i < |ps| - 1 {
      assert init[i] == ps[i];
      assert forall j :: i < j < |init| ==> init[j] == ps[j];
      ProxyDictLastWins(init, i);
    }
  }

  // ---------------------------------------------------------------------
  // The mihomo fix-ups
  // ---------------------------------------------------------------------

  /** A vless proxy with a flow other than `xtls-rprx-vision`, which mihomo rejects. */
  predicate UnsupportedFlow(p: Record) {
    Get(p, "type") == Str("vless") && Truthy(Get(p, "flow")) && Get(p, "flow") != Str(Vision)
  }

  const Chacha: string := "chacha20-ietf-poly1305"

  /** The shadowsocks fix-ups: a cipher for which `'poly1305' in cipher`
      holds (a substring of text, an element of a list, a key of a mapping)
      becomes `chacha20-ietf-poly1305`, and a truthy password is
      URL-unquoted. `None` when the cipher is missing, `None`, a number or a
      boolean (`in` raises) or the password cannot be rendered. Other
      proxies are unchanged. */
  function SsFixups(lib: Lib, p: Record): (r: Option<Record>)
    ensures Get(p, "type") != Str("ss") ==> r == Some(p)
    ensures r.Some? ==> r.value.Keys == p.Keys
    ensures (r.Some? && Get(p, "type") == Str("ss") && Get(p, "cipher").Str? ==>
      r.value["cipher"] == (if Contains(Get(p, "cipher").s, "poly1305") then Str(Chacha) else Get(p, "cipher")))
    ensures (r.Some? && Get(p, "type") == Str("ss") && Get(p, "cipher").List? ==>
      r.value["cipher"] == (if Str("poly1305") in Get(p, "cipher").items then Str(Chacha) else Get(p, "cipher")))
    ensures (r.Some? && Get(p, "type") == Str("ss") && Get(p, "cipher").Dict? ==>
      r.value["cipher"] == (if "poly1305" in Get(p, "cipher").fields then Str(Chacha) else Get(p, "cipher")))
    ensures (r.Some? && Get(p, "type") == Str("ss") && HasTruthy(p, "password") ==>
      Render(p["password"]).Some? && r.value["password"] == Str(lib.unquote(Render(p["password"]).value)))
    ensures (r.Some? ==> forall k :: k in p && k != "cipher" && k != "password" ==> r.value[k] == p[k])
    ensures (Get(p, "type") == Str("ss") && !(Get(p, "cipher").Str? || Get(p, "cipher").List? || Get(p, "cipher").Dict?) ==>
      r.None?)
    ensures r.Some? ==> Get(r.value, "type") == Get(p, "type") && Get(r.value, "flow") == Get(p, "flow")
    ensures r.Some? ==> GetOr(r.value, "fail_count", Int(0)) == GetOr(p, "fail_count", Int(0))
  {
    if Get(p, "type") != Str("ss") then Some(p)
    else
      match PyIn("poly1305", Get(p, "cipher"))
      case None => None
      case Some(hit) =>
        var p1 := if hit then p["cipher" := Str(Chacha)] else p;
        if !HasTruthy(p1, "password") then Some(p1)
        else
          match Render(p1["password"])
          case None => None
          case Some(pw) => Some(p1["password" := Str(lib.unquote(pw))])
  }

  // ---------------------------------------------------------------------
  // Chunks and listeners
  // ---------------------------------------------------------------------

  /** `[xs[i:i + n] for i in range(0, len(xs), n)]`. */
  function Chunks<T>(xs: seq<T>, n: nat): (r: seq<seq<T>>)
    requires n > 0
    ensures Flatten(r) == xs
    ensures forall c :: 0 <= c < |r| ==> 0 < |r[c]| <= n
    ensures forall c :: 0 <= c < |r| - 1 ==> |r[c]| == n
    decreases |xs|
  {
    if |xs| == 0 then []
    else if |xs| <= n then
      assert Flatten([xs]) == xs + Flatten([xs][1..]);
      [xs]
    else
      var rest := Chunks(xs[n..], n);
      var r := [xs[..n]] + rest;
      assert r[1..] == rest;
      assert xs == xs[..n] + xs[n..];
      r
  }

  function Flatten<T>(xss: seq<seq<T>>): seq<T> {
    if |xss| == 0 then [] else xss[0] + Flatten(xss[1..])
  }

  /** Every element of a chunk is an element of the flattened list. */
  lemma {:induction false} FlattenMember<T>(xss: seq<seq<T>>, c: nat, j: nat)
    requires c < |xss| && j < |xss[c]|
    ensures xss[c][j] in Flatten(xss)
    decreases c
  {
    if c > 0 {
      FlattenMember(xss[1..], c - 1, j);
    }
  }

  /** The chunks before chunk `c` of `Chunks(xs, n)` hold `n * c` elements. */
  lemma {:induction false} ChunksPrefixLength<T>(xs: seq<T>, n: nat, c: nat)
    requires n > 0 && c < |Chunks(xs, n)|
    ensures |Flatten(Chunks(xs, n)[..c])| == n * c
  {
    var r := Chunks(xs, n);
    FullChunksLength(r, n, c);
  }

  lemma {:induction false} FullChunksLength<T>(r: seq<seq<T>>, n: nat, c: nat)
    requires c <= |r| && forall k :: 0 <= k < c ==> |r[k]| == n
    ensures |Flatten(r[..c])| == n * c
    decreases c
  {
    if c == 0 {
      assert r[..0] == [];
    } else {
      assert r[..c][1..] == r[1..][..c - 1];
      FullChunksLength(r[1..], n, c - 1);
      assert |Flatten(r[..c])| == n + n * (c - 1);
    }
  }

  /** A `mixed` listener on `port` serving the proxy named `proxy`, named `mixed{tag}`. */
  function Listener(tag: string, port: Value, proxy: Value): (r: Record)
    ensures r.Keys == {"name", "type", "port", "proxy"}
    ensures r["name"] == Str("mixed" + tag) && r["type"] == Str("mixed") && r["port"] == port && r["proxy"] == proxy
  {
    map["name" := Str("mixed" + tag), "type" := Str("mixed"), "port" := port, "proxy" := proxy]
  }
}
