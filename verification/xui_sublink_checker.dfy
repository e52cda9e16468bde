/** submanager/xui_scan/xui_sublink_checker.py: re-checking each stored x-ui
    share link with a TCP ping and keeping its counters; a link is deleted
    after three failed checks. `sp` abstracts the link parsers and `probe`
    gives the outcomes of the connection attempts to a server and port. */
module XuiSublinkChecker {
  import opened Wrappers
  import opened PyValue
  import opened Codecs
  import opened Store
  import opened Lifecycle
  import opened Ping
  import opened SsrParser
  import opened XuiDb

  const FailToDelete: int := 3

  /** `get_link_server_port(link)`: `server` and `server_port` of the first
      parsed node; `None` when parsing raises, nothing is parsed or a field
      is missing. */
  function LinkServerPort(sp: SubParsers, link: string): (r: Option<(Value, Value)>)
    ensures (r.Some? <==> (ParseLinks(sp, [link]).Ok? && |ParseLinks(sp, [link]).value| > 0
      && ParseLinks(sp, [link]).value[0].cfg.Dict?
      && "server" in ParseLinks(sp, [link]).value[0].cfg.fields
      && "server_port" in ParseLinks(sp, [link]).value[0].cfg.fields))
    ensures (r.Some? ==> var cfg := ParseLinks(sp, [link]).value[0].cfg.fields;
      r.value == (cfg["server"], cfg["server_port"]))
  {
    match ParseLinks(sp, [link])
    case Err(_) => None
    case Ok(nodes) =>
      if |nodes| == 0 || !nodes[0].cfg.Dict? then None
      else
        var cfg := nodes[0].cfg.fields;
        if "server" in cfg && "server_port" in cfg then Some((cfg["server"], cfg["server_port"])) else None
  }

  /** `sync_tcp_ping(server, port)[0] > 0`: at least one attempt connected
      with a positive average time. */
  predicate Alive(probe: (Value, Value) -> (nat -> Attempt), server: Value, port: Value) {
    TcpPingResult(probe(server, port)).0 > 0.0
  }

  /** A server that never answers is not alive. */
  lemma NoAnswerNotAlive(probe: (Value, Value) -> (nat -> Attempt), server: Value, port: Value)
    requires forall i: nat :: probe(server, port)(i) == Failed
    ensures !Alive(probe, server, port)
  {
    var attempt := probe(server, port);
    NoneConnected(attempt, AttemptCount(attempt));
  }

  lemma {:induction false} NoneConnected(attempt: nat -> Attempt, n: nat)
    requires forall i: nat :: attempt(i) == Failed
    ensures Successes(attempt, n) == 0
  {
    if n > 0 {
      NoneConnected(attempt, n - 1);
    }
  }

  /** `process_xui_item(key, item)`: a record without a link is left alone;
      otherwise its counters are updated from the ping, and it is deleted or
      stamped and put back under `key`. `None` when something raises. */
  function ProcessXuiItem(sp: SubParsers, probe: (Value, Value) -> (nat -> Attempt), t: Table, key: string, item: Value, now: string): (r: Option<Table>)
    ensures item.Dict? && !Truthy(GetOr(item.fields, "link", Str(""))) ==> r == Some(t)
    ensures !item.Dict? ==> r.None?
    ensures r.Some? ==> forall k :: k != key ==> (k in r.value <==> k in t) && (k in t ==> r.value[k] == t[k])
    ensures r.Some? ==> r.value.Keys <= t.Keys + {key}
    ensures (r.Some? && r.value != t ==> (item.Dict? && GetOr(item.fields, "link", Str("")).Str?
      && LinkServerPort(sp, GetOr(item.fields, "link", Str("")).s).Some?))
  {
    if !item.Dict? then None
    else
      var link := GetOr(item.fields, "link", Str(""));
      if !Truthy(link) then Some(t)
      else if !link.Str? then None
      else
        match LinkServerPort(sp, link.s)
        case None => None
        case Some((server, port)) =>
          Recorded(t, key, item.fields, Alive(probe, server, port), now)
  }

  /** The tail of `process_xui_item` once the ping has answered `alive`:
      the counters are updated, then the record is deleted or stamped and
      put back under `key`. `None` when a counter cannot be incremented. */
  function Recorded(t: Table, key: string, fields: Record, alive: bool, now: string): (r: Option<Table>)
    ensures r.Some? <==> Bumped(fields, if alive then "success_count" else "fail_count").Some?
    ensures r.Some? ==> forall k :: k != key ==> (k in r.value <==> k in t) && (k in t ==> r.value[k] == t[k])
    ensures r.Some? ==> r.value.Keys <= t.Keys + {key}
    ensures alive && r.Some? ==>
      && key in r.value && r.value[key].Dict?
      && "fail_count" in r.value[key].fields && r.value[key].fields["fail_count"] == Int(0)
      && "last_check_time" in r.value[key].fields && r.value[key].fields["last_check_time"] == Str(now)
    ensures !alive && r.Some? ==> (key !in r.value <==> Bumped(fields, "fail_count").value >= FailToDelete)
  {
    match Probed(fields, alive, FailToDelete)
    case None => None
    case Some(Deleted(_)) => Some(Delete(t, key))
    case Some(Kept(q)) => PutXuiLink(t, key, Dict(Stamped(q, now)))
  }

  /** A reachable link is put back under its key with its failures cleared
      and its check time set; an unreachable one is deleted exactly when it
      reaches three failures. */
  lemma ProcessXuiItemOutcome(sp: SubParsers, probe: (Value, Value) -> (nat -> Attempt), t: Table, key: string,
                              fields: Record, server: Value, port: Value, now: string)
    requires HasTruthy(fields, "link") && fields["link"].Str?
    requires LinkServerPort(sp, fields["link"].s) == Some((server, port))
    requires Bumped(fields, "success_count").Some? && Bumped(fields, "fail_count").Some?
    ensures var r := ProcessXuiItem(sp, probe, t, key, Dict(fields), now);
      r.Some?
      && (Alive(probe, server, port) ==> (key in r.value && r.value[key].Dict?
            && r.value[key].fields["fail_count"] == Int(0) && r.value[key].fields["last_check_time"] == Str(now)))
      && (!Alive(probe, server, port) ==> (key !in r.value <==> Bumped(fields, "fail_count").value >= FailToDelete))
  {
    assert GetOr(fields, "link", Str("")) == fields["link"];
    assert ProcessXuiItem(sp, probe, t, key, Dict(fields), now) == Recorded(t, key, fields, Alive(probe, server, port), now);
  }

  /** `run()`: every record of `get_all_link_dict()`, in the enumeration
      order `keys`, parsed and processed against the evolving table. */
  function CheckAll(lib: Lib, sp: SubParsers, probe: (Value, Value) -> (nat -> Attempt), d: Table, keys: seq<string>,
                    t: Table, now: string): (r: Run<Table>)
    requires forall i :: 0 <= i < |keys| ==> keys[i] in d
    ensures (forall k :: k in t && (forall i :: 0 <= i < |keys| ==> keys[i] != k) ==>
      k in r.state && r.state[k] == t[k])
    ensures r.state.Keys <= t.Keys + set i | 0 <= i < |keys| :: keys[i]
    decreases |keys|
  {
    if |keys| == 0 then Run(t, false)
    else
      match Loaded(lib, d[keys[0]])
      case None => Run(t, true)
      case Some(item) =>
        match ProcessXuiItem(sp, probe, t, keys[0], item, now)
        case None => Run(t, true)
        case Some(t1) =>
          assert forall i :: 1 <= i < |keys| ==> keys[i] == keys[1..][i - 1];
          CheckAll(lib, sp, probe, d, keys[1..], t1, now)
  }
}
