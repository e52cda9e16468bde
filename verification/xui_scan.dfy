/** submanager/xui_scan/xui_scan.py: choosing the one share link a scanned
    3x-ui panel contributes. The file's `trim`, `convert_bytes_to_readable_unit`
    and `Panel` defaults are the same code as tools/xui.py's and are modelled
    once, in `XuiTools`; its `tcp_ping` loop is `sync_tcp_ping` of
    proxy_check/ping.py, modelled in `Ping`. Link building goes through
    `Inbound.genLink` of tools/xray.py, which is not part of this model: it is
    the `genLink` parameter. */
module XuiScan {
  import opened Wrappers
  import opened PyValue
  import opened Ping

  /** `tcp_ping_check_alive`: the average time of the ping is positive. */
  predicate Alive(attempt: nat -> Attempt) {
    TcpPingResult(attempt).0 > 0.0
  }

  /** The summed time of the first `n` attempts is positive exactly when one
      of them connected after a positive delay; connection times are never
      negative. */
  lemma {:induction false} TotalDelayPositive(attempt: nat -> Attempt, n: nat)
    requires forall i :: 0 <= i < n && attempt(i).Connected? ==> attempt(i).delta >= 0.0
    ensures TotalDelay(attempt, n) >= 0.0
    ensures TotalDelay(attempt, n) > 0.0 <==> exists i :: 0 <= i < n && attempt(i).Connected? && attempt(i).delta > 0.0
  {
    if n > 0 {
      TotalDelayPositive(attempt, n - 1);
      if attempt(n - 1).Connected? && attempt(n - 1).delta > 0.0 {
        assert 0 <= n - 1 < n && attempt(n - 1).Connected? && attempt(n - 1).delta > 0.0;
      }
    }
  }

  /** A panel port is alive exactly when one of the ping's attempts
      connected after a positive time; in particular it had a success. */
  lemma AliveIffConnected(attempt: nat -> Attempt)
    requires forall i :: attempt(i).Connected? ==> attempt(i).delta >= 0.0
    ensures Alive(attempt) <==> exists i :: 0 <= i < AttemptCount(attempt) && attempt(i).Connected? && attempt(i).delta > 0.0
    ensures Alive(attempt) ==> Successes(attempt, AttemptCount(attempt)) > 0
  {
    var n := AttemptCount(attempt);
    var suc := Successes(attempt, n);
    TotalDelayPositive(attempt, n);
    SuccessesPositive(attempt, n);
    if suc > 0 {
      var t := TotalDelay(attempt, n);
      assert TcpPingResult(attempt).0 == t / suc as real;
      DividedPositive(t, suc as real);
    }
  }

  /** A non-negative total divided by a positive count is positive exactly
      when the total is. */
  lemma DividedPositive(t: real, c: real)
    requires t >= 0.0 && c > 0.0
    ensures t / c > 0.0 <==> t > 0.0
  {
    if t > 0.0 {
      assert t / c * c == t;
    } else {
      assert t == 0.0;
    }
  }

  /** A positive summed time needs a success. */
  lemma {:induction false} SuccessesPositive(attempt: nat -> Attempt, n: nat)
    ensures (exists i :: 0 <= i < n && attempt(i).Connected?) ==> Successes(attempt, n) > 0
  {
    if n > 0 {
      SuccessesPositive(attempt, n - 1);
    }
  }

  /** The protocols a link is built for. */
  const Supported: seq<Value> := [Str("vmess"), Str("vless"), Str("trojan"), Str("shadowsocks")]

  /** An inbound the loop probes: enabled and of a supported protocol. */
  predicate Candidate(item: Record) {
    Truthy(GetOr(item, "enable", Null)) && GetOr(item, "protocol", Null) in Supported
  }

  /** An inbound the loop builds a link for: a candidate alive on its port. */
  predicate Qualifies(item: Record, probe: Value -> (nat -> Attempt)) {
    Candidate(item) && Alive(probe(GetOr(item, "port", Null)))
  }

  /** The remark the link carries: `{country}-{address}` when the GeoIP
      lookup succeeded (`country` is `None` without a reader or when the
      lookup raises), else the inbound's `remark`, defaulting to the address. */
  function Remark(item: Record, address: string, country: Option<string>): (r: Value)
    ensures country.Some? ==> r == Str(country.value + "-" + address)
    ensures country.None? && "remark" !in item ==> r == Str(address)
  {
    match country
    case Some(c) => Str(c + "-" + address)
    case None => GetOr(item, "remark", Str(address))
  }

  /** The loop over the inbounds from position `i` on: the first non-empty
      link built for a qualifying inbound, `""` when there is none, `None`
      when an entry is not a mapping or building a link raises. */
  function FirstLink(items: seq<Value>, i: nat, address: string, probe: Value -> (nat -> Attempt),
                     country: Option<string>, genLink: (Record, string, Value) -> Option<string>): (r: Option<string>)
    requires i <= |items|
    decreases |items| - i
  {
    if i == |items| then Some("")
    else if !items[i].Dict? then None
    else
      var item := items[i].fields;
      if !Qualifies(item, probe) then FirstLink(items, i + 1, address, probe, country, genLink)
      else
        match genLink(item, address, Remark(item, address, country))
        case None => None
        case Some(link) =>
          if link != "" then Some(link) else FirstLink(items, i + 1, address, probe, country, genLink)
  }

  /** The link chosen is the one built for the first qualifying inbound
      whose link is non-empty: every inbound before it is a mapping that
      either does not qualify or yields an empty link. */
  lemma {:induction false} FirstLinkIsFirst(items: seq<Value>, i: nat, address: string, probe: Value -> (nat -> Attempt),
                                            country: Option<string>, genLink: (Record, string, Value) -> Option<string>)
    requires i <= |items|
    ensures (var r := FirstLink(items, i, address, probe, country, genLink);
      r.Some? && r.value != "" ==> exists k :: (i <= k < |items| && items[k].Dict? && Qualifies(items[k].fields, probe)
        && genLink(items[k].fields, address, Remark(items[k].fields, address, country)) == r
        && forall j :: i <= j < k ==> Passed(items[j], address, probe, country, genLink)))
    decreases |items| - i
  {
    if i < |items| && items[i].Dict? {
      var item := items[i].fields;
      var r := FirstLink(items, i, address, probe, country, genLink);
      if r.Some? && r.value != "" {
        if Qualifies(item, probe) && genLink(item, address, Remark(item, address, country)) == r {
        } else {
          FirstLinkIsFirst(items, i + 1, address, probe, country, genLink);
          var k :| i + 1 <= k < |items| && items[k].Dict? && Qualifies(items[k].fields, probe)
            && genLink(items[k].fields, address, Remark(items[k].fields, address, country)) == r
            && forall j :: i + 1 <= j < k ==> Passed(items[j], address, probe, country, genLink);
          assert Passed(items[i], address, probe, country, genLink);
        }
      }
    }
  }

  /** An inbound the loop goes past without a result: a mapping that does
      not qualify or whose link is empty. */
  predicate Passed(v: Value, address: string, probe: Value -> (nat -> Attempt),
                   country: Option<string>, genLink: (Record, string, Value) -> Option<string>) {
    v.Dict? && (!Qualifies(v.fields, probe)
      || genLink(v.fields, address, Remark(v.fields, address, country)) == Some(""))
  }

  /** When every inbound is passed over, the panel contributes `""`. */
  lemma {:induction false} AllPassedGivesEmpty(items: seq<Value>, i: nat, address: string, probe: Value -> (nat -> Attempt),
                                               country: Option<string>, genLink: (Record, string, Value) -> Option<string>)
    requires i <= |items|
    requires forall j :: i <= j < |items| ==> Passed(items[j], address, probe, country, genLink)
    ensures FirstLink(items, i, address, probe, country, genLink) == Some("")
    decreases |items| - i
  {
    if i < |items| {
      AllPassedGivesEmpty(items, i + 1, address, probe, country, genLink);
    }
  }

  /** `generate_subscription_links(data, address, reader)`: one link or `""`;
      `None` when it raises. */
  function GenerateSubscriptionLinks(data: Value, address: string, probe: Value -> (nat -> Attempt),
                                     country: Option<string>, genLink: (Record, string, Value) -> Option<string>): (r: Option<string>)
    ensures !Truthy(data) ==> r == Some("")
    ensures data.Dict? && !Truthy(GetOr(data.fields, "success", Null)) ==> r == Some("")
    ensures (r.Some? && r.value != "" ==> (data.Dict? && Truthy(GetOr(data.fields, "success", Null))
      && GetOr(data.fields, "obj", List([])).List?))
  {
    if !Truthy(data) then Some("")
    else if !data.Dict? then None
    else if !Truthy(GetOr(data.fields, "success", Null)) then Some("")
    else
      match GetOr(data.fields, "obj", List([]))
      case List(items) => FirstLink(items, 0, address, probe, country, genLink)
      case Str(s) => if s == "" then Some("") else None
      case Dict(m) => if m == map[] then Some("") else None
      case _ => None
  }

  /** A disabled inbound, or one of another protocol, is never probed: what
      its port would answer does not change the result. */
  lemma {:induction false} UnqualifiedNotProbed(items: seq<Value>, i: nat, address: string, probe: Value -> (nat -> Attempt),
                                                probe': Value -> (nat -> Attempt), country: Option<string>,
                                                genLink: (Record, string, Value) -> Option<string>)
    requires i <= |items|
    requires (forall j :: i <= j < |items| && items[j].Dict? && Candidate(items[j].fields) ==>
      probe(GetOr(items[j].fields, "port", Null)) == probe'(GetOr(items[j].fields, "port", Null)))
    ensures FirstLink(items, i, address, probe, country, genLink) == FirstLink(items, i, address, probe', country, genLink)
    decreases |items| - i
  {
    if i < |items| {
      UnqualifiedNotProbed(items, i + 1, address, probe, probe', country, genLink);
    }
  }
}
