/** proxy_check/proxy_checker.py: the `Checker` that launches one mihomo
    client for a batch of proxies and probes each through its local port.
    Port availability, port connections, client liveness and the HTTP probe
    are oracles; the asyncio scheduling, the client process and the shared
    progress counter are not modelled. */
module ProxyChecker {
  import opened Wrappers
  import opened Strings
  import opened PyValue
  import opened Lifecycle
  import opened Pool
  import opened MihomoConfig
  import SubChecker

  /** The first local port handed out. */
  const LocalPort: int := 20001
  /** The largest port a socket can bind; binding a larger one raises
      `OverflowError`, which `is_port_available` does not catch. */
  const MaxPort: int := 65535

  // ---------------------------------------------------------------------
  // Port allocation
  // ---------------------------------------------------------------------

  /** The first port at or after `port` the oracle reports free; `None`
      when the search runs past `MaxPort` and the bind raises. */
  function NextFree(available: int -> bool, port: int): (r: Option<int>)
    ensures r.Some? ==> port <= r.value <= MaxPort && available(r.value)
    decreases MaxPort + 1 - port
  {
    if port > MaxPort then None
    else if available(port) then Some(port)
    else NextFree(available, port + 1)
  }

  /** Every port the search passes over is busy: before the one it finds,
      or all the way to `MaxPort` when it finds none. */
  lemma {:induction false} NextFreeSkips(available: int -> bool, port: int)
    ensures var r := NextFree(available, port);
      (r.Some? ==> forall p :: port <= p < r.value ==> !available(p))
      && (r.None? ==> forall p :: port <= p <= MaxPort ==> !available(p))
    decreases MaxPort + 1 - port
  {
    if port <= MaxPort && !available(port) {
      NextFreeSkips(available, port + 1);
    }
  }

  /** The ports `allcate_proxies_ports` gives `n` proxies when the search
      starts at `port`: each proxy takes the next free port after the one
      before it. `None` when the search raises. */
  function Allocation(available: int -> bool, n: nat, port: int): (r: Option<seq<int>>)
    ensures r.Some? ==> |r.value| == n
    decreases n
  {
    if n == 0 then Some([])
    else
      match NextFree(available, port)
      case None => None
      case Some(p) =>
        match Allocation(available, n - 1, p + 1)
        case None => None
        case Some(rest) => Some([p] + rest)
  }

  /** The allocated ports are free, in range, strictly increasing, and every
      port skipped before or between them was reported busy. */
  lemma {:induction false} AllocationFree(available: int -> bool, n: nat, port: int)
    requires Allocation(available, n, port).Some?
    ensures var r := Allocation(available, n, port).value;
      (forall i :: 0 <= i < n ==> port <= r[i] <= MaxPort && available(r[i]))
      && (forall i, j :: 0 <= i < j < n ==> r[i] < r[j])
      && (n > 0 ==> forall p :: port <= p < r[0] ==> !available(p))
      && (forall i, p :: 0 <= i < n - 1 && r[i] < p < r[i + 1] ==> !available(p))
    decreases n
  {
    if n > 0 {
      var p := NextFree(available, port).value;
      var rest := Allocation(available, n - 1, p + 1).value;
      AllocationFree(available, n - 1, p + 1);
      NextFreeSkips(available, port);
      var r := [p] + rest;
      assert Allocation(available, n, port).value == r;
      assert forall i :: 0 < i < n ==> r[i] == rest[i - 1];
    }
  }

  /** Where the search for the next proxy's port starts after `ports`. */
  function NextStart(ports: seq<int>, start: int): int {
    if |ports| == 0 then start else ports[|ports| - 1] + 1
  }

  /** `ps` followed by the allocation `rest`, if there is one. */
  function Prepend(ps: seq<int>, rest: Option<seq<int>>): Option<seq<int>> {
    match rest
    case None => None
    case Some(qs) => Some(ps + qs)
  }

  /** Once `k` ports are allocated as `ps`, allocating `m` more continues the
      search just after the last of them. */
  lemma {:induction false} AllocationSplit(available: int -> bool, k: nat, m: nat, start: int, ps: seq<int>)
    requires Allocation(available, k, start) == Some(ps)
    ensures Allocation(available, k + m, start) == Prepend(ps, Allocation(available, m, NextStart(ps, start)))
    decreases k
  {
    if k == 0 {
      assert ps == [];
      var rest := Allocation(available, m, start);
      assert rest.Some? ==> [] + rest.value == rest.value;
    } else {
      var p := NextFree(available, start).value;
      var rest := Allocation(available, k - 1, p + 1).value;
      assert ps == [p] + rest;
      AllocationSplit(available, k - 1, m, p + 1, rest);
      assert NextStart(ps, start) == NextStart(rest, p + 1);
      var tail := Allocation(available, m, NextStart(rest, p + 1));
      assert k + m - 1 == (k - 1) + m;
      assert tail.Some? ==> [p] + (rest + tail.value) == ps + tail.value;
    }
  }

  /** Once the search for the port after `ps` fails, every longer allocation fails. */
  lemma AllocationFails(available: int -> bool, k: nat, m: nat, start: int, ps: seq<int>)
    requires Allocation(available, k, start) == Some(ps) && m > 0
    requires NextFree(available, NextStart(ps, start)).None?
    ensures Allocation(available, k + m, start).None?
  {
    AllocationSplit(available, k, m, start, ps);
  }

  /** `allcate_proxies_ports(proxies)` for `n` proxies: the ports assigned,
      and whether the search raised. When it raises, the proxies before the
      failing one already carry their ports. */
  method AllocatePorts(available: int -> bool, n: nat) returns (ports: seq<int>, raised: bool)
    ensures raised <==> Allocation(available, n, LocalPort).None?
    ensures !raised ==> Some(ports) == Allocation(available, n, LocalPort)
    ensures raised ==> |ports| < n && Some(ports) == Allocation(available, |ports|, LocalPort)
  {
    var port := LocalPort;
    ports := [];
    var i := 0;
    while i < n
      invariant 0 <= i <= n && |ports| == i
      invariant Allocation(available, i, LocalPort) == Some(ports)
      invariant port == NextStart(ports, LocalPort)
    {
      ghost var start := port;
      while !available(port)
        invariant start <= port
        invariant NextFree(available, start) == NextFree(available, port)
        decreases MaxPort + 1 - port
      {
        if port >= MaxPort {
          raised := true;
          AllocationStops(available, ports, n, i);
          return;
        }
        port := port + 1;
      }
      if port > MaxPort {
        raised := true;
        AllocationStops(available, ports, n, i);
        return;
      }
      assert NextFree(available, port) == Some(port);
      AllocationSplit(available, i, 1, LocalPort, ports);
      assert Allocation(available, 0, port + 1) == Some([]);
      assert [port] + [] == [port];
      assert Allocation(available, 1, start) == Some([port]);
      ports := ports + [port];
      port := port + 1;
      i := i + 1;
    }
    raised := false;
  }

  /** When the free-port search fails for proxy `i`, the whole allocation fails. */
  lemma AllocationStops(available: int -> bool, ports: seq<int>, n: nat, i: nat)
    requires i < n && Allocation(available, i, LocalPort) == Some(ports)
    requires NextFree(available, NextStart(ports, LocalPort)).None?
    ensures Allocation(available, n, LocalPort).None?
  {
    AllocationFails(available, i, n - i, LocalPort, ports);
  }

  /** `proxy['local_port'] = port` for each proxy and its allocated port. */
  function WithLocalPorts(ps: seq<Record>, ports: seq<int>): (r: seq<Record>)
    requires |ports| == |ps|
    ensures |r| == |ps| && forall i :: 0 <= i < |ps| ==> r[i] == ps[i]["local_port" := Int(ports[i])]
  {
    seq(|ps|, i requires 0 <= i < |ps| => ps[i]["local_port" := Int(ports[i])])
  }

  /** `get_mihomo_config` after the allocation: one `mixed` listener per
      proxy, on its allocated port and named after it, exactly when every
      proxy has a name; the listener names are pairwise distinct because the
      ports are. */
  lemma AllocatedListeners(ps: seq<Record>, ports: seq<int>)
    requires |ports| == |ps| && forall i, j :: 0 <= i < j < |ps| ==> ports[i] < ports[j]
    ensures var r := ListenersFor(WithLocalPorts(ps, ports));
      (r.Some? <==> forall i :: 0 <= i < |ps| ==> "name" in ps[i])
      && (r.Some? ==> |r.value| == |ps| && forall i :: 0 <= i < |ps| ==>
        r.value[i] == Listener(IntToString(ports[i]), Int(ports[i]), ps[i]["name"]))
      && (r.Some? ==> forall i, j :: 0 <= i < j < |ps| ==> r.value[i]["port"] != r.value[j]["port"])
  {
    var qs := WithLocalPorts(ps, ports);
    assert forall i :: 0 <= i < |ps| ==> Get(qs[i], "local_port") == Int(ports[i]);
    assert forall i :: 0 <= i < |ps| ==> ("name" in qs[i] <==> "name" in ps[i]);
    assert forall i :: 0 <= i < |ps| && "name" in ps[i] ==> qs[i]["name"] == ps[i]["name"];
  }

  // ---------------------------------------------------------------------
  // Probing one proxy
  // ---------------------------------------------------------------------

  /** The number of tries `_async__start_test` makes before it gives up on a
      port, and `_run` before it gives up on the client: one plus three retries. */
  const Tries: nat := 4

  /** The tries a first-plus-three-retries loop makes against the outcomes
      `ok(0), ok(1), …`, and whether one of them succeeded. */
  function Retry(ok: nat -> bool): (r: (nat, bool))
    ensures 1 <= r.0 <= Tries
    ensures r.1 <==> exists k :: 0 <= k < Tries && ok(k)
    ensures r.1 ==> ok(r.0 - 1) && forall k :: 0 <= k < r.0 - 1 ==> !ok(k)
    ensures !r.1 ==> r.0 == Tries
  {
    if ok(0) then (1, true)
    else if ok(1) then (2, true)
    else if ok(2) then (3, true)
    else if ok(3) then (4, true)
    else (4, false)
  }

  /** `get_test_url(proxy)`: the domestic site exactly for names containing
      `中国`; `None` when the proxy has no name or the membership test raises.
      `start_test` never calls it, so this URL does not feed `StartTest`,
      which takes the verdict of `check_http_proxy_valiable` as a parameter. */
  function TestUrl(proxy: Record): (r: Option<string>)
    ensures "name" !in proxy ==> r.None?
    ensures ("name" in proxy && proxy["name"].Str? ==>
      r == Some(if Contains(proxy["name"].s, "中国") then "https://www.qq.com" else "https://www.google.com"))
  {
    if "name" !in proxy then None
    else
      match PyIn("中国", proxy["name"])
      case Some(domestic) => Some(if domestic then "https://www.qq.com" else "https://www.google.com")
      case None => None
  }

  /** `start_test(proxy)`: the result record, `valid` being what the HTTP
      probe through the local port reported. `None` when a field is missing
      or `int(proxy['local_port'])` raises. */
  function StartTest(proxy: Record, valid: bool): (r: Option<Record>)
    ensures r.Some? <==> "server" in proxy && "port" in proxy && "local_port" in proxy && PyInt(proxy["local_port"]).Some?
    ensures r.Some? ==> r.value.Keys == {"server", "port", "local_port", "valid"}
    ensures (r.Some? ==> (r.value["server"] == proxy["server"] && r.value["port"] == proxy["port"]
      && r.value["local_port"] == proxy["local_port"] && r.value["valid"] == Bool(valid)))
  {
    if "server" in proxy && "port" in proxy && "local_port" in proxy && PyInt(proxy["local_port"]).Some? then
      Some(map["server" := proxy["server"], "port" := proxy["port"], "local_port" := proxy["local_port"], "valid" := Bool(valid)])
    else None
  }

  /** The result is read back by sub_checker.py under the probed proxy's own
      `server:port` key, with the probe's verdict. */
  lemma StartTestFeedsSubChecker(proxy: Record, valid: bool)
    requires StartTest(proxy, valid).Some? && ServerPortKey(proxy).Some?
    ensures SubChecker.ItemOutcome(StartTest(proxy, valid).value) == Some(Outcome(ServerPortKey(proxy).value, valid))
  {
    var r := StartTest(proxy, valid).value;
    assert r["server"] == proxy["server"] && r["port"] == proxy["port"];
    assert ServerPortKey(r) == ServerPortKey(proxy);
  }
}
