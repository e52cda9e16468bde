/** submanager/sub_checker_ssrspeed.py: the same pass as SubChecker with the
    SSRSpeed TCP ping as the probe (`check`), a loss threshold of 0.5 and
    deletion after three counted failures. The branch on the ping verdict is
    modelled as written: a proxy whose losses are within the threshold has
    its FAILURE counter bumped, and one that is lost has its success counted. */
module SubCheckerSsrspeed {
  import opened Wrappers
  import opened PyValue
  import opened Store
  import opened Pool
  import opened Lifecycle

  const ChunkSize: nat := 50
  const FailToDelete: int := 3
  const LossFailThreshold: real := 0.5

  /** `pre_process_proxies()`: bookkeeping fields dropped, names untouched,
      and `proxy_dict` built from the loaded records themselves. */
  function PreProcess(proxies: seq<Record>): (r: Option<(seq<Record>, map<string, Record>)>)
    ensures r.Some? <==> ProxyDict(proxies).Some?
    ensures r.Some? ==> r.value.0 == StrippedAll(proxies) && r.value.1 == ProxyDict(proxies).value
    ensures r.Some? ==> KeysMatch(r.value.1)
  {
    var d := ProxyDict(proxies);
    if d.None? then None
    else
      ProxyDictKeysMatch(proxies);
      Some((StrippedAll(proxies), d.value))
  }

  /** `loss <= 0.5 and g_ping_loss <= 0.5` with both defaulting to 1; the
      second comparison is made only when the first holds. `None` when a
      comparison raises. */
  function Alive(item: Record): (r: Option<bool>)
    ensures (r == Some(true) <==>
      PyGe(Real(LossFailThreshold), GetOr(item, "loss", Int(1))) == Some(true)
      && PyGe(Real(LossFailThreshold), GetOr(item, "gPingLoss", Int(1))) == Some(true))
    ensures "loss" !in item ==> r == Some(false)
  {
    match PyGe(Real(LossFailThreshold), GetOr(item, "loss", Int(1)))
    case None => None
    case Some(false) => Some(false)
    case Some(true) => PyGe(Real(LossFailThreshold), GetOr(item, "gPingLoss", Int(1)))
  }

  /** One ping result: its `server:port` key, and as `success` the NEGATION
      of the ping verdict, which is how the loop treats it. */
  function ItemOutcome(item: Record): (r: Option<Outcome>)
    ensures r.Some? <==> ServerPortKey(item).Some? && Alive(item).Some?
    ensures r.Some? ==> r.value == Outcome(ServerPortKey(item).value, !Alive(item).value)
  {
    match (ServerPortKey(item), Alive(item))
    case (Some(k), Some(alive)) => Some(Outcome(k, !alive))
    case _ => None
  }

  /** A proxy the ping reports as reachable has its failure counter bumped,
      and three such reports delete it. */
  lemma AliveCountsAsFailure(s: Pass, item: Record, now: string)
    requires KeysMatch(s.proxies) && ServerPortKey(item).Some? && Alive(item) == Some(true)
    requires ServerPortKey(item).value in s.proxies
    requires Bumped(s.proxies[ServerPortKey(item).value], "fail_count").Some?
    ensures var k := ServerPortKey(item).value;
      var r := ApplyResult(s, ItemOutcome(item).value, FailToDelete, now);
      r.Some? && r.value.proxies[k]["fail_count"] == Int(Bumped(s.proxies[k], "fail_count").value)
      && (k !in r.value.table <==> Bumped(s.proxies[k], "fail_count").value >= FailToDelete)
  {
  }

  /** A proxy the ping reports as lost is written back with its failures cleared. */
  lemma LostClearsFailures(s: Pass, item: Record, now: string)
    requires KeysMatch(s.proxies) && ServerPortKey(item).Some? && Alive(item) == Some(false)
    requires ServerPortKey(item).value in s.proxies
    requires Bumped(s.proxies[ServerPortKey(item).value], "success_count").Some?
    ensures var k := ServerPortKey(item).value;
      var r := ApplyResult(s, ItemOutcome(item).value, FailToDelete, now);
      r.Some? && k in r.value.table && r.value.table[k].Dict? && r.value.table[k].fields["fail_count"] == Int(0)
  {
  }

  /** `test_and_process_proxies()` over the loaded `proxies` and the store `t`. */
  function TestAndProcess(proxies: seq<Record>, t: Table, check: seq<Record> -> seq<Record>, now: string): (r: Run<Table>)
    ensures PreProcess(proxies).None? ==> r == Run(t, true)
    ensures (PreProcess(proxies).Some? ==>
      r.state.Keys <= t.Keys + PreProcess(proxies).value.1.Keys)
  {
    match PreProcess(proxies)
    case None => Run(t, true)
    case Some((ps, d)) =>
      var run := ApplyChunks(Pass(d, t), Chunks(ps, ChunkSize), check, ItemOutcome, FailToDelete, now);
      ApplyChunksFlat(Pass(d, t), Chunks(ps, ChunkSize), check, ItemOutcome, FailToDelete, now);
      Run(run.state.table, run.raised)
  }

  /** A store in which no proxy has reached three failures keeps that property. */
  lemma TestAndProcessBelowThreshold(proxies: seq<Record>, t: Table, check: seq<Record> -> seq<Record>, now: string)
    requires BelowThreshold(t, FailToDelete)
    ensures BelowThreshold(TestAndProcess(proxies, t, check, now).state, FailToDelete)
  {
    match PreProcess(proxies)
    case None =>
    case Some((ps, d)) =>
      var chunks := Chunks(ps, ChunkSize);
      ApplyChunksFlat(Pass(d, t), chunks, check, ItemOutcome, FailToDelete, now);
      ApplyAllBelowThreshold(Pass(d, t), Flatten(Checked(check, chunks)), ItemOutcome, FailToDelete, now);
  }
}
