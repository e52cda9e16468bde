/** submanager/sub_checker.py: re-probing the stored proxies in chunks of 50
    and keeping their success/failure counters, deleting a proxy after ten
    failed checks. The probe itself (proxy_check/proxy_checker.py's
    `Checker`) is the `check` parameter; the clock is `now`. */
module SubChecker {
  import opened Wrappers
  import opened PyValue
  import opened Store
  import opened Pool
  import opened Lifecycle

  const ChunkSize: nat := 50
  const FailToDelete: int := 10

  /** `pre_process_proxies()`: the probe input (bookkeeping fields dropped,
      names made unique) and `proxy_dict` built from the loaded records
      themselves. `None` when a name or a key cannot be read. */
  function PreProcess(proxies: seq<Record>): (r: Option<(seq<Record>, map<string, Record>)>)
    ensures r.Some? <==> StripAndRename(proxies).Some? && ProxyDict(proxies).Some?
    ensures r.Some? ==> |r.value.0| == |proxies| && KeysMatch(r.value.1)
    ensures r.Some? ==> r.value.0 == StripAndRename(proxies).value && r.value.1 == ProxyDict(proxies).value
  {
    var ps := StripAndRename(proxies);
    var d := ProxyDict(proxies);
    if ps.None? || d.None? then None
    else
      ProxyDictKeysMatch(proxies);
      Some((ps.value, d.value))
  }

  /** One probe result: its `server:port` key and `item['valid']`. */
  function ItemOutcome(item: Record): (r: Option<Outcome>)
    ensures r.Some? <==> ServerPortKey(item).Some? && "valid" in item
    ensures r.Some? ==> r.value == Outcome(ServerPortKey(item).value, Truthy(item["valid"]))
  {
    match ServerPortKey(item)
    case None => None
    case Some(k) => if "valid" in item then Some(Outcome(k, Truthy(item["valid"]))) else None
  }

  /** `test_and_process_proxies()` over the loaded `proxies` and the store
      `t`; `check` is what the checker reports for one chunk. */
  function TestAndProcess(proxies: seq<Record>, t: Table, check: seq<Record> -> seq<Record>, now: string): (r: Run<Table>)
    ensures PreProcess(proxies).None? ==> r == Run(t, true)
    ensures (PreProcess(proxies).Some? ==>
      r.state.Keys <= t.Keys + PreProcess(proxies).value.1.Keys)
  {
    match PreProcess(proxies)
    case None => Run(t, true)
    case Some((ps, d)) =>
      var chunks := Chunks(ps, ChunkSize);
      var run := ApplyChunks(Pass(d, t), chunks, check, ItemOutcome, FailToDelete, now);
      ApplyChunksFlat(Pass(d, t), chunks, check, ItemOutcome, FailToDelete, now);
      Run(run.state.table, run.raised)
  }

  /** A store in which no proxy has reached ten failures keeps that property. */
  lemma TestAndProcessBelowThreshold(proxies: seq<Record>, t: Table, check: seq<Record> -> seq<Record>, now: string)
    requires BelowThreshold(t, FailToDelete)
    ensures BelowThreshold(TestAndProcess(proxies, t, check, now).state, FailToDelete)
  {
    match PreProcess(proxies)
    case None =>
    case Some((ps, d)) =>
      var chunks := Chunks(ps, ChunkSize);
      ApplyChunksFlat(Pass(d, t), chunks, check, ItemOutcome, FailToDelete, now);
      ApplyAllBelowThreshold(Pass(d, t), Flatten(Checked(check, chunks)), ItemOutcome, FailToDelete, now);
  }

  /** A successful check of a known proxy writes it back under its key with
      its success counted and its failures cleared. */
  lemma SuccessResets(s: Pass, item: Record, now: string)
    requires KeysMatch(s.proxies) && ItemOutcome(item).Some?
    requires var o := ItemOutcome(item).value; o.key in s.proxies && o.success
    requires Bumped(s.proxies[ItemOutcome(item).value.key], "success_count").Some?
    ensures var o := ItemOutcome(item).value;
      var r := ApplyResult(s, o, FailToDelete, now);
      r.Some? && o.key in r.value.table && r.value.table[o.key].Dict?
      && r.value.table[o.key].fields["fail_count"] == Int(0)
      && r.value.table[o.key].fields["last_check_time"] == Str(now)
  {
  }

  /** A failed check deletes a proxy exactly when it reaches ten failures. */
  lemma FailureDeletesAtThreshold(s: Pass, item: Record, now: string)
    requires KeysMatch(s.proxies) && ItemOutcome(item).Some?
    requires var o := ItemOutcome(item).value; o.key in s.proxies && !o.success
    requires Bumped(s.proxies[ItemOutcome(item).value.key], "fail_count").Some?
    ensures var o := ItemOutcome(item).value;
      var r := ApplyResult(s, o, FailToDelete, now);
      r.Some? && (o.key !in r.value.table <==> Bumped(s.proxies[o.key], "fail_count").value >= FailToDelete)
  {
  }

  /** `run()`: `get_all()` in the store's enumeration order `keys`, then the
      pass. Stored values that are not JSON objects make it raise. */
  function CheckStore(lib: Codecs.Lib, t: Table, keys: seq<string>, check: seq<Record> -> seq<Record>, now: string): (r: Run<Table>)
    requires forall i :: 0 <= i < |keys| ==> keys[i] in t
    ensures GetAll(lib, t, keys).None? ==> r == Run(t, true)
  {
    match GetAll(lib, t, keys)
    case None => Run(t, true)
    case Some(vs) =>
      match Records(vs)
      case None => Run(t, true)
      case Some(ps) => TestAndProcess(ps, t, check, now)
  }
}
