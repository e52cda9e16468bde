/** submanager/mihomo_speedtest.py: the `mihomo-speedtest` invocation and
    the filtering of its delay report. Running the binary, the temporary
    files and the random file names are outside the model: the file paths
    and the report are inputs. */
module MihomoSpeedTest {
  import opened Wrappers
  import opened PyValue
  import opened Seqs
  import opened Pool

  /** The delay the tester reports for an unreachable proxy. */
  const Unreachable: real := 9999.0

  /** The command line and the `-c` input: the generated config when
      proxies are given, the subscription URL otherwise, in which case the
      fetch proxy is passed with `--proxy`. */
  datatype Command = Command(inputPath: string, argv: seq<string>)

  function TestCommand(binPath: string, configPath: string, resultPath: string, subUrl: string,
                       proxies: seq<Record>, fetchProxy: string): (r: Command)
    ensures r.inputPath == if |proxies| > 0 then configPath else subUrl
    ensures |r.argv| >= 5 && r.argv[..5] == [binPath, "-delay", "-w=json", "-o=" + resultPath, "-c=" + r.inputPath]
    ensures |proxies| > 0 <==> |r.argv| == 5
    ensures |proxies| == 0 ==> r.argv[5..] == ["--proxy", fetchProxy]
  {
    var input := if |proxies| > 0 then configPath else subUrl;
    var base := [binPath, "-delay", "-w=json", "-o=" + resultPath, "-c=" + input];
    Command(input, if |proxies| > 0 then base else base + ["--proxy", fetchProxy])
  }

  /** `item.get('delay') != 9999`: a missing delay is `None`, which is kept. */
  predicate Reachable(item: Record) {
    Number(Get(item, "delay")) != Some(Unreachable)
  }

  /** `filter_available_proxies()`: the names of the reported proxies whose
      delay is not 9999, in report order. `report` is the parsed result
      file, `None` when the command failed (`run_test` then returns `{}`,
      which yields no names). `None` when an entry is not an object or a
      kept entry has no `name`. */
  function FilterAvailable(report: Option<seq<Value>>): (r: Option<seq<Value>>)
    ensures report.None? ==> r == Some([])
    ensures (report.Some? ==> (r.Some? <==>
      forall i :: 0 <= i < |report.value| ==> report.value[i].Dict? && (Reachable(report.value[i].fields) ==> "name" in report.value[i].fields)))
    ensures (r.Some? && report.Some? ==> forall i :: 0 <= i < |report.value| ==>
      (Reachable(report.value[i].fields) ==> report.value[i].fields["name"] in r.value))
    ensures (r.Some? && report.Some? ==> forall v :: v in r.value ==>
      exists i :: 0 <= i < |report.value| && Reachable(report.value[i].fields) && report.value[i].fields["name"] == v)
  {
    match report
    case None => Some([])
    case Some(items) => Names(items)
  }

  function Names(items: seq<Value>): (r: Option<seq<Value>>)
    ensures (r.Some? <==>
      forall i :: 0 <= i < |items| ==> items[i].Dict? && (Reachable(items[i].fields) ==> "name" in items[i].fields))
    ensures (r.Some? ==> forall i :: 0 <= i < |items| ==>
      (Reachable(items[i].fields) ==> items[i].fields["name"] in r.value))
    ensures (r.Some? ==> forall v :: v in r.value ==>
      exists i :: 0 <= i < |items| && Reachable(items[i].fields) && items[i].fields["name"] == v)
    ensures r.Some? ==> |r.value| <= |items|
    decreases |items|
  {
    if |items| == 0 then Some([])
    else
      var init := items[..|items| - 1];
      var last := items[|items| - 1];
      assert forall i :: 0 <= i < |items| - 1 ==> init[i] == items[i];
      match Names(init)
      case None => None
      case Some(ns) =>
        if !last.Dict? then None
        else if !Reachable(last.fields) then Some(ns)
        else if "name" !in last.fields then None
        else Some(ns + [last.fields["name"]])
  }

  /** A report entry without a delay is counted as available. */
  lemma MissingDelayKept(name: Value)
    ensures FilterAvailable(Some([Dict(map["name" := name])])) == Some([name])
  {
    var item := map["name" := name];
    assert Get(item, "delay") == Null;
    assert [Dict(item)][..0] == [];
    assert Names([]) == Some([]);
    assert Reachable(item) && "name" in item;
    assert Names([Dict(item)]) == Some([] + [name]);
    assert [] + [name] == [name];
  }

  // ---------------------------------------------------------------------
  // Filtering a proxy list by the tester's verdict
  // ---------------------------------------------------------------------

  /** The chunk size of `filter_available_proxies` in the fetcher and the
      sub-proxy checker. */
  const FilterChunkSize: nat := 100

  /** The proxies of `chunk` whose `name` is among `names`, in order; `None`
      when one has no `name`. */
  function KeepAvailable(chunk: seq<Record>, names: seq<Value>): (r: Option<seq<Record>>)
    ensures r.Some? <==> forall i :: 0 <= i < |chunk| ==> "name" in chunk[i]
    ensures r.Some? ==> forall k :: 0 <= k < |r.value| ==> r.value[k] in chunk && "name" in r.value[k] && r.value[k]["name"] in names
    ensures r.Some? ==> forall i :: 0 <= i < |chunk| && chunk[i]["name"] in names ==> chunk[i] in r.value
    ensures r.Some? ==> IsSubsequence(r.value, chunk)
    decreases |chunk|
  {
    if |chunk| == 0 then Some([])
    else if "name" !in chunk[0] then None
    else
      assert forall i :: 1 <= i < |chunk| ==> chunk[i] == chunk[1..][i - 1];
      match KeepAvailable(chunk[1..], names)
      case None => None
      case Some(rest) =>
        if chunk[0]["name"] in names then
          assert ([chunk[0]] + rest)[1..] == rest;
          Some([chunk[0]] + rest)
        else
          Some(rest)
  }

  /** The loop over the chunks: `report(chunk)` is what the tester reports
      for that chunk. */
  function KeepAvailableChunks(chunks: seq<seq<Record>>, report: seq<Record> -> Option<seq<Value>>): (r: Option<seq<Record>>)
    ensures r.Some? ==> IsSubsequence(r.value, Flatten(chunks))
    ensures (r.Some? ==> forall c, i :: 0 <= c < |chunks| && 0 <= i < |chunks[c]| ==>
      ((FilterAvailable(report(chunks[c])).Some? && "name" in chunks[c][i]
        && chunks[c][i]["name"] in FilterAvailable(report(chunks[c])).value) ==> chunks[c][i] in r.value))
    decreases |chunks|
  {
    if |chunks| == 0 then Some([])
    else
      match FilterAvailable(report(chunks[0]))
      case None => None
      case Some(names) =>
        match (KeepAvailable(chunks[0], names), KeepAvailableChunks(chunks[1..], report))
        case (Some(kept), Some(rest)) =>
          SubsequenceConcat(kept, chunks[0], rest, Flatten(chunks[1..]));
          assert forall c :: 1 <= c < |chunks| ==> chunks[c] == chunks[1..][c - 1];
          Some(kept + rest)
        case _ => None
  }

  /** `filter_available_proxies(proxies)`: the proxies the tester reports
      available, in their original order, tested 100 at a time. */
  function FilterAvailableProxies(proxies: seq<Record>, report: seq<Record> -> Option<seq<Value>>): (r: Option<seq<Record>>)
    ensures r.Some? ==> IsSubsequence(r.value, proxies)
    ensures r.Some? ==> forall k :: 0 <= k < |r.value| ==> r.value[k] in proxies
  {
    match KeepAvailableChunks(Chunks(proxies, FilterChunkSize), report)
    case None => None
    case Some(kept) =>
      SubsequenceMembers(kept, proxies);
      Some(kept)
  }
}
