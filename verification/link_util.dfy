/** submanager/util.py: the host/port extractor for share links and the
    local proxy port range read off the generated config file names. */
module LinkUtil {
  import opened Wrappers
  import opened Strings
  import opened PyValue
  import opened Codecs

  /** A `(host, port)` pair as the source returns it: the JSON values of a
      vmess body, or `urlparse`'s `hostname` and `port` (`None` when absent). */
  datatype HostPort = HostPort(host: Value, port: Value)

  /** `(url.hostname, url.port)`; `None` when reading the port raises `ValueError`. */
  function UrlHostPort(u: Url): (r: Option<HostPort>)
    ensures r.Some? <==> !u.port.BadPort?
    ensures r.Some? ==> r.value.host == OptStr(u.hostname)
  {
    if u.port.BadPort? then None else Some(HostPort(OptStr(u.hostname), PortValue(u.port)))
  }

  /** `parse_link_host_port(link)`; `None` stands for any exception it raises. */
  function ParseLinkHostPort(lib: Lib, link: string): (r: Option<HostPort>)
    ensures r.Some? ==> |Split(Strip(link), "://")| == 2
  {
    var l := Strip(link);
    var pieces := Split(l, "://");
    if |pieces| != 2 then None
    else
      var (p0, p1) := (pieces[0], pieces[1]);
      if p0 == "vmess" then
        match lib.b64plusDecode(p1)
        case None => None
        case Some(text) =>
          match lib.jsonLoads(text)
          case Some(Dict(data)) =>
            if "add" in data && "port" in data then Some(HostPort(data["add"], data["port"])) else None
          case _ => None
      else if p0 == "ss" then
        var body := Split(p1, "#")[0];
        match lib.b64plusDecode(body)
        case None => None
        case Some(text) =>
          match lib.urlparse(p0 + "://" + text)
          case None => None
          case Some(u) => UrlHostPort(u)
      else
        match lib.urlparse(l)
        case None => None
        case Some(u) => UrlHostPort(u)
  }

  /** A link that does not contain `://` exactly once is rejected (the
      two-name unpacking of the split raises). */
  lemma OneSchemeSeparator(lib: Lib, link: string)
    requires |Split(Strip(link), "://")| != 2
    ensures ParseLinkHostPort(lib, link).None?
  {
  }

  /** A vmess link yields the `add` and `port` fields of its decoded JSON body. */
  lemma VmessHostPort(lib: Lib, link: string, body: string, text: string, data: map<string, Value>)
    requires Split(Strip(link), "://") == ["vmess", body]
    requires lib.b64plusDecode(body) == Some(text) && lib.jsonLoads(text) == Some(Dict(data))
    requires "add" in data && "port" in data
    ensures ParseLinkHostPort(lib, link) == Some(HostPort(data["add"], data["port"]))
  {
  }

  /** An ss link drops its `#` fragment, decodes the rest and reads host and
      port from `ss://<decoded>`. */
  lemma SsHostPort(lib: Lib, link: string, body: string, text: string, u: Url)
    requires Split(Strip(link), "://") == ["ss", body]
    requires lib.b64plusDecode(Split(body, "#")[0]) == Some(text)
    requires lib.urlparse("ss://" + text) == Some(u)
    ensures ParseLinkHostPort(lib, link) == UrlHostPort(u)
  {
    assert "ss" + "://" + text == "ss://" + text;
  }

  /** Any other scheme, compared exactly (so `VMESS` is not `vmess`), reads
      host and port from the link itself. */
  lemma OtherHostPort(lib: Lib, link: string, p0: string, p1: string, u: Url)
    requires Split(Strip(link), "://") == [p0, p1]
    requires p0 != "vmess" && p0 != "ss"
    requires lib.urlparse(Strip(link)) == Some(u)
    ensures ParseLinkHostPort(lib, link) == UrlHostPort(u)
  {
  }

  // ---------------------------------------------------------------------
  // get_proxy_port_range
  // ---------------------------------------------------------------------

  /** The numbers of every decimal run in every file name, in order. */
  function PortNumbers(filenames: seq<string>): (ns: seq<nat>)
    decreases |filenames|
  {
    if |filenames| == 0 then []
    else PortNumbers(filenames[..|filenames| - 1]) + RunValues(DigitRuns(filenames[|filenames| - 1]))
  }

  /** `int(port)` of one run. */
  function RunValue(run: string): nat
    requires IsDigits(run)
  {
    DigitsValue(run)
  }

  function RunValues(runs: seq<string>): (ns: seq<nat>)
    requires forall k :: 0 <= k < |runs| ==> IsDigits(runs[k])
    ensures |ns| == |runs|
    ensures forall k :: 0 <= k < |runs| ==> ns[k] == RunValue(runs[k])
  {
    if |runs| == 0 then [] else [RunValue(runs[0])] + RunValues(runs[1..])
  }

  /** The running `(min_port, max_port)` pair of the loop, started at `(99999, 1)`. */
  function MinMaxFrom(ns: seq<nat>): (r: (int, int))
    ensures r.0 <= 99999 && r.1 >= 1
    ensures forall k :: 0 <= k < |ns| ==> r.0 <= ns[k] <= r.1
    ensures r.0 == 99999 || exists k :: 0 <= k < |ns| && r.0 == ns[k]
    ensures r.1 == 1 || exists k :: 0 <= k < |ns| && r.1 == ns[k]
    decreases |ns|
  {
    if |ns| == 0 then (99999, 1)
    else
      var prev := MinMaxFrom(ns[..|ns| - 1]);
      var n := ns[|ns| - 1];
      var lo := if n < prev.0 then n else prev.0;
      var hi := if n > prev.1 then n else prev.1;
      assert forall k :: 0 <= k < |ns| - 1 ==> ns[..|ns| - 1][k] == ns[k];
      (lo, hi)
  }

  /** `get_proxy_port_range()` over the listed file names; `None` when it raises. */
  function ProxyPortRange(filenames: seq<string>): (r: Option<(int, int)>)
    ensures r.Some? ==> r.value.0 <= r.value.1
    ensures r.None? <==> |PortNumbers(filenames)| == 0
  {
    var ns := PortNumbers(filenames);
    var (lo, hi) := MinMaxFrom(ns);
    if lo > hi then None else Some((lo, hi))
  }

  /** Port numbers that lie in 1..99999 (as real listener ports do) give
      exactly the smallest and the largest of them. */
  lemma PortRangeExact(filenames: seq<string>)
    requires |PortNumbers(filenames)| > 0
    requires forall k :: 0 <= k < |PortNumbers(filenames)| ==> 1 <= PortNumbers(filenames)[k] <= 99999
    ensures var ns := PortNumbers(filenames);
      ProxyPortRange(filenames).Some?
      && (exists k :: 0 <= k < |ns| && ProxyPortRange(filenames).value.0 == ns[k])
      && (exists k :: 0 <= k < |ns| && ProxyPortRange(filenames).value.1 == ns[k])
      && (forall k :: 0 <= k < |ns| ==> ProxyPortRange(filenames).value.0 <= ns[k] <= ProxyPortRange(filenames).value.1)
  {
    var ns := PortNumbers(filenames);
    var r := MinMaxFrom(ns);
    assert 1 <= ns[0] <= 99999;
  }

  /** The bounds the loop starts from leak into the result: when the only
      number found exceeds 99999, the reported minimum is 99999, not that number. */
  lemma PortRangeCapped(filenames: seq<string>, n: nat)
    requires PortNumbers(filenames) == [n] && n > 99999
    ensures ProxyPortRange(filenames) == Some((99999, n as int))
  {
    assert [n][..0] == [];
  }

  /** No file name holds a digit. */
  predicate NoDigits(filenames: seq<string>) {
    forall i, j :: 0 <= i < |filenames| && 0 <= j < |filenames[i]| ==> !IsDigit(filenames[i][j])
  }

  /** `get_proxy_port_range` raises exactly when no file name holds a digit. */
  lemma {:induction false} PortRangeRaisesIff(filenames: seq<string>)
    ensures ProxyPortRange(filenames).None? <==> NoDigits(filenames)
    decreases |filenames|
  {
    if |filenames| > 0 {
      var init := filenames[..|filenames| - 1];
      var last := filenames[|filenames| - 1];
      PortRangeRaisesIff(init);
      assert NoDigits(filenames) <==> NoDigits(init) && (forall j :: 0 <= j < |last| ==> !IsDigit(last[j])) by {
        if NoDigits(init) && (forall j :: 0 <= j < |last| ==> !IsDigit(last[j])) {
          forall i, j | 0 <= i < |filenames| && 0 <= j < |filenames[i]|
            ensures !IsDigit(filenames[i][j])
          {
            if i < |filenames| - 1 {
              assert filenames[i] == init[i];
            }
          }
        }
      }
      if !(forall j :: 0 <= j < |last| ==> !IsDigit(last[j])) {
        var j :| 0 <= j < |last| && IsDigit(last[j]);
        DigitRunsNonEmpty(last, j);
      }
    }
  }
}
