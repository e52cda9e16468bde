/** The mihomo configuration pieces several modules build: one `mixed`
    listener per proxy (`get_mihomo_config` in submanager/mihomo_launcher.py,
    submanager/mihomo_proxy_pool.py and proxy_check/proxy_checker.py), the
    consecutive local ports given to a chunked proxy list, and the file that
    holds each chunk. The fixed DNS section of the base config is not
    modelled. */
module MihomoConfig {
  import opened Wrappers
  import opened Strings
  import opened PyValue
  import opened Pool

  /** `get_mihomo_config(proxies)`: for each proxy, a listener named
      `mixed{local_port}` on `proxy.get('local_port')` serving `proxy['name']`.
      `None` when a proxy has no name or its port cannot be rendered. */
  function ListenersFor(proxies: seq<Record>): (r: Option<seq<Record>>)
    ensures (r.Some? <==> forall i :: 0 <= i < |proxies| ==>
      "name" in proxies[i] && Render(Get(proxies[i], "local_port")).Some?)
    ensures r.Some? ==> |r.value| == |proxies|
    ensures (r.Some? ==> forall i :: 0 <= i < |proxies| ==>
      r.value[i] == Listener(Render(Get(proxies[i], "local_port")).value, Get(proxies[i], "local_port"), proxies[i]["name"]))
    decreases |proxies|
  {
    if |proxies| == 0 then Some([])
    else
      var p := proxies[0];
      assert forall i :: 1 <= i < |proxies| ==> proxies[i] == proxies[1..][i - 1];
      match (Render(Get(p, "local_port")), ListenersFor(proxies[1..]))
      case (Some(tag), Some(rest)) =>
        if "name" in p then Some([Listener(tag, Get(p, "local_port"), p["name"])] + rest) else None
      case _ => None
  }

  /** Proxy `j` of the list gets `local_port = base + j`. */
  function WithPorts(ps: seq<Record>, base: int): (r: seq<Record>)
    ensures |r| == |ps| && forall j :: 0 <= j < |ps| ==> r[j] == ps[j]["local_port" := Int(base + j)]
  {
    seq(|ps|, j requires 0 <= j < |ps| => ps[j]["local_port" := Int(base + j)])
  }

  /** Numbering two lists one after the other numbers their concatenation. */
  lemma WithPortsAppend(a: seq<Record>, b: seq<Record>, base: int)
    ensures WithPorts(a + b, base) == WithPorts(a, base) + WithPorts(b, base + |a|)
  {
  }

  /** Proxies carrying consecutive ports get listeners named and bound after
      those ports, in the same order. */
  lemma ListenersOfNumbered(ps: seq<Record>, base: int)
    requires forall j :: 0 <= j < |ps| ==> "name" in ps[j]
    ensures var r := ListenersFor(WithPorts(ps, base));
      r.Some? && |r.value| == |ps|
      && forall j :: 0 <= j < |ps| ==> r.value[j] == Listener(IntToString(base + j), Int(base + j), ps[j]["name"])
  {
  }

  /** The listeners built from list positions rather than from stored
      ports: listener `i` is named `mixed{tagBase + i}`, listens on
      `start + i` and serves `proxies[i]['name']`. `None` when a proxy has
      no name. */
  function IndexedListeners(proxies: seq<Record>, start: int, tagBase: int): (r: Option<seq<Record>>)
    ensures r.Some? <==> forall i :: 0 <= i < |proxies| ==> "name" in proxies[i]
    ensures r.Some? ==> |r.value| == |proxies|
    ensures (r.Some? ==> forall i :: 0 <= i < |proxies| ==>
      r.value[i] == Listener(IntToString(tagBase + i), Int(start + i), proxies[i]["name"]))
  {
    if forall i :: 0 <= i < |proxies| ==> "name" in proxies[i] then
      Some(seq(|proxies|, i requires 0 <= i < |proxies| => Listener(IntToString(tagBase + i), Int(start + i), proxies[i]["name"])))
    else None
  }

  /** Numbering by position gives the same listeners as first storing the
      ports in the proxies and then reading them back. */
  lemma IndexedListenersNumbered(proxies: seq<Record>, start: int)
    ensures IndexedListeners(proxies, start, start) == ListenersFor(WithPorts(proxies, start))
  {
    var a := IndexedListeners(proxies, start, start);
    var b := ListenersFor(WithPorts(proxies, start));
    if a.Some? {
      ListenersOfNumbered(proxies, start);
      assert a.value == b.value;
    } else {
      assert b.None?;
    }
  }

  /** One generated config file: the two port numbers in its name and its
      proxies, numbered with their local ports. */
  datatype ConfigFile = ConfigFile(first: int, last: int, proxies: seq<Record>)
  {
    /** `mihomo_{first}_{last}.yml`. */
    function Name(): string {
      "mihomo_" + IntToString(first) + "_" + IntToString(last) + ".yml"
    }

    /** The file's `listeners` section. */
    function Listeners(): Option<seq<Record>> {
      ListenersFor(proxies)
    }
  }

  /** The loop of `generate_mihomo_configs`: the chunk at list position
      `offset` has its proxies numbered from `start + offset` and is written
      to `mihomo_{start + offset}_{start + offset + len(chunk) + endOffset}.yml`
      (`endOffset` is 0 in the launcher and -1 in the sub-link pool). */
  function ChunkFiles(chunks: seq<seq<Record>>, start: int, offset: int, endOffset: int): (r: seq<ConfigFile>)
    ensures |r| == |chunks|
    ensures forall c :: 0 <= c < |chunks| ==> |r[c].proxies| == |chunks[c]| && r[c].last == r[c].first + |chunks[c]| + endOffset
    decreases |chunks|
  {
    if |chunks| == 0 then []
    else
      var first := start + offset;
      [ConfigFile(first, first + |chunks[0]| + endOffset, WithPorts(chunks[0], first))]
        + ChunkFiles(chunks[1..], start, offset + |chunks[0]|, endOffset)
  }

  /** The proxies of all files, in order. */
  function AllProxies(files: seq<ConfigFile>): seq<Record> {
    if |files| == 0 then [] else files[0].proxies + AllProxies(files[1..])
  }

  /** Across all files, the proxy at overall position `g` listens on
      `start + offset + g`: chunking does not change the numbering. */
  lemma {:induction false} ChunkFilesNumbering(chunks: seq<seq<Record>>, start: int, offset: int, endOffset: int)
    ensures AllProxies(ChunkFiles(chunks, start, offset, endOffset)) == WithPorts(Flatten(chunks), start + offset)
    decreases |chunks|
  {
    var files := ChunkFiles(chunks, start, offset, endOffset);
    if |chunks| > 0 {
      var rest := ChunkFiles(chunks[1..], start, offset + |chunks[0]|, endOffset);
      assert files[1..] == rest;
      ChunkFilesNumbering(chunks[1..], start, offset + |chunks[0]|, endOffset);
      WithPortsAppend(chunks[0], Flatten(chunks[1..]), start + offset);
    }
  }

  /** File `c` starts at the first port after those of the chunks before it. */
  lemma {:induction false} ChunkFileFirstPort(chunks: seq<seq<Record>>, start: int, offset: int, endOffset: int, c: nat)
    requires c < |chunks|
    ensures ChunkFiles(chunks, start, offset, endOffset)[c].first == start + offset + |Flatten(chunks[..c])|
    decreases c
  {
    if c > 0 {
      var rest := ChunkFiles(chunks[1..], start, offset + |chunks[0]|, endOffset);
      assert ChunkFiles(chunks, start, offset, endOffset)[c] == rest[c - 1];
      ChunkFileFirstPort(chunks[1..], start, offset + |chunks[0]|, endOffset, c - 1);
      assert chunks[..c] == [chunks[0]] + chunks[1..][..c - 1];
      assert Flatten(chunks[..c]) == chunks[0] + Flatten(chunks[1..][..c - 1]);
    } else {
      assert chunks[..0] == [];
    }
  }

  /** When every proxy has a name, every file's listeners exist and listener
      `j` of a file serves its proxy `j` on port `first + j`. */
  lemma ChunkFileListeners(chunks: seq<seq<Record>>, start: int, offset: int, endOffset: int, c: nat)
    requires c < |chunks| && forall j :: 0 <= j < |chunks[c]| ==> "name" in chunks[c][j]
    ensures ServesOwnPorts(ChunkFiles(chunks, start, offset, endOffset)[c])
  {
    var f := ChunkFiles(chunks, start, offset, endOffset)[c];
    assert f.proxies == WithPorts(chunks[c], f.first) by {
      ChunkFileProxies(chunks, start, offset, endOffset, c);
    }
    ListenersOfNumbered(chunks[c], f.first);
  }

  /** The proxies of file `c` are chunk `c` numbered from the file's first port. */
  lemma {:induction false} ChunkFileProxies(chunks: seq<seq<Record>>, start: int, offset: int, endOffset: int, c: nat)
    requires c < |chunks|
    ensures var f := ChunkFiles(chunks, start, offset, endOffset)[c]; f.proxies == WithPorts(chunks[c], f.first)
    decreases c
  {
    if c > 0 {
      var rest := ChunkFiles(chunks[1..], start, offset + |chunks[0]|, endOffset);
      assert ChunkFiles(chunks, start, offset, endOffset)[c] == rest[c - 1];
      ChunkFileProxies(chunks[1..], start, offset + |chunks[0]|, endOffset, c - 1);
    }
  }

  /** The file's listeners exist and listener `j` is `mixed{first + j}` on
      port `first + j`, serving the file's proxy `j`. */
  predicate ServesOwnPorts(f: ConfigFile) {
    var ls := f.Listeners();
    ls.Some? && |ls.value| == |f.proxies|
    && forall j :: 0 <= j < |f.proxies| ==>
      "name" in f.proxies[j] && ls.value[j] == Listener(IntToString(f.first + j), Int(f.first + j), f.proxies[j]["name"])
  }

  /** The files `generate_mihomo_configs` writes for `ps`: chunks of `n`,
      numbered from `start`; the end port in a name is `endOffset` past the
      chunk's end. */
  function Files(ps: seq<Record>, start: int, n: nat, endOffset: int): (r: seq<ConfigFile>)
    requires n > 0
    ensures |r| == |Chunks(ps, n)|
    ensures AllProxies(r) == WithPorts(ps, start)
  {
    var chunks := Chunks(ps, n);
    var files := ChunkFiles(chunks, start, 0, endOffset);
    ChunkFilesNumbering(chunks, start, 0, endOffset);
    assert AllProxies(files) == WithPorts(Flatten(chunks), start + 0);
    assert Flatten(chunks) == ps && start + 0 == start;
    files
  }

  /** File `c` starts at port `start + n * c`, holds between 1 and `n`
      proxies (exactly `n` unless it is the last file) and names the port
      `endOffset` past its end. */
  lemma FilesNames(ps: seq<Record>, start: int, n: nat, endOffset: int, c: nat)
    requires n > 0 && c < |Files(ps, start, n, endOffset)|
    ensures var files := Files(ps, start, n, endOffset);
      files[c].first == start + n * c
      && files[c].last == files[c].first + |files[c].proxies| + endOffset
      && 0 < |files[c].proxies| <= n
      && (c < |files| - 1 ==> |files[c].proxies| == n)
  {
    ChunkFileFirstPort(Chunks(ps, n), start, 0, endOffset, c);
    ChunksPrefixLength(ps, n, c);
  }

  /** When every proxy has a name, every file's listeners exist: listener
      `j` is `mixed{first + j}` on port `first + j`, serving the file's
      proxy `j`. */
  lemma FilesListeners(ps: seq<Record>, start: int, n: nat, endOffset: int, c: nat)
    requires n > 0 && c < |Files(ps, start, n, endOffset)|
    requires forall i :: 0 <= i < |ps| ==> "name" in ps[i]
    ensures ServesOwnPorts(Files(ps, start, n, endOffset)[c])
  {
    var chunks := Chunks(ps, n);
    forall j | 0 <= j < |chunks[c]|
      ensures "name" in chunks[c][j]
    {
      FlattenMember(chunks, c, j);
    }
    assert Files(ps, start, n, endOffset) == ChunkFiles(chunks, start, 0, endOffset);
    ChunkFileListeners(chunks, start, 0, endOffset, c);
  }
}
