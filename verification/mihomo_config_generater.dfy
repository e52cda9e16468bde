/** submanager/mihomo_config_generater.py: `generate_yaml_file` turns a
    parsed clash document into a mihomo config whose listener `i` is
    `mixed{i}` on port `start_port + i`, serving proxy `i`. The YAML parse
    and dump, the fixed DNS section and the closing message are not
    modelled; the parsed document is the input. */
module MihomoConfigGenerater {
  import opened Wrappers
  import opened Strings
  import opened PyValue
  import opened Pool
  import opened MihomoConfig
  import MihomoProxyPool

  /** What `generate_yaml_file` writes: the listeners and the `proxies`
      value copied from the input document. */
  datatype Generated = Generated(listeners: seq<Record>, proxies: Value)

  /** `generate_yaml_file(input_yaml, start_port, …)` on the parsed document
      `doc`. `None` stands for the exception the function catches and
      reports: `doc` has no `proxies` key, `len()` of it raises, or a proxy
      is not a dictionary with a `name`. */
  function GenerateYaml(doc: Value, start: int): (r: Option<Generated>)
    ensures !doc.Dict? || "proxies" !in doc.fields ==> r.None?
    ensures r.Some? ==> r.value.proxies == doc.fields["proxies"]
    ensures r.Some? ==> Some(|r.value.listeners|) == MihomoProxyPool.PyLen(doc.fields["proxies"])
  {
    if !doc.Dict? || "proxies" !in doc.fields then None
    else
      var proxies := doc.fields["proxies"];
      match MihomoProxyPool.PyLen(proxies)
      case None => None
      case Some(n) =>
        if n == 0 then Some(Generated([], proxies))
        else if !proxies.List? then None
        else
          match Records(proxies.items)
          case None => None
          case Some(rs) =>
            match IndexedListeners(rs, start, 0)
            case None => None
            case Some(ls) => Some(Generated(ls, proxies))
  }

  /** For a list of proxy dictionaries the config is built exactly when each
      has a `name`; listener `i` is then `mixed{i}` on `start + i` serving
      proxy `i`. */
  lemma GenerateYamlListeners(ps: seq<Record>, start: int)
    ensures var r := GenerateYaml(Value.Dict(map["proxies" := List(seq(|ps|, i requires 0 <= i < |ps| => Value.Dict(ps[i])))]), start);
      (r.Some? <==> forall i :: 0 <= i < |ps| ==> "name" in ps[i])
      && (r.Some? ==> |r.value.listeners| == |ps| && forall i :: 0 <= i < |ps| ==>
        r.value.listeners[i] == Listener(IntToString(i), Int(start + i), ps[i]["name"]))
  {
    var items := seq(|ps|, i requires 0 <= i < |ps| => Value.Dict(ps[i]));
    var rs := Records(items).value;
    assert rs == ps;
  }

  /** An empty `proxies` entry (an empty list, string or mapping) gives an
      empty listener list; a YAML `proxies:` with no value is `None`, whose
      `len()` raises. */
  lemma GenerateYamlEmpty(start: int)
    ensures GenerateYaml(Value.Dict(map["proxies" := List([])]), start) == Some(Generated([], List([])))
    ensures GenerateYaml(Value.Dict(map["proxies" := Null]), start).None?
  {
  }

  /** The generated listeners listen on the same ports and serve the same
      proxies as the pool's `generate_mihomo_config` for the same start
      port; only their names differ (`mixed{i}` here, `mixed{start + i}`
      there). */
  lemma GenerateYamlAgreesWithPool(ps: seq<Record>, start: int)
    requires forall i :: 0 <= i < |ps| ==> "name" in ps[i]
    ensures var r := GenerateYaml(Value.Dict(map["proxies" := List(seq(|ps|, i requires 0 <= i < |ps| => Value.Dict(ps[i])))]), start);
      var pool := MihomoProxyPool.GeneratePoolConfig(ps, start);
      r.Some? && pool.Some? && |r.value.listeners| == |pool.value.listeners|
      && forall i :: 0 <= i < |ps| ==>
        r.value.listeners[i]["port"] == pool.value.listeners[i]["port"]
        && r.value.listeners[i]["proxy"] == pool.value.listeners[i]["proxy"]
  {
    GenerateYamlListeners(ps, start);
  }
}
