/** The JSON/YAML-shaped values the repository keeps in its dictionaries,
    with Python's truthiness, `int()` and `str()` on them. */
module PyValue {
  import opened Wrappers
  import opened Strings

  datatype Value =
    | Str(s: string)
    | Int(i: int)
    | Real(x: real)
    | Bool(b: bool)
    | Null
    | List(items: seq<Value>)
    | Dict(fields: map<string, Value>)

  /** A Python dictionary with string keys (a proxy, an airport, a panel inbound). */
  type Record = map<string, Value>

  /** Python `bool(v)`. */
  predicate Truthy(v: Value) {
    match v
    case Str(s) => s != ""
    case Int(i) => i != 0
    case Real(x) => x != 0.0
    case Bool(b) => b
    case Null => false
    case List(items) => items != []
    case Dict(fields) => fields != map[]
  }

  /** Python `d.get(k)`: `Null` when the key is absent. */
  function Get(r: Record, k: string): Value {
    if k in r then r[k] else Null
  }

  /** Python `needle in v` for a text needle: a substring test on text,
      an element test on a list and a key test on a mapping; `None` for the
      `TypeError` any other value raises. */
  function PyIn(needle: string, v: Value): (r: Option<bool>)
    ensures r.Some? <==> v.Str? || v.List? || v.Dict?
  {
    match v
    case Str(s) => Some(Contains(s, needle))
    case List(items) => Some(Str(needle) in items)
    case Dict(fields) => Some(needle in fields)
    case _ => None
  }

  /** Python `d.get(k, default)`. */
  function GetOr(r: Record, k: string, default: Value): Value {
    if k in r then r[k] else default
  }

  /** `d.get(k)` is truthy. */
  predicate HasTruthy(r: Record, k: string) {
    Truthy(Get(r, k))
  }

  /** The string held under `k`, or `default` when the key is missing or holds no string. */
  function StrOr(r: Record, k: string, default: string): string {
    if k in r && r[k].Str? then r[k].s else default
  }

  /** Python `d.get(k) or default` for a string-valued field. */
  function StrOrIfFalsy(r: Record, k: string, default: string): (s: string)
    ensures s == default || (k in r && r[k] == Str(s) && s != "")
  {
    if k in r && r[k].Str? && r[k].s != "" then r[k].s else default
  }

  /** A copy of `r` without the given keys (Python `pop(k, None)` for each). */
  function Without(r: Record, keys: set<string>): (o: Record)
    ensures forall k :: k in o <==> k in r && k !in keys
    ensures forall k :: k in o ==> o[k] == r[k]
  {
    map k | k in r && k !in keys :: r[k]
  }

  /** The keys the checkers keep alongside each proxy and strip before launching it. */
  const Bookkeeping: set<string> := {"fail_count", "success_count", "last_check_time"}

  /** Python `int(x)` truncates a float toward zero. */
  function Truncate(x: real): (i: int)
    ensures x >= 0.0 ==> i as real <= x < i as real + 1.0
    ensures x < 0.0 ==> i as real - 1.0 < x <= i as real
  {
    if x >= 0.0 then x.Floor else -((-x).Floor)
  }

  /** Python `int(v)`; `None` stands for the `ValueError`/`TypeError` it raises. */
  function PyInt(v: Value): (r: Option<int>)
    ensures v.Int? ==> r == Some(v.i)
    ensures v.Null? || v.List? || v.Dict? ==> r.None?
  {
    match v
    case Int(i) => Some(i)
    case Bool(b) => Some(if b then 1 else 0)
    case Str(s) => PyIntOfStr(s)
    case Real(x) => Some(Truncate(x))
    case _ => None
  }

  /** The integer counter stored under `k`; a missing counter reads as 0. */
  function Counter(r: Record, k: string): int {
    if k in r && r[k].Int? then r[k].i else 0
  }

  /** Python `str(v)` / `f"{v}"` for the scalar values that appear in keys
      and names. `None` marks composite and float values, whose rendering is not modelled. */
  function Render(v: Value): (r: Option<string>)
    ensures v.Str? ==> r == Some(v.s)
    ensures v.Int? ==> r == Some(IntToString(v.i))
  {
    match v
    case Str(s) => Some(s)
    case Int(i) => Some(IntToString(i))
    case Bool(b) => Some(if b then "True" else "False")
    case Null => Some("None")
    case _ => None
  }

  /** The `f"{p['server']}:{p['port']}"` key under which proxies are stored.
      `None` when a field is missing (Python's `KeyError`) or cannot be rendered. */
  function ServerPortKey(p: Record): (r: Option<string>)
    ensures r.Some? ==> "server" in p && "port" in p
    ensures r.Some? ==> Render(p["server"]).Some? && Render(p["port"]).Some?
    ensures r.Some? ==> r.value == Render(p["server"]).value + ":" + Render(p["port"]).value
  {
    if "server" in p && "port" in p then
      match (Render(p["server"]), Render(p["port"]))
      case (Some(s), Some(t)) => Some(s + ":" + t)
      case _ => None
    else None
  }

  /** The `f"{p.get('server')}:{p.get('port')}"` key: a missing field renders as `None`. */
  function GetServerPortKey(p: Record): Option<string> {
    match (Render(Get(p, "server")), Render(Get(p, "port")))
    case (Some(s), Some(t)) => Some(s + ":" + t)
    case _ => None
  }

  /** The number a numeric value stands for (`True`/`False` count as 1/0). */
  function Number(v: Value): (r: Option<real>)
    ensures r.Some? <==> v.Int? || v.Real? || v.Bool?
  {
    match v
    case Int(i) => Some(i as real)
    case Real(x) => Some(x)
    case Bool(b) => Some(if b then 1.0 else 0.0)
    case _ => None
  }

  /** Python `a >= b` between two numbers or two strings. `None` stands for
      the `TypeError` a mixed comparison raises (comparisons between two lists
      are not modelled and also give `None`). */
  function PyGe(a: Value, b: Value): (r: Option<bool>)
    ensures a.Int? && b.Int? ==> r == Some(a.i >= b.i)
    ensures a.Str? && b.Str? ==> r == Some(!StrLess(a.s, b.s))
    ensures r.Some? <==> (Number(a).Some? && Number(b).Some?) || (a.Str? && b.Str?)
  {
    if a.Str? && b.Str? then Some(!StrLess(a.s, b.s))
    else match (Number(a), Number(b))
      case (Some(x), Some(y)) => Some(x >= y)
      case _ => None
  }

  /** The fields of each value, when every value is a dictionary; `None` when
      one is not (using it as a `dict` raises). */
  function Records(vs: seq<Value>): (r: Option<seq<Record>>)
    ensures r.Some? <==> forall i :: 0 <= i < |vs| ==> vs[i].Dict?
    ensures r.Some? ==> |r.value| == |vs| && forall i :: 0 <= i < |vs| ==> vs[i] == Dict(r.value[i])
  {
    if |vs| == 0 then Some([])
    else if !vs[0].Dict? then None
    else
      match Records(vs[1..])
      case None => None
      case Some(rest) => Some([vs[0].fields] + rest)
  }
}
