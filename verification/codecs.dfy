/** The library pieces the repository calls but does not define: `urlparse`,
    `parse_qs`, base64, JSON, percent-quoting and the random generators.
    They are given to the model as a record of total functions, so every
    property proved holds whatever these libraries return. */
module Codecs {
  import opened Wrappers
  import opened PyValue

  /** `urlparse(...).port`: absent, a number, or a value whose access raises `ValueError`. */
  datatype Port = NoPort | Port(n: nat) | BadPort

  /** The parts of `urllib.parse.urlparse` the repository reads. */
  datatype Url = Url(
    scheme: string,
    username: Option<string>,
    password: Option<string>,
    hostname: Option<string>,
    port: Port,
    netloc: string,
    path: string,
    query: string,
    fragment: string)

  /** The result of `parse_qs`: every key holds a non-empty list of values. */
  type Query = q: map<string, seq<string>> | forall k :: k in q ==> |q[k]| > 0 witness map[]

  /** `query.get(k, [default])[0]`. */
  function QueryFirst(q: Query, k: string, default: string): string {
    if k in q then q[k][0] else default
  }

  datatype Lib = Lib(
    /** `urlparse(s)`; `None` when it raises. */
    urlparse: string -> Option<Url>,
    /** `parse_qs(s)`. */
    parseQs: string -> Query,
    /** `base64.b64decode(s).decode('utf-8')`; `None` when either step raises. */
    b64decode: string -> Option<string>,
    /** `base64.urlsafe_b64decode(s).decode('utf-8')`; `None` when either step raises. */
    urlsafeB64decode: string -> Option<string>,
    /** `b64plus.decode(s).decode('utf-8')` (the repository's padding-tolerant
        base64 helper, which is not part of this model); `None` when it raises. */
    b64plusDecode: string -> Option<string>,
    /** `base64.b64encode(s.encode()).decode()`. */
    b64encode: string -> string,
    /** `base64.urlsafe_b64encode(s.encode()).decode()`. */
    urlsafeB64encode: string -> string,
    /** `json.loads(s)`; `None` when it raises. */
    jsonLoads: string -> Option<Value>,
    /** `json.dumps(v, ...)`. */
    jsonDumps: Value -> string,
    /** `urllib.parse.unquote(s)`. */
    unquote: string -> string,
    /** `urllib.parse.quote(s)`. */
    quote: string -> string,
    /** The eight random characters `unique_name` draws for a missing name. */
    randomName: string,
    /** The random browser user agent placed in trojan websocket headers. */
    userAgent: string)

  /** The `Value` a parsed port becomes in a record (`None` when absent). */
  function PortValue(p: Port): Value
    requires !p.BadPort?
  {
    if p.Port? then Int(p.n) else Null
  }

  /** An optional string as a record value. */
  function OptStr(o: Option<string>): Value {
    if o.Some? then Str(o.value) else Null
  }

  /** A list of strings as a record value. */
  function StrList(xs: seq<string>): (v: Value)
    ensures v.List? && |v.items| == |xs|
    ensures forall i :: 0 <= i < |xs| ==> v.items[i] == Str(xs[i])
  {
    if |xs| == 0 then List([]) else List([Str(xs[0])] + StrList(xs[1..]).items)
  }
}
