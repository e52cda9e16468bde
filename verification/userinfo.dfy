/** The `subscription-userinfo` header (`upload=…; download=…; total=…; expire=…`)
    as subscribe/airport.py, ssrspeed/parser/parser.py and
    submanager/mihomo_proxy_pool.py split it: items separated by `; `, each
    split at `=`. */
module UserInfo {
  import opened Wrappers
  import opened Strings

  /** The `{k: int(v)}` dictionary of a `k=v; k=v` header; `None` when an item
      has no `=` (`IndexError`) or a non-integer value (`ValueError`).
      As in the source, only the text between the first and second `=` is
      the value, and a later item wins over an earlier one with the same key. */
  function HeaderValues(items: seq<string>): (r: Option<map<string, int>>)
    decreases |items|
  {
    if |items| == 0 then Some(map[])
    else
      match HeaderValues(items[..|items| - 1])
      case None => None
      case Some(prev) =>
        match HeaderEntry(items[|items| - 1])
        case None => None
        case Some(e) => Some(prev[e.0 := e.1])
  }

  /** `(item.split('=')[0], int(item.split('=')[1]))`. */
  function HeaderEntry(item: string): Option<(string, int)> {
    var parts := Split(item, "=");
    if |parts| < 2 then None
    else
      match PyIntOfStr(parts[1])
      case None => None
      case Some(v) => Some((parts[0], v))
  }

  /** The header dictionary of a `subscription-userinfo` value. */
  function Header(t: string): Option<map<string, int>> {
    HeaderValues(Split(t, "; "))
  }

  /** The header names all four `subscription-userinfo` keys. */
  predicate HasTrafficKeys<V>(v: map<string, V>) {
    "total" in v && "upload" in v && "download" in v && "expire" in v
  }

  /** The `k=n` items of a header written from key/number pairs. */
  function HeaderItems(kvs: seq<(string, nat)>): (items: seq<string>)
    ensures |items| == |kvs|
    ensures forall i :: 0 <= i < |kvs| ==> items[i] == kvs[i].0 + "=" + NatToString(kvs[i].1)
  {
    if |kvs| == 0 then []
    else HeaderItems(kvs[..|kvs| - 1]) + [kvs[|kvs| - 1].0 + "=" + NatToString(kvs[|kvs| - 1].1)]
  }

  /** The dictionary such a header stands for: a later pair overrides an earlier one. */
  function PairsMap(kvs: seq<(string, nat)>): map<string, int> {
    if |kvs| == 0 then map[]
    else PairsMap(kvs[..|kvs| - 1])[kvs[|kvs| - 1].0 := kvs[|kvs| - 1].1]
  }

  /** Keys usable in a header: no `=` and no `;`. */
  predicate PlainKeys(kvs: seq<(string, nat)>) {
    forall i :: 0 <= i < |kvs| ==> '=' !in kvs[i].0 && ';' !in kvs[i].0
  }

  /** An item `k=n` with `n` a decimal number contributes `k: n`. */
  lemma ItemValue(prev: seq<string>, k: string, n: nat)
    requires '=' !in k && HeaderValues(prev).Some?
    ensures HeaderValues(prev + [k + "=" + NatToString(n)]) == Some(HeaderValues(prev).value[k := n])
  {
    var s := NatToString(n);
    var items := prev + [k + "=" + s];
    assert items[..|items| - 1] == prev;
    assert Join([k, s], "=") == k + "=" + s;
    SplitJoinNoSep([k, s], "=");
    assert HeaderEntry(k + "=" + s) == Some((k, n));
  }

  /** Reading back the items written from pairs gives the pairs' dictionary. */
  lemma {:induction false} HeaderValuesOfItems(kvs: seq<(string, nat)>)
    requires PlainKeys(kvs)
    ensures HeaderValues(HeaderItems(kvs)) == Some(PairsMap(kvs))
    decreases |kvs|
  {
    if |kvs| > 0 {
      var init := kvs[..|kvs| - 1];
      var (k, n) := kvs[|kvs| - 1];
      HeaderValuesOfItems(init);
      ItemValue(HeaderItems(init), k, n);
    }
  }

  /** `k=n` for a plain key and a decimal number holds no `;`. */
  lemma ItemNoSemicolon(k: string, n: nat)
    requires ';' !in k
    ensures ';' !in k + "=" + NatToString(n)
  {
    var s := NatToString(n);
    assert forall i :: 0 <= i < |s| ==> IsDigit(s[i]);
  }

  /** Items written from pairs with plain keys are read back as the pairs' dictionary. */
  lemma HeaderRoundTrip(kvs: seq<(string, nat)>)
    requires |kvs| > 0 && PlainKeys(kvs)
    ensures Header(Join(HeaderItems(kvs), "; ")) == Some(PairsMap(kvs))
  {
    var items := HeaderItems(kvs);
    forall i | 0 <= i < |items|
      ensures ';' !in items[i]
    {
      ItemNoSemicolon(kvs[i].0, kvs[i].1);
    }
    SplitJoinNoSep(items, "; ");
    HeaderValuesOfItems(kvs);
  }

  // ---------------------------------------------------------------------
  // The text-valued variant: `{k: v}` with the `int()` applied later
  // ---------------------------------------------------------------------

  /** `{item.split('=')[0]: item.split('=')[1] for item in items}`; `None`
      when an item has no `=`. */
  function RawValues(items: seq<string>): (r: Option<map<string, string>>)
    ensures r.None? <==> exists i :: 0 <= i < |items| && !Contains(items[i], "=")
    decreases |items|
  {
    if |items| == 0 then Some(map[])
    else
      var last := items[|items| - 1];
      var prev := RawValues(items[..|items| - 1]);
      assert forall i :: 0 <= i < |items| - 1 ==> items[..|items| - 1][i] == items[i];
      var parts := Split(last, "=");
      SplitCountsSeparator(last);
      match prev
      case None => None
      case Some(m) => if |parts| < 2 then None else Some(m[parts[0] := parts[1]])
  }

  /** `Split` at `=` yields a second piece exactly when the text holds an `=`. */
  lemma SplitCountsSeparator(s: string)
    ensures |Split(s, "=")| >= 2 <==> Contains(s, "=")
  {
  }

  /** A text header's dictionary. */
  function RawHeader(t: string): Option<map<string, string>> {
    RawValues(Split(t, "; "))
  }

  /** Each value of the integer dictionary is `int()` of the text dictionary's value. */
  lemma {:induction false} HeaderValuesAreInts(items: seq<string>)
    requires HeaderValues(items).Some?
    ensures RawValues(items).Some?
    ensures HeaderValues(items).value.Keys == RawValues(items).value.Keys
    ensures forall k :: k in HeaderValues(items).value ==>
      PyIntOfStr(RawValues(items).value[k]) == Some(HeaderValues(items).value[k])
    decreases |items|
  {
    if |items| > 0 {
      HeaderValuesAreInts(items[..|items| - 1]);
      SplitCountsSeparator(items[|items| - 1]);
    }
  }

  /** The integer header is `int()` of the text header, key by key. */
  lemma HeaderIsRaw(t: string)
    requires Header(t).Some?
    ensures RawHeader(t).Some? && RawHeader(t).value.Keys == Header(t).value.Keys
    ensures forall k :: k in Header(t).value ==> PyIntOfStr(RawHeader(t).value[k]) == Some(Header(t).value[k])
  {
    HeaderValuesAreInts(Split(t, "; "));
  }

  /** One key of the integer header is `int()` of that key's text. */
  lemma HeaderIsRawAt(t: string, k: string)
    requires Header(t).Some? && k in Header(t).value
    ensures RawHeader(t).Some? && k in RawHeader(t).value
    ensures PyIntOfStr(RawHeader(t).value[k]) == Some(Header(t).value[k])
  {
    HeaderIsRaw(t);
  }
}
