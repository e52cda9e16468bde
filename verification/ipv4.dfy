/** `is_valid_ipv4`, which submanager/merge_sub_upload.py and
    submanager/xui_scan/xui_success_to_db.py each define with the same body:
    four dot-separated decimal parts in 0..255 without leading zeros. */
module Ipv4 {
  import opened Strings

  /** One part passes the loop's checks: `part.isdigit()`, `0 <= int(part) <= 255`
      and `part == str(int(part))`. */
  predicate PartOk(p: string) {
    IsDigits(p) && DigitsValue(p) <= 255 && p == NatToString(DigitsValue(p))
  }

  /** A part such as `01` is rejected: a zero may only stand alone. */
  lemma LeadingZeroRejected(p: string)
    requires |p| > 1 && p[0] == '0'
    ensures !PartOk(p)
  {
    if IsDigits(p) {
      CanonicalDigits(p);
    }
  }

  /** The loop over the parts: every one passes. */
  function AllPartsOk(parts: seq<string>): (r: bool)
    ensures r <==> forall i :: 0 <= i < |parts| ==> PartOk(parts[i])
  {
    |parts| == 0 || (PartOk(parts[0]) && AllPartsOk(parts[1..]))
  }

  /** The dotted-quad text of four octets. */
  function Quad(a: nat, b: nat, c: nat, d: nat): string {
    NatToString(a) + "." + NatToString(b) + "." + NatToString(c) + "." + NatToString(d)
  }

  /** The independent reading of "an IPv4 address": the decimal rendering of four octets. */
  ghost predicate IsDottedQuad(s: string) {
    exists a: nat, b: nat, c: nat, d: nat :: a <= 255 && b <= 255 && c <= 255 && d <= 255 && s == Quad(a, b, c, d)
  }

  /** `is_valid_ipv4(ip_str)`: it holds exactly for the dotted quads. */
  function IsValidIpv4(s: string): (r: bool)
    ensures r ==> |Split(s, ".")| == 4
    ensures r <==> IsDottedQuad(s)
  {
    var parts := Split(s, ".");
    var r := |parts| == 4 && AllPartsOk(parts);
    ValidIffQuad(s);
    r
  }

  lemma JoinFour(p: seq<string>)
    requires |p| == 4
    ensures Join(p, ".") == p[0] + "." + p[1] + "." + p[2] + "." + p[3]
  {
    var t := p[1..];
    var u := t[1..];
    var w := u[1..];
    assert w == [p[3]];
    var j2 := p[2] + "." + p[3];
    assert Join(u, ".") == j2;
    var j1 := p[1] + "." + j2;
    assert Join(t, ".") == j1;
    assert Join(p, ".") == p[0] + "." + j1;
    assert p[0] + "." + j1 == p[0] + "." + p[1] + "." + p[2] + "." + p[3];
  }

  /** A decimal rendering holds no dot. */
  lemma NoDotInDigits(n: nat)
    ensures '.' !in NatToString(n)
  {
  }

  lemma ValidIffQuad(s: string)
    ensures (|Split(s, ".")| == 4 && AllPartsOk(Split(s, "."))) <==> IsDottedQuad(s)
  {
    if |Split(s, ".")| == 4 && AllPartsOk(Split(s, ".")) {
      ValidIsQuad(s);
    }
    if IsDottedQuad(s) {
      var a: nat, b: nat, c: nat, d: nat :| a <= 255 && b <= 255 && c <= 255 && d <= 255 && s == Quad(a, b, c, d);
      QuadIsValid(a, b, c, d);
    }
  }

  lemma ValidIsQuad(s: string)
    requires |Split(s, ".")| == 4 && AllPartsOk(Split(s, "."))
    ensures IsDottedQuad(s)
  {
    var parts := Split(s, ".");
    JoinFour(parts);
    assert PartOk(parts[0]) && PartOk(parts[1]) && PartOk(parts[2]) && PartOk(parts[3]);
    assert s == Quad(DigitsValue(parts[0]), DigitsValue(parts[1]), DigitsValue(parts[2]), DigitsValue(parts[3]));
  }

  lemma QuadIsValid(a: nat, b: nat, c: nat, d: nat)
    requires a <= 255 && b <= 255 && c <= 255 && d <= 255
    ensures Split(Quad(a, b, c, d), ".") == [NatToString(a), NatToString(b), NatToString(c), NatToString(d)]
    ensures AllPartsOk(Split(Quad(a, b, c, d), "."))
  {
    var items := [NatToString(a), NatToString(b), NatToString(c), NatToString(d)];
    NoDotInDigits(a);
    NoDotInDigits(b);
    NoDotInDigits(c);
    NoDotInDigits(d);
    JoinFour(items);
    SplitJoinNoSep(items, ".");
  }
}
