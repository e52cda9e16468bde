/** The two name de-duplication schemes of the repository:
    `unique_name` in submanager/convert.py (a per-batch counter, `_k` suffixes)
    and the `get_new_name` helper copied into several modules (cumulative `-i` suffixes). */
module Naming {
  import opened Strings

  // ---------------------------------------------------------------------
  // unique_name: counters per requested name
  // ---------------------------------------------------------------------

  /** How often each requested name has been handed out in the current batch. */
  type Counts = map<string, nat>

  function Count(names: Counts, t: string): nat {
    if t in names then names[t] else 0
  }

  datatype Named = Named(name: string, names: Counts)

  /** `unique_name(names, temp_name)`. An empty request takes `random`
      (the eight random letters and digits the source draws). */
  function UniqueName(names: Counts, temp: string, random: string): (r: Named)
    ensures var t := if temp == "" then random else temp;
      && r.names.Keys == names.Keys + {t}
      && Count(r.names, t) == Count(names, t) + 1
      && (forall k :: k in names && k != t ==> r.names[k] == names[k])
      && (Count(names, t) == 0 ==> r.name == t)
      && (Count(names, t) > 0 ==> r.name == t + "_" + NatToString(Count(names, t)))
  {
    var t := if temp == "" then random else temp;
    var count := Count(names, t);
    Named(if count == 0 then t else t + "_" + NatToString(count), names[t := count + 1])
  }

  /** Requesting `t` k+1 times in a batch where it was unused yields `t` and then `t_1` … `t_k`. */
  function Repeat(t: string, n: nat): (ts: seq<string>)
    ensures |ts| == n && forall i :: 0 <= i < n ==> ts[i] == t
  {
    if n == 0 then [] else Repeat(t, n - 1) + [t]
  }

  /** Hands out a whole sequence of requested names with one shared counter map. */
  function UniqueNames(names: Counts, temps: seq<string>, random: string): (r: (seq<string>, Counts))
    ensures |r.0| == |temps|
    decreases |temps|
  {
    if |temps| == 0 then ([], names)
    else
      var prev := UniqueNames(names, temps[..|temps| - 1], random);
      var n := UniqueName(prev.1, temps[|temps| - 1], random);
      (prev.0 + [n.name], n.names)
  }

  /** After `n` requests of a non-empty `t`, its counter has grown by exactly `n`. */
  lemma RepeatCount(names: Counts, t: string, n: nat, random: string)
    requires t != ""
    ensures Count(UniqueNames(names, Repeat(t, n), random).1, t) == Count(names, t) + n
  {
    SameNameCount(names, Repeat(t, n), t, random);
  }

  /** Requesting the same non-empty name over and over raises its counter once per request. */
  lemma {:induction false} SameNameCount(names: Counts, temps: seq<string>, t: string, random: string)
    requires t != "" && forall i :: 0 <= i < |temps| ==> temps[i] == t
    ensures Count(UniqueNames(names, temps, random).1, t) == Count(names, t) + |temps|
    decreases |temps|
  {
    if |temps| > 0 {
      SameNameCount(names, temps[..|temps| - 1], t, random);
    }
  }

  /** The (k+1)-th use of a fresh name `t` is `t_k`; the first is `t` itself. */
  lemma UniqueNameKth(names: Counts, t: string, k: nat, random: string)
    requires t != "" && t !in names
    ensures var out := UniqueNames(names, Repeat(t, k + 1), random).0;
      out[k] == (if k == 0 then t else t + "_" + NatToString(k))
  {
    var ts := Repeat(t, k + 1);
    assert ts[..k] == Repeat(t, k);
    RepeatCount(names, t, k, random);
  }

  /** The counter scheme does not guarantee distinct names: a batch
      requesting `HK`, `HK`, `HK_1` receives `HK_1` twice. */
  lemma UniqueNameCanRepeat(random: string)
    ensures var out := UniqueNames(map[], ["HK", "HK", "HK_1"], random).0;
      out[1] == out[2] == "HK_1"
  {
    var ts: seq<string> := ["HK", "HK", "HK_1"];
    assert ts[..2] == ["HK", "HK"];
    assert ts[..2][..1] == ["HK"];
    assert ["HK"][..0] == [];
    assert NatToString(1) == "1";
    var s1 := UniqueNames(map[], ["HK"], random);
    assert s1.0 == ["HK"] && s1.1.Keys == {"HK"} && Count(s1.1, "HK") == 1;
    assert "HK" + "_" + "1" == "HK_1";
    var s2 := UniqueNames(map[], ["HK", "HK"], random);
    assert s2.0 == ["HK", "HK_1"] && s2.1.Keys == {"HK"};
  }

  // ---------------------------------------------------------------------
  // get_new_name: cumulative suffixes until the name is free
  // ---------------------------------------------------------------------

  /** The members of `taken` at least as long as `name`: the candidates the loop can still hit. */
  function LongEnough(taken: set<string>, name: string): set<string> {
    set s | s in taken && |s| >= |name|
  }

  /** A proper subset of a finite set is strictly smaller. */
  lemma ProperSubsetSmaller<T>(a: set<T>, b: set<T>)
    requires a < b
    ensures |a| < |b|
  {
    var x :| x in b && x !in a;
    SubsetNoLarger(a, b - {x});
  }

  /** A subset is no larger than its superset. */
  lemma {:induction false} SubsetNoLarger<T>(a: set<T>, b: set<T>)
    requires a <= b
    ensures |a| <= |b|
    decreases |a|
  {
    if a != {} {
      var y :| y in a;
      SubsetNoLarger(a - {y}, b - {y});
    }
  }

  /** The loop of `get_new_name` from counter `i` on. */
  function NewNameFrom(name: string, taken: set<string>, i: nat): (r: string)
    ensures r !in taken
    ensures StartsWith(r, name)
    ensures name !in taken ==> r == name
    decreases |LongEnough(taken, name)|
  {
    if name !in taken then name
    else
      var next := name + "-" + NatToString(i);
      assert LongEnough(taken, next) < LongEnough(taken, name) by {
        assert name in LongEnough(taken, name) && name !in LongEnough(taken, next);
      }
      ProperSubsetSmaller(LongEnough(taken, next), LongEnough(taken, name));
      var r := NewNameFrom(next, taken, i + 1);
      assert r[..|name|] == next[..|name|];
      r
  }

  /** `get_new_name(name, name_set)`: `name`, else `name-1`, else `name-1-2`, … */
  function NewName(name: string, taken: set<string>): (r: string)
    ensures r !in taken
    ensures StartsWith(r, name)
    ensures name !in taken ==> r == name
    ensures name in taken ==> StartsWith(r, name + "-1")
  {
    if name in taken then
      var r := NewNameFrom(name + "-" + NatToString(1), taken, 2);
      assert NatToString(1) == "1";
      r
    else NewNameFrom(name, taken, 1)
  }

  /** Renames a sequence of proxies in order, each name being added to the
      set of taken names once chosen (the shape every caller of `get_new_name` has). */
  function RenameAll(names: seq<string>, taken: set<string>): (r: seq<string>)
    ensures |r| == |names|
    ensures forall i :: 0 <= i < |r| ==> r[i] !in taken && StartsWith(r[i], names[i])
    ensures forall i, j :: 0 <= i < j < |r| ==> r[i] != r[j]
    decreases |names|
  {
    if |names| == 0 then []
    else
      var first := NewName(names[0], taken);
      var rest := RenameAll(names[1..], taken + {first});
      [first] + rest
  }

  /** Names that are already pairwise distinct and untaken are kept exactly. */
  lemma {:induction false} RenameAllKeepsDistinct(names: seq<string>, taken: set<string>)
    requires forall i :: 0 <= i < |names| ==> names[i] !in taken
    requires forall i, j :: 0 <= i < j < |names| ==> names[i] != names[j]
    ensures RenameAll(names, taken) == names
    decreases |names|
  {
    if |names| > 0 {
      RenameAllKeepsDistinct(names[1..], taken + {names[0]});
    }
  }
}
