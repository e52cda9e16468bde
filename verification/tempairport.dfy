/** subscribe/scripts/tempairport.py: the temporary-airport bookkeeping.
    `load` reads the persisted `usables`/`unknowns` tables, moves unknown
    airports back to the usable table or to the re-registration list, and
    sends the usable ones that fail the availability probe to
    re-registration; `fetchsub` re-registers, counts the defeats of the
    airports that still fail, persists both tables and turns every enabled
    usable airport into a subscription task. HTTP, the push engine, the
    availability probe and registration itself are parameters; the helpers
    of subscribe/utils.py are the fields of a `Utils` (subscribe/utils.py is
    not part of this model). */
module TempAirport {
  import opened Wrappers
  import opened Strings
  import opened PyValue
  import opened OrderedDict

  /** The helpers of subscribe/utils.py the script calls. */
  datatype Utils = Utils(
    /** `utils.isblank(v)`. */
    isBlank: Value -> bool,
    /** `utils.extract_domain(url=v, include_protocol=False)`; `None` when it raises. */
    extractDomain: Value -> Option<string>)

  /** One re-registration task: `[domain, type, coupon]`, or for an unknown
      airport without a subscription also `[use_gmail_alias,
      skip_captcha_site, invite_code]` in `extra`. */
  datatype Unreg = Unreg(domain: string, kind: Value, coupon: Value, extra: seq<Value>)

  /** The persisted document: its `usables` and `unknowns` tables. */
  datatype Persisted = Persisted(usables: ODict<Value>, unknowns: ODict<Value>)

  predicate WellFormed(p: Persisted) {
    UniqueKeys(p.usables) && UniqueKeys(p.unknowns)
  }

  /** What `load` returns besides the raw document: `exists`,
      `unregisters` and `unknowns`. */
  datatype Loaded = Loaded(usables: ODict<Value>, unregisters: seq<Unreg>, unknowns: ODict<Value>)

  predicate Consistent(l: Loaded) {
    UniqueKeys(l.usables) && UniqueKeys(l.unknowns)
  }

  const NoneLoaded: Loaded := Loaded([], [], [])

  /** `v.get("enable", True)` is truthy. */
  predicate Enabled(v: Record) {
    Truthy(GetOr(v, "enable", Bool(true)))
  }

  // ---------------------------------------------------------------------
  // load
  // ---------------------------------------------------------------------

  /** The re-registration task of an unknown airport without a subscription. */
  function UnknownTask(k: string, v: Record): Unreg {
    Unreg(k, GetOr(v, "type", Int(1)), GetOr(v, "coupon", Str("")),
      [GetOr(v, "use_gmail_alias", Bool(true)), GetOr(v, "skip_captcha_site", Bool(false)), GetOr(v, "invite_code", Str(""))])
  }

  /** One round of the `retry` loop over the unknown airports, for key `k`:
      an enabled airport with a subscription becomes usable again, an
      enabled one without is queued for re-registration, and either way it
      leaves the unknown table; a disabled or empty entry stays. `None`
      when the entry is not a mapping (`v.get` raises). */
  function ReclassifyOne(u: Utils, s: Loaded, k: string): (r: Option<Loaded>)
    requires Consistent(s)
    ensures r.Some? ==> Consistent(r.value)
    ensures (var v := Lookup(s.unknowns, k).GetOr(Dict(map[]));
      (r.None? <==> Truthy(v) && !v.Dict?)
      && (!Truthy(v) || (v.Dict? && !Enabled(v.fields)) ==> r == Some(s))
      && (Truthy(v) && v.Dict? && Enabled(v.fields) ==> (r.Some? && !HasKey(r.value.unknowns, k)
        && (forall j :: j != k ==> Lookup(r.value.unknowns, j) == Lookup(s.unknowns, j))
        && (!u.isBlank(GetOr(v.fields, "sub", Str(""))) ==>
          (Lookup(r.value.usables, k) == Some(v) && r.value.unregisters == s.unregisters
            && forall j :: j != k ==> Lookup(r.value.usables, j) == Lookup(s.usables, j)))
        && (u.isBlank(GetOr(v.fields, "sub", Str(""))) ==>
          (r.value.usables == s.usables && r.value.unregisters == s.unregisters + [UnknownTask(k, v.fields)])))))
  {
    var v := Lookup(s.unknowns, k).GetOr(Dict(map[]));
    if !Truthy(v) then Some(s)
    else if !v.Dict? then None
    else if !Enabled(v.fields) then Some(s)
    else if !u.isBlank(GetOr(v.fields, "sub", Str(""))) then
      Some(Loaded(Assign(s.usables, k, v), s.unregisters, Pop(s.unknowns, k)))
    else
      Some(Loaded(s.usables, s.unregisters + [UnknownTask(k, v.fields)], Pop(s.unknowns, k)))
  }

  /** The `for k in list(unknowns.keys())` loop. */
  function Reclassify(u: Utils, s: Loaded, keys: seq<string>): (r: Option<Loaded>)
    requires Consistent(s)
    ensures r.Some? ==> Consistent(r.value)
    decreases |keys|
  {
    if |keys| == 0 then Some(s)
    else
      match ReclassifyOne(u, s, keys[0])
      case None => None
      case Some(s1) => Reclassify(u, s1, keys[1..])
  }

  /** An entry `load` sends to the availability probe: a non-empty,
      enabled mapping. */
  predicate Probed(v: Value) {
    Truthy(v) && v.Dict? && Enabled(v.fields)
  }

  /** The `domains`/`subscribes` pairs of the usable table, in order: each
      probed entry's key and `sub`. `None` when a non-empty entry is not a
      mapping. */
  function Candidates(d: ODict<Value>): (r: Option<seq<(string, Value)>>)
    ensures r.Some? <==> forall i :: 0 <= i < |d| && Truthy(d[i].1) ==> d[i].1.Dict?
    ensures (r.Some? ==> forall c :: c in r.value ==>
      exists i :: 0 <= i < |d| && Probed(d[i].1) && c == (d[i].0, GetOr(d[i].1.fields, "sub", Str(""))))
    ensures r.Some? ==> forall i :: 0 <= i < |d| && Probed(d[i].1) ==> (d[i].0, GetOr(d[i].1.fields, "sub", Str(""))) in r.value
    decreases |d|
  {
    if |d| == 0 then Some([])
    else
      assert forall i :: 1 <= i < |d| ==> d[i] == d[1..][i - 1];
      match Candidates(d[1..])
      case None => None
      case Some(rest) =>
        var v := d[0].1;
        if !Truthy(v) then Some(rest)
        else if !v.Dict? then None
        else if !Enabled(v.fields) then Some(rest)
        else Some([(d[0].0, GetOr(v.fields, "sub", Str("")))] + rest)
  }

  /** `exists.pop(domain, {})`'s value. */
  function ItemOf(usables: ODict<Value>, domain: string): Value {
    Lookup(usables, domain).GetOr(Dict(map[]))
  }

  /** The `[domain, type, coupon]` task of an unavailable airport. */
  function RecheckTask(domain: string, item: Record): Unreg {
    Unreg(domain, GetOr(item, "type", Int(1)), GetOr(item, "coupon", Str("")), [])
  }

  /** The loop over the probe results: an airport whose subscription is
      unavailable leaves the usable table and is queued as
      `[domain, type, coupon]`. `None` when its entry is not a mapping. */
  function Recheck(s: Loaded, cands: seq<(string, Value)>, available: Value -> bool): (r: Option<Loaded>)
    requires Consistent(s)
    ensures r.Some? ==> Consistent(r.value) && r.value.unknowns == s.unknowns
    ensures r.Some? ==> |s.unregisters| <= |r.value.unregisters| && r.value.unregisters[..|s.unregisters|] == s.unregisters
    decreases |cands|
  {
    if |cands| == 0 then Some(s)
    else
      var (domain, sub) := cands[0];
      if available(sub) then Recheck(s, cands[1..], available)
      else
        var item := ItemOf(s.usables, domain);
        if !item.Dict? then None
        else
          var s1 := Loaded(Pop(s.usables, domain), s.unregisters + [RecheckTask(domain, item.fields)], s.unknowns);
          match Recheck(s1, cands[1..], available)
          case None => None
          case Some(r) =>
            assert r.unregisters[..|s.unregisters|] == r.unregisters[..|s1.unregisters|][..|s.unregisters|];
            Some(r)
  }

  /** The probed domains are pairwise distinct. */
  predicate DistinctDomains(cands: seq<(string, Value)>) {
    forall i, j :: 0 <= i < j < |cands| ==> cands[i].0 != cands[j].0
  }

  /** Candidate `i` failed the probe. */
  predicate Unavailable(cands: seq<(string, Value)>, available: Value -> bool, i: int) {
    0 <= i < |cands| && !available(cands[i].1)
  }

  /** `k` is the domain of a candidate that failed the probe. */
  predicate Dropped(cands: seq<(string, Value)>, available: Value -> bool, k: string) {
    exists i :: 0 <= i < |cands| && Unavailable(cands, available, i) && cands[i].0 == k
  }

  /** Every failed candidate's usable entry is a mapping. */
  predicate ItemsAreMappings(usables: ODict<Value>, cands: seq<(string, Value)>, available: Value -> bool) {
    forall i :: 0 <= i < |cands| && Unavailable(cands, available, i) ==> ItemOf(usables, cands[i].0).Dict?
  }

  /** Candidate `i` of the tail is candidate `i + 1` of the whole. */
  lemma UnavailableShift(cands: seq<(string, Value)>, available: Value -> bool, i: int)
    requires 0 <= i < |cands| - 1
    ensures cands[1..][i] == cands[i + 1]
    ensures Unavailable(cands[1..], available, i) <==> Unavailable(cands, available, i + 1)
  {
  }

  /** Dropped domains and the mapping test of the whole against the tail,
      when the first candidate's entry `first` is kept (`usables1 ==
      usables`) or popped. */
  lemma ShiftStep(cands: seq<(string, Value)>, available: Value -> bool, usables: ODict<Value>, usables1: ODict<Value>)
    requires |cands| > 0 && DistinctDomains(cands)
    requires forall j :: j != cands[0].0 ==> Lookup(usables1, j) == Lookup(usables, j)
    requires !available(cands[0].1) ==> ItemOf(usables, cands[0].0).Dict?
    ensures DistinctDomains(cands[1..])
    ensures forall i :: 0 <= i < |cands[1..]| ==> ItemOf(usables1, cands[1..][i].0) == ItemOf(usables, cands[1..][i].0)
    ensures ItemsAreMappings(usables, cands, available) <==> ItemsAreMappings(usables1, cands[1..], available)
    ensures (forall k :: (Dropped(cands, available, k)
      <==> ((!available(cands[0].1) && k == cands[0].0) || Dropped(cands[1..], available, k))))
  {
    var tail := cands[1..];
    forall i | 0 <= i < |tail| ensures ItemOf(usables1, tail[i].0) == ItemOf(usables, tail[i].0) {
      UnavailableShift(cands, available, i);
      assert cands[i + 1].0 != cands[0].0;
    }
    forall k ensures Dropped(cands, available, k) ==> ((!available(cands[0].1) && k == cands[0].0) || Dropped(tail, available, k)) {
      if Dropped(cands, available, k) {
        var i :| 0 <= i < |cands| && Unavailable(cands, available, i) && cands[i].0 == k;
        if i > 0 {
          UnavailableShift(cands, available, i - 1);
        }
      }
    }
    forall k ensures Dropped(tail, available, k) ==> Dropped(cands, available, k) {
      if Dropped(tail, available, k) {
        var i :| 0 <= i < |tail| && Unavailable(tail, available, i) && tail[i].0 == k;
        UnavailableShift(cands, available, i);
      }
    }
    if !available(cands[0].1) {
      assert Unavailable(cands, available, 0);
    }
    if ItemsAreMappings(usables1, tail, available) {
      forall i | 0 <= i < |cands| && Unavailable(cands, available, i) ensures ItemOf(usables, cands[i].0).Dict? {
        if i > 0 {
          UnavailableShift(cands, available, i - 1);
        }
      }
    }
    if ItemsAreMappings(usables, cands, available) {
      forall i | 0 <= i < |tail| && Unavailable(tail, available, i) ensures ItemOf(usables1, tail[i].0).Dict? {
        UnavailableShift(cands, available, i);
      }
    }
  }

  /** With distinct domains, rechecking fails exactly when some failed
      candidate's entry is not a mapping; otherwise exactly the failed
      candidates' domains leave the usable table and every other entry is
      kept. */
  lemma {:induction false} RecheckDrops(s: Loaded, cands: seq<(string, Value)>, available: Value -> bool)
    requires Consistent(s) && DistinctDomains(cands)
    ensures Recheck(s, cands, available).Some? <==> ItemsAreMappings(s.usables, cands, available)
    ensures (Recheck(s, cands, available).Some? ==> forall k ::
      Lookup(Recheck(s, cands, available).value.usables, k)
        == if Dropped(cands, available, k) then None else Lookup(s.usables, k))
    decreases |cands|
  {
    if |cands| > 0 {
      var (domain, sub) := cands[0];
      var item := ItemOf(s.usables, domain);
      if available(sub) {
        ShiftStep(cands, available, s.usables, s.usables);
        RecheckDrops(s, cands[1..], available);
      } else if item.Dict? {
        var s1 := Loaded(Pop(s.usables, domain), s.unregisters + [RecheckTask(domain, item.fields)], s.unknowns);
        ShiftStep(cands, available, s.usables, s1.usables);
        RecheckDrops(s1, cands[1..], available);
      } else {
        assert Unavailable(cands, available, 0);
      }
    }
  }

  /** The task queued for failed candidate `i`. */
  function TaskOf(usables: ODict<Value>, cands: seq<(string, Value)>, i: int): Unreg
    requires 0 <= i < |cands| && ItemOf(usables, cands[i].0).Dict?
  {
    RecheckTask(cands[i].0, ItemOf(usables, cands[i].0).fields)
  }

  /** The tasks rechecking appends to the queue. */
  function Appended(s: Loaded, r: Loaded): seq<Unreg> {
    if |s.unregisters| <= |r.unregisters| then r.unregisters[|s.unregisters|..] else []
  }

  /** With distinct domains and mappings as entries, rechecking appends
      exactly the tasks of the failed candidates: each failed candidate's
      `[domain, type, coupon]` is appended, and nothing else is. */
  lemma {:induction false} RecheckQueues(s: Loaded, cands: seq<(string, Value)>, available: Value -> bool)
    requires Consistent(s) && DistinctDomains(cands) && ItemsAreMappings(s.usables, cands, available)
    ensures Recheck(s, cands, available).Some?
    ensures (forall i :: 0 <= i < |cands| && Unavailable(cands, available, i) ==>
      TaskOf(s.usables, cands, i) in Appended(s, Recheck(s, cands, available).value))
    ensures (forall t :: t in Appended(s, Recheck(s, cands, available).value) ==>
      exists i :: 0 <= i < |cands| && Unavailable(cands, available, i) && t == TaskOf(s.usables, cands, i))
    decreases |cands|
  {
    RecheckDrops(s, cands, available);
    if |cands| > 0 {
      var (domain, sub) := cands[0];
      var item := ItemOf(s.usables, domain);
      var tail := cands[1..];
      if available(sub) {
        ShiftStep(cands, available, s.usables, s.usables);
        RecheckQueues(s, tail, available);
        QueuesStep(s, s, cands, available, Recheck(s, cands, available).value);
        QueuesOnlyStep(s, s, cands, available, Recheck(s, cands, available).value);
      } else {
        assert Unavailable(cands, available, 0);
        var s1 := Loaded(Pop(s.usables, domain), s.unregisters + [RecheckTask(domain, item.fields)], s.unknowns);
        ShiftStep(cands, available, s.usables, s1.usables);
        RecheckQueues(s1, tail, available);
        var r := Recheck(s, cands, available).value;
        assert r.unregisters[..|s1.unregisters|] == s1.unregisters;
        assert r.unregisters[|s.unregisters|] == s1.unregisters[|s.unregisters|];
        assert Appended(s, r) == [TaskOf(s.usables, cands, 0)] + Appended(s1, r);
        QueuesStep(s, s1, cands, available, r);
        QueuesOnlyStep(s, s1, cands, available, r);
      }
    }
  }

  /** The step of `RecheckQueues`, first half: every failed candidate's
      task is among the whole's appended tasks. */
  lemma QueuesStep(s: Loaded, s1: Loaded, cands: seq<(string, Value)>, available: Value -> bool, r: Loaded)
    requires |cands| > 0 && ItemsAreMappings(s.usables, cands, available)
    requires ItemsAreMappings(s1.usables, cands[1..], available)
    requires forall i :: 0 <= i < |cands[1..]| ==> ItemOf(s1.usables, cands[1..][i].0) == ItemOf(s.usables, cands[1..][i].0)
    requires available(cands[0].1) ==> Appended(s, r) == Appended(s1, r)
    requires (!available(cands[0].1) ==> (Unavailable(cands, available, 0)
      && Appended(s, r) == [TaskOf(s.usables, cands, 0)] + Appended(s1, r)))
    requires (forall i :: 0 <= i < |cands[1..]| && Unavailable(cands[1..], available, i) ==>
      TaskOf(s1.usables, cands[1..], i) in Appended(s1, r))
    ensures (forall i :: 0 <= i < |cands| && Unavailable(cands, available, i) ==>
      TaskOf(s.usables, cands, i) in Appended(s, r))
  {
    var tail := cands[1..];
    forall i | 0 <= i < |cands| && Unavailable(cands, available, i) ensures TaskOf(s.usables, cands, i) in Appended(s, r) {
      if i > 0 {
        UnavailableShift(cands, available, i - 1);
        assert TaskOf(s1.usables, tail, i - 1) == TaskOf(s.usables, cands, i);
      }
    }
  }

  /** The step of `RecheckQueues`, second half: every appended task is a
      failed candidate's. */
  lemma QueuesOnlyStep(s: Loaded, s1: Loaded, cands: seq<(string, Value)>, available: Value -> bool, r: Loaded)
    requires |cands| > 0 && ItemsAreMappings(s.usables, cands, available)
    requires ItemsAreMappings(s1.usables, cands[1..], available)
    requires forall i :: 0 <= i < |cands[1..]| ==> ItemOf(s1.usables, cands[1..][i].0) == ItemOf(s.usables, cands[1..][i].0)
    requires available(cands[0].1) ==> Appended(s, r) == Appended(s1, r)
    requires (!available(cands[0].1) ==> (Unavailable(cands, available, 0)
      && Appended(s, r) == [TaskOf(s.usables, cands, 0)] + Appended(s1, r)))
    requires (forall t :: t in Appended(s1, r) ==>
      exists i :: 0 <= i < |cands[1..]| && Unavailable(cands[1..], available, i) && t == TaskOf(s1.usables, cands[1..], i))
    ensures (forall t :: t in Appended(s, r) ==>
      exists i :: 0 <= i < |cands| && Unavailable(cands, available, i) && t == TaskOf(s.usables, cands, i))
  {
    var tail := cands[1..];
    forall t | t in Appended(s, r)
      ensures exists i :: 0 <= i < |cands| && Unavailable(cands, available, i) && t == TaskOf(s.usables, cands, i)
    {
      if t in Appended(s1, r) {
        var i :| 0 <= i < |tail| && Unavailable(tail, available, i) && t == TaskOf(s1.usables, tail, i);
        UnavailableShift(cands, available, i);
        assert t == TaskOf(s.usables, cands, i + 1);
      } else {
        assert t == TaskOf(s.usables, cands, 0);
      }
    }
  }

  /** The `{x[0]: [x[1], x[2]] for x in unregisters}` table. */
  function DedupTable(us: seq<Unreg>): (r: ODict<(Value, Value)>)
    ensures UniqueKeys(r)
    decreases |us|
  {
    if |us| == 0 then []
    else
      var last := us[|us| - 1];
      Assign(DedupTable(us[..|us| - 1]), last.domain, (last.kind, last.coupon))
  }

  /** Every queued domain has an entry in the table. */
  lemma {:induction false} DedupTableCovers(us: seq<Unreg>, i: nat)
    requires i < |us|
    ensures HasKey(DedupTable(us), us[i].domain)
    decreases |us|
  {
    var init := us[..|us| - 1];
    var last := us[|us| - 1];
    if i < |us| - 1 && us[i].domain != last.domain {
      assert init[i] == us[i];
      DedupTableCovers(init, i);
      assert Lookup(DedupTable(us), us[i].domain) == Lookup(DedupTable(init), us[i].domain);
    } else {
      assert Lookup(DedupTable(us), last.domain).Some?;
    }
  }

  /** A domain's entry is the type and coupon of its last task. */
  lemma {:induction false} DedupTableLastWins(us: seq<Unreg>, i: nat)
    requires i < |us|
    requires forall j :: i < j < |us| ==> us[j].domain != us[i].domain
    ensures Lookup(DedupTable(us), us[i].domain) == Some((us[i].kind, us[i].coupon))
    decreases |us|
  {
    var init := us[..|us| - 1];
    if i < |us| - 1 {
      assert init[i] == us[i];
      DedupTableLastWins(init, i);
    }
  }

  /** `[[k, v[0], v[1]] for k, v in data.items()]`: one three-field task per
      domain, in the order the domains first appear. */
  function Dedup(us: seq<Unreg>): (r: seq<Unreg>)
    ensures forall j, k :: 0 <= j < k < |r| ==> r[j].domain != r[k].domain
    ensures forall j :: 0 <= j < |r| ==> r[j].extra == []
  {
    var t := DedupTable(us);
    seq(|t|, j requires 0 <= j < |t| => Unreg(t[j].0, t[j].1.0, t[j].1.1, []))
  }

  /** After de-duplication every queued domain is queued once, with the
      type and coupon of its last task, and nothing else is queued. */
  lemma DedupLastWins(us: seq<Unreg>, i: nat)
    requires i < |us|
    requires forall j :: i < j < |us| ==> us[j].domain != us[i].domain
    ensures Unreg(us[i].domain, us[i].kind, us[i].coupon, []) in Dedup(us)
    ensures |Dedup(us)| <= |us|
  {
    var t := DedupTable(us);
    DedupTableLastWins(us, i);
    var j :| 0 <= j < |t| && t[j] == (us[i].domain, (us[i].kind, us[i].coupon));
    assert Dedup(us)[j] == Unreg(us[i].domain, us[i].kind, us[i].coupon, []);
    DedupTableSize(us);
  }

  /** The table has no more entries than there are tasks. */
  lemma {:induction false} DedupTableSize(us: seq<Unreg>)
    ensures |DedupTable(us)| <= |us|
    decreases |us|
  {
    if |us| > 0 {
      DedupTableSize(us[..|us| - 1]);
    }
  }

  /** Every domain in the table is the domain of some task. */
  lemma {:induction false} DedupTableFrom(us: seq<Unreg>)
    ensures forall j :: 0 <= j < |DedupTable(us)| ==> exists i :: 0 <= i < |us| && us[i].domain == DedupTable(us)[j].0
    decreases |us|
  {
    if |us| > 0 {
      var init := us[..|us| - 1];
      var last := us[|us| - 1];
      DedupTableFrom(init);
      var t0 := DedupTable(init);
      var t := DedupTable(us);
      assert t == Assign(t0, last.domain, (last.kind, last.coupon));
      forall j | 0 <= j < |t| ensures exists i :: 0 <= i < |us| && us[i].domain == t[j].0 {
        assert Keys(t)[j] == t[j].0;
        if j < |t0| {
          assert Keys(t0)[j] == t0[j].0 == Keys(t)[j];
          var i :| 0 <= i < |init| && init[i].domain == t0[j].0;
          assert us[i] == init[i];
        } else {
          assert Keys(t) == Keys(t0) + [last.domain];
          assert us[|us| - 1].domain == t[j].0;
        }
      }
      assert forall j :: 0 <= j < |DedupTable(us)| ==> exists i :: 0 <= i < |us| && us[i].domain == DedupTable(us)[j].0;
    } else {
      assert DedupTable(us) == [];
    }
  }

  /** `load(engine, persist, retry)` on the document the push engine
      returned (`None` when validation, the download or the JSON parse
      fails, or the document is empty): the three tables and the raw
      document. Any exception inside yields empty tables. */
  function Load(u: Utils, doc: Option<Persisted>, retry: bool, available: Value -> bool): (r: (Loaded, Persisted))
    requires doc.Some? ==> WellFormed(doc.value)
    ensures Consistent(r.0) && WellFormed(r.1)
    ensures doc.None? ==> r == (NoneLoaded, Persisted([], []))
    ensures (r.0 != NoneLoaded ==> r.1 == doc.value)
  {
    match doc
    case None => (NoneLoaded, Persisted([], []))
    case Some(p) =>
      var s0 := Loaded(p.usables, [], p.unknowns);
      var s1 := if retry && |p.unknowns| > 0 then Reclassify(u, s0, Keys(p.unknowns)) else Some(s0);
      match s1
      case None => (NoneLoaded, Persisted([], []))
      case Some(l1) =>
        match Candidates(l1.usables)
        case None => (NoneLoaded, Persisted([], []))
        case Some(cands) =>
          if |cands| == 0 then (l1, p)
          else
            match Recheck(l1, cands, available)
            case None => (NoneLoaded, Persisted([], []))
            case Some(l2) =>
              if |l2.unregisters| > 0 then (Loaded(l2.usables, Dedup(l2.unregisters), l2.unknowns), p)
              else (l2, p)
  }

  /** Without `retry` and with every usable airport available, `load`
      returns the persisted tables unchanged with nothing to re-register. */
  lemma {:induction false} LoadAllAvailable(u: Utils, p: Persisted, available: Value -> bool, cands: seq<(string, Value)>)
    requires WellFormed(p)
    requires Candidates(p.usables) == Some(cands)
    requires forall c :: c in cands ==> available(c.1)
    ensures Load(u, Some(p), false, available) == (Loaded(p.usables, [], p.unknowns), p)
  {
    var s := Loaded(p.usables, [], p.unknowns);
    if |cands| > 0 {
      RecheckAllAvailable(s, cands, available);
    }
  }

  lemma {:induction false} RecheckAllAvailable(s: Loaded, cands: seq<(string, Value)>, available: Value -> bool)
    requires Consistent(s)
    requires forall c :: c in cands ==> available(c.1)
    ensures Recheck(s, cands, available) == Some(s)
    decreases |cands|
  {
    if |cands| > 0 {
      assert cands[0] in cands;
      assert forall c :: c in cands[1..] ==> c in cands;
      RecheckAllAvailable(s, cands[1..], available);
    }
  }

  /** The probed pairs name distinct domains, each a mapping in the table. */
  lemma {:induction false} CandidatesDistinct(d: ODict<Value>)
    requires UniqueKeys(d) && Candidates(d).Some?
    ensures DistinctDomains(Candidates(d).value)
    ensures forall i :: 0 <= i < |Candidates(d).value| ==> ItemOf(d, Candidates(d).value[i].0).Dict?
    decreases |d|
  {
    var c := Candidates(d).value;
    forall i | 0 <= i < |c| ensures ItemOf(d, c[i].0).Dict? {
      assert c[i] in c;
      var n :| 0 <= n < |d| && Probed(d[n].1) && c[i] == (d[n].0, GetOr(d[n].1.fields, "sub", Str("")));
    }
    if |d| > 0 {
      var tail := d[1..];
      assert forall i :: 0 <= i < |tail| ==> tail[i] == d[i + 1];
      assert UniqueKeys(tail);
      CandidatesDistinct(tail);
      var rest := Candidates(tail).value;
      forall i | 0 <= i < |rest| ensures rest[i].0 != d[0].0 {
        assert rest[i] in rest;
        var n :| 0 <= n < |tail| && Probed(tail[n].1) && rest[i] == (tail[n].0, GetOr(tail[n].1.fields, "sub", Str("")));
        assert tail[n] == d[n + 1];
      }
    }
  }

  /** The last task naming the same domain as task `j`. */
  lemma {:induction false} LastOfDomain(us: seq<Unreg>, j: nat) returns (m: nat)
    requires j < |us|
    ensures j <= m < |us| && us[m].domain == us[j].domain
    ensures forall n :: m < n < |us| ==> us[n].domain != us[j].domain
    decreases |us| - j
  {
    if n :| j < n < |us| && us[n].domain == us[j].domain {
      m := LastOfDomain(us, n);
    } else {
      m := j;
    }
  }

  /** What `load` returns once the unknown airports are reclassified into
      `l1` and the probed pairs are `cands`: exactly the domains whose
      subscription failed the probe leave the usable table and every other
      entry is kept; each of them is queued as `[domain, type, coupon]`
      from its entry, after de-duplication; the unknown table and the raw
      document are as they were. */
  lemma {:induction false} LoadRechecks(u: Utils, p: Persisted, retry: bool, available: Value -> bool, l1: Loaded, cands: seq<(string, Value)>)
    requires WellFormed(p)
    requires (if retry && |p.unknowns| > 0 then Reclassify(u, Loaded(p.usables, [], p.unknowns), Keys(p.unknowns))
      else Some(Loaded(p.usables, [], p.unknowns))) == Some(l1)
    requires Candidates(l1.usables) == Some(cands)
    ensures Load(u, Some(p), retry, available).1 == p
    ensures Load(u, Some(p), retry, available).0.unknowns == l1.unknowns
    ensures (forall k :: (Lookup(Load(u, Some(p), retry, available).0.usables, k)
      == if Dropped(cands, available, k) then None else Lookup(l1.usables, k)))
    ensures (forall i :: 0 <= i < |cands| && Unavailable(cands, available, i) ==>
      ItemOf(l1.usables, cands[i].0).Dict?
      && TaskOf(l1.usables, cands, i) in Load(u, Some(p), retry, available).0.unregisters)
    ensures (forall t :: t in Load(u, Some(p), retry, available).0.unregisters ==>
      (exists i :: 0 <= i < |l1.unregisters| && l1.unregisters[i].domain == t.domain) || Dropped(cands, available, t.domain))
  {
    var l := Load(u, Some(p), retry, available).0;
    CandidatesDistinct(l1.usables);
    if |cands| > 0 {
      RecheckDrops(l1, cands, available);
      RecheckQueues(l1, cands, available);
      var r := Recheck(l1, cands, available).value;
      forall i | 0 <= i < |cands| && Unavailable(cands, available, i)
        ensures TaskOf(l1.usables, cands, i) in l.unregisters
      {
        DedupKeepsTask(l1, r, cands, available, i);
      }
      QueuedFrom(l1, r, cands, available);
      DedupFrom(r.unregisters, k => (exists i :: 0 <= i < |l1.unregisters| && l1.unregisters[i].domain == k) || Dropped(cands, available, k));
    }
  }

  /** Every task after the recheck names a domain queued before it or one
      whose subscription failed the probe. */
  lemma QueuedFrom(l1: Loaded, r: Loaded, cands: seq<(string, Value)>, available: Value -> bool)
    requires ItemsAreMappings(l1.usables, cands, available)
    requires |l1.unregisters| <= |r.unregisters| && r.unregisters[..|l1.unregisters|] == l1.unregisters
    requires (forall t :: t in Appended(l1, r) ==>
      exists i :: 0 <= i < |cands| && Unavailable(cands, available, i) && t == TaskOf(l1.usables, cands, i))
    ensures (forall t :: t in r.unregisters ==>
      (exists i :: 0 <= i < |l1.unregisters| && l1.unregisters[i].domain == t.domain) || Dropped(cands, available, t.domain))
  {
    var us := r.unregisters;
    forall t | t in us
      ensures (exists i :: 0 <= i < |l1.unregisters| && l1.unregisters[i].domain == t.domain) || Dropped(cands, available, t.domain)
    {
      var k :| 0 <= k < |us| && us[k] == t;
      if k < |l1.unregisters| {
        assert l1.unregisters[k] == t;
      } else {
        assert t == Appended(l1, r)[k - |l1.unregisters|];
        assert t in Appended(l1, r);
        var i :| 0 <= i < |cands| && Unavailable(cands, available, i) && t == TaskOf(l1.usables, cands, i);
      }
    }
  }

  /** De-duplication keeps only domains some task named. */
  lemma DedupFrom(us: seq<Unreg>, ok: string -> bool)
    requires forall t :: t in us ==> ok(t.domain)
    ensures forall t :: t in Dedup(us) ==> ok(t.domain)
  {
    DedupTableFrom(us);
    var tab := DedupTable(us);
    assert |Dedup(us)| == |tab| && forall j :: 0 <= j < |tab| ==> Dedup(us)[j].domain == tab[j].0;
    forall t | t in Dedup(us) ensures ok(t.domain) {
      var j :| 0 <= j < |Dedup(us)| && Dedup(us)[j] == t;
      var i :| 0 <= i < |us| && us[i].domain == tab[j].0;
      assert us[i] in us;
    }
  }

  /** A failed candidate's task, appended by rechecking, survives the
      de-duplication of the whole queue: no later task names its domain. */
  lemma DedupKeepsTask(l1: Loaded, r: Loaded, cands: seq<(string, Value)>, available: Value -> bool, i: int)
    requires DistinctDomains(cands) && ItemsAreMappings(l1.usables, cands, available)
    requires 0 <= i < |cands| && Unavailable(cands, available, i)
    requires |l1.unregisters| <= |r.unregisters|
    requires TaskOf(l1.usables, cands, i) in Appended(l1, r)
    requires (forall t :: t in Appended(l1, r) ==>
      exists i :: 0 <= i < |cands| && Unavailable(cands, available, i) && t == TaskOf(l1.usables, cands, i))
    ensures TaskOf(l1.usables, cands, i) in Dedup(r.unregisters)
  {
    var tasks := Appended(l1, r);
    var t := TaskOf(l1.usables, cands, i);
    var k :| 0 <= k < |tasks| && tasks[k] == t;
    var j := |l1.unregisters| + k;
    assert r.unregisters[j] == t;
    var m := LastOfDomain(r.unregisters, j);
    assert r.unregisters[m] in tasks by {
      assert r.unregisters[m] == tasks[m - |l1.unregisters|];
    }
    var i' :| 0 <= i' < |cands| && Unavailable(cands, available, i') && r.unregisters[m] == TaskOf(l1.usables, cands, i');
    assert cands[i'].0 == cands[i].0;
    DedupLastWins(r.unregisters, m);
  }

  // ---------------------------------------------------------------------
  // fetchsub
  // ---------------------------------------------------------------------

  /** `max(params.get("threshold", 1), 1)`; `None` when the value cannot be
      compared with a number. */
  function Threshold(v: Value): (r: Option<real>)
    ensures r.Some? <==> Number(v).Some?
    ensures r.Some? ==> r.value >= 1.0 && r.value >= Number(v).value
    ensures r.Some? && Number(v).value >= 1.0 ==> r.value == Number(v).value
  {
    match Number(v)
    case None => None
    case Some(x) => Some(if x >= 1.0 then x else 1.0)
  }

  /** What `register` returned for one task (`None` for no airport). */
  datatype Registered = Registered(ref: string, available: bool, sub: Value, username: Value, password: Value)

  /** `task.get("defeat", 0) + 1`; `None` when the addition raises. */
  function Inc(v: Value): (r: Option<Value>)
    ensures v.Int? ==> r == Some(Int(v.i + 1))
    ensures r.Some? ==> Number(r.value).Some?
    ensures r.Some? <==> Number(v).Some?
  {
    match v
    case Int(i) => Some(Int(i + 1))
    case Real(x) => Some(Real(x + 1.0))
    case Bool(b) => Some(Int(if b then 2 else 1))
    case _ => None
  }

  /** The stored task of an airport: its entry in the raw usable table if
      that is non-empty, else its entry in the raw unknown table. */
  function TaskFor(raw: Persisted, ref: string): Value {
    var t := Lookup(raw.usables, ref).GetOr(Dict(map[]));
    if Truthy(t) then t else Lookup(raw.unknowns, ref).GetOr(Dict(map[]))
  }

  /** One round of the loop over the registered airports. An airport
      without a subscription has its defeat count raised by one, is disabled
      once that count exceeds the threshold, and is stored as unknown; one
      with a subscription is stored as usable with the new credentials and
      no defeats. `None` when the stored task is not a mapping or its count
      is not a number. */
  function RegisterOne(raw: Persisted, s: Loaded, a: Registered, threshold: real): (r: Option<Loaded>)
    requires Consistent(s)
    ensures r.None? <==> (!TaskFor(raw, a.ref).Dict? || ((!a.available || !Truthy(a.sub))
      && Number(GetOr(TaskFor(raw, a.ref).fields, "defeat", Int(0))).None?))
    ensures r.Some? ==> Consistent(r.value) && r.value.unregisters == s.unregisters
    ensures (r.Some? && (!a.available || !Truthy(a.sub)) ==> (var task := TaskFor(raw, a.ref).fields;
      var d := Inc(GetOr(task, "defeat", Int(0))).value;
      r.value.usables == s.usables
      && Lookup(r.value.unknowns, a.ref) == Some(Dict(
        (if Number(d).value > threshold then task["enable" := Bool(false)] else task)["defeat" := d]))
      && forall j :: j != a.ref ==> Lookup(r.value.unknowns, j) == Lookup(s.unknowns, j)))
    ensures (r.Some? && a.available && Truthy(a.sub) ==> (var task := TaskFor(raw, a.ref).fields;
      r.value.unknowns == s.unknowns
      && Lookup(r.value.usables, a.ref) == Some(Dict(task["sub" := a.sub]["username" := a.username]
        ["password" := a.password]["defeat" := Int(0)]))
      && forall j :: j != a.ref ==> Lookup(r.value.usables, j) == Lookup(s.usables, j)))
  {
    var task := TaskFor(raw, a.ref);
    if !task.Dict? then None
    else if !a.available || !Truthy(a.sub) then
      match Inc(GetOr(task.fields, "defeat", Int(0)))
      case None => None
      case Some(d) =>
        var t1 := if Number(d).value > threshold then task.fields["enable" := Bool(false)] else task.fields;
        Some(Loaded(s.usables, s.unregisters, Assign(s.unknowns, a.ref, Dict(t1["defeat" := d]))))
    else
      var t1 := task.fields["sub" := a.sub]["username" := a.username]["password" := a.password]["defeat" := Int(0)];
      Some(Loaded(Assign(s.usables, a.ref, Dict(t1)), s.unregisters, s.unknowns))
  }

  /** A failing airport with an integer defeat count `n` (0 when absent) is
      stored with `n + 1` defeats, disabled exactly when `n + 1` exceeds the
      threshold, and otherwise keeps its `enable` flag. */
  lemma DefeatRule(raw: Persisted, s: Loaded, a: Registered, threshold: real, n: int)
    requires Consistent(s) && RegisterOne(raw, s, a, threshold).Some?
    requires !a.available || !Truthy(a.sub)
    requires GetOr(TaskFor(raw, a.ref).fields, "defeat", Int(0)) == Int(n)
    ensures var task := TaskFor(raw, a.ref).fields;
      var stored := Lookup(RegisterOne(raw, s, a, threshold).value.unknowns, a.ref).value.fields;
      stored["defeat"] == Int(n + 1)
      && ((n + 1) as real > threshold ==> stored["enable"] == Bool(false))
      && ((n + 1) as real <= threshold ==> (("enable" in stored <==> "enable" in task)
        && ("enable" in task ==> stored["enable"] == task["enable"])))
  {
  }

  /** The loop over the registration results, in task order. */
  function RegisterAll(raw: Persisted, s: Loaded, airports: seq<Option<Registered>>, threshold: real): (r: Option<Loaded>)
    requires Consistent(s)
    ensures r.Some? ==> Consistent(r.value) && r.value.unregisters == s.unregisters
    decreases |airports|
  {
    if |airports| == 0 then Some(s)
    else
      match airports[0]
      case None => RegisterAll(raw, s, airports[1..], threshold)
      case Some(a) =>
        match RegisterOne(raw, s, a, threshold)
        case None => None
        case Some(s1) => RegisterAll(raw, s1, airports[1..], threshold)
  }

  /** `list(set(values))` for the values a `push_to` entry iterates over:
      each value once. The order of a Python set is unspecified; here the
      first occurrences are kept in order. */
  function UniqueValues(vs: seq<Value>): (r: seq<Value>)
    ensures forall j, k :: 0 <= j < k < |r| ==> r[j] != r[k]
    ensures forall v :: v in r <==> v in vs
    decreases |vs|
  {
    if |vs| == 0 then []
    else
      var rest := UniqueValues(vs[..|vs| - 1]);
      if vs[|vs| - 1] in rest then rest else rest + [vs[|vs| - 1]]
  }

  /** The values `set(item.get("push_to", []))` collects; `None` when the
      entry is not iterable or holds an unhashable value. */
  function PushTargets(v: Value): (r: Option<seq<Value>>)
    ensures v.List? && (forall k :: 0 <= k < |v.items| ==> !v.items[k].Dict? && !v.items[k].List?) ==> r == Some(v.items)
    ensures v.List? && (exists k :: 0 <= k < |v.items| && (v.items[k].Dict? || v.items[k].List?)) ==> r.None?
  {
    match v
    case List(items) =>
      if forall k :: 0 <= k < |items| ==> !items[k].Dict? && !items[k].List? then Some(items) else None
    case Str(s) => Some(seq(|s|, i requires 0 <= i < |s| => Str([s[i]])))
    case _ => None
  }

  /** The subscription task built from one usable entry and the `config`
      template: `Some(None)` for a disabled entry, which is skipped; `None`
      when a step raises. */
  function ResultItem(u: Utils, config: Record, subscribe: Value): (r: Option<Option<Record>>)
    ensures !subscribe.Dict? ==> r.None?
    ensures subscribe.Dict? && !Enabled(subscribe.fields) ==> r == Some(None)
    ensures (r.Some? && r.value.Some? ==> (var item := r.value.value;
      subscribe.Dict? && Enabled(subscribe.fields)
      && "saved" in item && item["saved"] == Bool(true) && "sub" in item
      && (u.isBlank(Str("")) ==> "name" in item)
      && "push_to" in item && item["push_to"].List?
      && (forall j, k :: 0 <= j < k < |item["push_to"].items| ==> item["push_to"].items[j] != item["push_to"].items[k])))
  {
    if !subscribe.Dict? then None
    else if !Enabled(subscribe.fields) then Some(None)
    else
      var item0 := config["sub" := GetOr(subscribe.fields, "sub", Null)];
      var over := GetOr(subscribe.fields, "config", Dict(map[]));
      if "config" in subscribe.fields && !over.Dict? then None
      else
        var item1 := if "config" in subscribe.fields then item0 + over.fields else item0;
        var named :=
          if u.isBlank(GetOr(item1, "name", Str(""))) then
            match u.extractDomain(item1["sub"])
            case None => None
            case Some(d) => Some(item1["name" := Str(ReplaceChar(d, '.', '-'))])
          else Some(item1);
        match named
        case None => None
        case Some(item2) =>
          match PushTargets(GetOr(item2, "push_to", List([])))
          case None => None
          case Some(targets) =>
            Some(Some(item2["push_to" := List(UniqueValues(targets))]["saved" := Bool(true)]))
  }

  /** The items of a subscription task whose `config` is not overridden
      come from the template, with the entry's `sub`. */
  lemma ResultItemFromTemplate(u: Utils, config: Record, subscribe: Record, name: string)
    requires Enabled(subscribe) && "config" !in subscribe
    requires "name" in config && config["name"] == Str(name) && !u.isBlank(Str(name))
    requires "push_to" in config && config["push_to"].List? && forall k :: 0 <= k < |config["push_to"].items| ==> config["push_to"].items[k].Str?
    ensures var r := ResultItem(u, config, Dict(subscribe));
      r.Some? && r.value.Some? && r.value.value["name"] == Str(name)
      && r.value.value["sub"] == GetOr(subscribe, "sub", Null)
      && (forall v :: v in r.value.value["push_to"].items <==> v in config["push_to"].items)
      && forall k :: k in config && k !in {"sub", "push_to", "saved"} ==> k in r.value.value && r.value.value[k] == config[k]
  {
  }

  /** The loop over `exists.values()`. */
  function ResultItems(u: Utils, config: Record, d: ODict<Value>): (r: Option<seq<Record>>)
    ensures r.Some? ==> |r.value| <= |d|
    ensures r.Some? ==> forall k :: 0 <= k < |r.value| ==> "saved" in r.value[k] && r.value[k]["saved"] == Bool(true)
    ensures (r.Some? ==> forall i :: (0 <= i < |d| && ResultItem(u, config, d[i].1).Some?
      && ResultItem(u, config, d[i].1).value.Some?) ==> ResultItem(u, config, d[i].1).value.value in r.value)
    ensures r.Some? <==> forall i :: 0 <= i < |d| ==> ResultItem(u, config, d[i].1).Some?
    decreases |d|
  {
    if |d| == 0 then Some([])
    else
      assert forall i :: 1 <= i < |d| ==> d[i] == d[1..][i - 1];
      match (ResultItem(u, config, d[0].1), ResultItems(u, config, d[1..]))
      case (Some(None), Some(rest)) => Some(rest)
      case (Some(Some(item)), Some(rest)) => Some([item] + rest)
      case _ => None
  }

  /** What `fetchsub` returns, and the tables it persisted (if any). */
  datatype Fetched = Fetched(results: seq<Record>, persisted: Option<Persisted>)

  /** The parameters pass the checks `fetchsub` makes before loading:
      a mapping with a numeric threshold, a `persist` section and a `config`
      naming where to push. */
  predicate Proceeds(params: Value) {
    params.Dict? && Truthy(params) && Threshold(GetOr(params.fields, "threshold", Int(1))).Some?
    && Truthy(GetOr(params.fields, "persist", Dict(map[])))
    && (var config := GetOr(params.fields, "config", Dict(map[]));
      config.Dict? && Truthy(config) && Truthy(GetOr(config.fields, "push_to", Null)))
  }

  /** `fetchsub(params)`; `doc`, `available` and `register` stand for the
      persisted document, the availability probe and registration. `None`
      when an exception escapes. */
  function FetchSub(u: Utils, params: Value, doc: Option<Persisted>, available: Value -> bool,
                    register: Unreg -> Option<Registered>): (r: Option<Fetched>)
    requires doc.Some? ==> WellFormed(doc.value)
    ensures !Truthy(params) || !params.Dict? ==> r == Some(Fetched([], None))
    ensures (params.Dict? && Truthy(params) && Threshold(GetOr(params.fields, "threshold", Int(1))).None? ==> r.None?)
    ensures ((params.Dict? && Truthy(params) && Threshold(GetOr(params.fields, "threshold", Int(1))).Some?
      && !Proceeds(params)) ==> r == Some(Fetched([], None)))
    ensures (Proceeds(params) && r.Some? ==> (var l := Load(u, doc, Truthy(GetOr(params.fields, "retry", Bool(true))), available).0;
      (r.value.persisted.Some? <==> |l.unregisters| > 0)
      && (r.value.persisted.Some? ==> WellFormed(r.value.persisted.value))
      && (|l.unregisters| == 0 && |l.usables| > 0 ==> Some(r.value.results) == ResultItems(u, GetOr(params.fields, "config", Dict(map[])).fields, l.usables))))
  {
    if !Truthy(params) || !params.Dict? then Some(Fetched([], None))
    else
      var f := params.fields;
      var config := GetOr(f, "config", Dict(map[]));
      var persist := GetOr(f, "persist", Dict(map[]));
      match Threshold(GetOr(f, "threshold", Int(1)))
      case None => None
      case Some(threshold) =>
        if !Truthy(persist) || !Truthy(config) || !config.Dict? || !Truthy(GetOr(config.fields, "push_to", Null)) then
          Some(Fetched([], None))
        else
          var (l, raw) := Load(u, doc, Truthy(GetOr(f, "retry", Bool(true))), available);
          if |l.usables| == 0 && |l.unregisters| == 0 && |l.unknowns| > 0 then Some(Fetched([], None))
          else
            var registered :=
              if |l.unregisters| > 0 then
                RegisterAll(raw, l, seq(|l.unregisters|, i requires 0 <= i < |l.unregisters| => register(l.unregisters[i])), threshold)
              else Some(l);
            match registered
            case None => None
            case Some(l1) =>
              var persisted := if |l.unregisters| > 0 then Some(Persisted(l1.usables, l1.unknowns)) else None;
              if |l1.usables| == 0 then Some(Fetched([], persisted))
              else
                match ResultItems(u, config.fields, l1.usables)
                case None => None
                case Some(items) => Some(Fetched(items, persisted))
  }
}
