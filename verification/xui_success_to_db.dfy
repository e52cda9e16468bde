/** submanager/xui_scan/xui_success_to_db.py: the panel URL `main` stores
    for each line of the success list. */
module XuiSuccessToDb {
  import opened Wrappers
  import opened Strings

  /** The key of one line: stripped, prefixed with `http://` when it does not
      start with it; `None` for a blank line, which is skipped. */
  function SiteUrl(line: string): (r: Option<string>)
    ensures r.None? <==> Strip(line) == ""
    ensures r.Some? ==> StartsWith(r.value, "http://")
    ensures r.Some? && StartsWith(Strip(line), "http://") ==> r.value == Strip(line)
    ensures r.Some? && !StartsWith(Strip(line), "http://") ==> r.value == "http://" + Strip(line)
  {
    var l := Strip(line);
    if l == "" then None
    else if StartsWith(l, "http://") then Some(l)
    else Some("http://" + l)
  }

  /** Prefixing is idempotent: a stored key maps to itself. */
  lemma SiteUrlIdempotent(line: string)
    requires SiteUrl(line).Some?
    ensures SiteUrl(SiteUrl(line).value) == SiteUrl(line)
  {
    var u := SiteUrl(line).value;
    var l := Strip(line);
    assert |l| > 0 ==> !IsSpace(l[0]) && !IsSpace(l[|l| - 1]);
    assert u[0] == 'h';
    assert !IsSpace(u[|u| - 1]);
    assert LStrip(u) == u;
    assert RStrip(u) == u;
  }

  // ---------------------------------------------------------------------
  // `re.search('\d+\.\d+\.\d+\.\d+', line).group(0)`
  // ---------------------------------------------------------------------

  /** The end of the run of digits starting at `i`: where `\d+` stops. */
  function RunEnd(s: string, i: nat): (e: nat)
    requires i <= |s|
    ensures i <= e <= |s|
    ensures forall p :: i <= p < e ==> IsDigit(s[p])
    ensures e < |s| ==> !IsDigit(s[e])
    decreases |s| - i
  {
    if i == |s| || !IsDigit(s[i]) then i else RunEnd(s, i + 1)
  }

  /** `s[i..j]` is `n` non-empty groups of digits joined by `.`: with
      `n == 4`, the text the pattern matches. */
  predicate DottedAt(s: string, i: nat, j: nat, n: nat)
    requires i <= j <= |s|
    decreases n
  {
    var e := RunEnd(s, i);
    if n <= 1 then n == 1 && i < j <= e
    else i < e < j && s[e] == '.' && DottedAt(s, e + 1, j, n - 1)
  }

  /** The whole of `m` is a dotted quad of digit groups. */
  predicate IsQuadText(m: string) {
    DottedAt(m, 0, |m|, 4)
  }

  /** The pattern of `n` dotted digit groups matched at position `i`,
      greedily: the end of the match, or `None` when it does not match
      there. Each inner `\d+` can only be followed by `.` at the end of its
      run, so backtracking never finds a shorter match for it. */
  function Groups(s: string, i: nat, n: nat): (j: Option<nat>)
    requires i <= |s| && n >= 1
    ensures j.Some? ==> i < j.value <= |s| && DottedAt(s, i, j.value, n)
    ensures j.Some? && j.value < |s| ==> !IsDigit(s[j.value])
    decreases n
  {
    var e := RunEnd(s, i);
    if e == i then None
    else if n == 1 then Some(e)
    else if e == |s| || s[e] != '.' then None
    else Groups(s, e + 1, n - 1)
  }

  /** Whenever some stretch starting at `i` is `n` dotted digit groups,
      the pattern matches at `i`. */
  lemma {:induction false} GroupsComplete(s: string, i: nat, j: nat, n: nat)
    requires n >= 1 && i <= j <= |s| && DottedAt(s, i, j, n)
    ensures Groups(s, i, n).Some?
    decreases n
  {
    if n > 1 {
      GroupsComplete(s, RunEnd(s, i) + 1, j, n - 1);
    }
  }

  /** The position `re.search` reports from `i` on: the leftmost one where
      the dotted quad matches. */
  function QuadSearch(s: string, i: nat): (k: Option<nat>)
    requires i <= |s|
    ensures k.Some? ==> i <= k.value <= |s| && Groups(s, k.value, 4).Some?
    ensures k.Some? ==> forall p :: i <= p < k.value ==> Groups(s, p, 4).None?
    ensures k.None? ==> forall p :: i <= p <= |s| ==> Groups(s, p, 4).None?
    decreases |s| - i
  {
    if Groups(s, i, 4).Some? then Some(i)
    else if i == |s| then None
    else QuadSearch(s, i + 1)
  }

  /** A run of digits inside `s[i..j]` ends where the run in `s` does, or at `j`. */
  lemma {:induction false} RunEndShift(s: string, i: nat, j: nat, p: nat)
    requires i <= p <= j <= |s|
    ensures RunEnd(s[i..j], p - i) == (if RunEnd(s, p) < j then RunEnd(s, p) else j) - i
    decreases j - p
  {
    if p < j && IsDigit(s[p]) {
      assert s[i..j][p - i] == s[p];
      RunEndShift(s, i, j, p + 1);
    } else if p < j {
      assert s[i..j][p - i] == s[p];
    }
  }

  /** Dotted digit groups in `s[k..j]` stay dotted digit groups in the slice `s[i..j]`. */
  lemma {:induction false} DottedShift(s: string, i: nat, j: nat, k: nat, n: nat)
    requires i <= k <= j <= |s| && DottedAt(s, k, j, n)
    ensures DottedAt(s[i..j], k - i, j - i, n)
    decreases n
  {
    RunEndShift(s, i, j, k);
    if n > 1 {
      var e := RunEnd(s, k);
      assert s[i..j][e - i] == s[e];
      DottedShift(s, i, j, e + 1, n - 1);
    }
  }

  /** `re.search(...).group(0)`: the leftmost dotted quad of `s`, greedy;
      `None` when the search finds nothing. */
  function FindQuad(s: string): (r: Option<string>)
    ensures r.Some? <==> QuadSearch(s, 0).Some?
    ensures r.Some? ==> IsQuadText(r.value) && StartsWith(s[QuadSearch(s, 0).value..], r.value)
  {
    match QuadSearch(s, 0)
    case None => None
    case Some(k) =>
      var j := Groups(s, k, 4).value;
      QuadText(s, k, j);
      Some(s[k..j])
  }

  /** The text of a dotted quad found in `s` is a dotted quad on its own,
      and it starts the rest of `s`. */
  lemma QuadText(s: string, k: nat, j: nat)
    requires k <= j <= |s| && DottedAt(s, k, j, 4)
    ensures IsQuadText(s[k..j]) && StartsWith(s[k..], s[k..j])
  {
    DottedShift(s, k, j, k, 4);
    assert s[k..][..j - k] == s[k..j];
  }

  /** The search finds nothing exactly when no stretch of `s` is four dotted digit groups. */
  lemma NoQuadIffNoMatch(s: string)
    ensures FindQuad(s).None? ==> forall i, j :: 0 <= i <= j <= |s| ==> !DottedAt(s, i, j, 4)
    ensures FindQuad(s).Some? ==> exists i, j :: 0 <= i <= j <= |s| && DottedAt(s, i, j, 4)
  {
    if FindQuad(s).None? {
      forall i, j | 0 <= i <= j <= |s| ensures !DottedAt(s, i, j, 4) {
        if DottedAt(s, i, j, 4) {
          GroupsComplete(s, i, j, 4);
          assert false;
        }
      }
    } else {
      var k := QuadSearch(s, 0).value;
      var j := Groups(s, k, 4).value;
      assert 0 <= k <= j <= |s| && DottedAt(s, k, j, 4);
    }
  }

  // ---------------------------------------------------------------------
  // `main`
  // ---------------------------------------------------------------------

  /** What `main` does with one line: skip a blank one, store the key
      with the IP text found in it, or stop with the `AttributeError` of
      `.group` on the `None` of a search that found nothing. */
  datatype Step = Skip | Store(url: string, ip: string) | Abort

  /** One line of the success list. */
  function LineStep(line: string): (r: Step)
    ensures r.Skip? <==> Strip(line) == ""
    ensures r.Store? ==> SiteUrl(line) == Some(r.url) && FindQuad(r.url) == Some(r.ip)
    ensures r.Store? ==> StartsWith(r.url, "http://") && IsQuadText(r.ip)
    ensures r.Abort? <==> SiteUrl(line).Some? && FindQuad(SiteUrl(line).value).None?
  {
    match SiteUrl(line)
    case None => Skip
    case Some(u) =>
      match FindQuad(u)
      case None => Abort
      case Some(ip) => Store(u, ip)
  }

  /** The entries `main` stores, each a key with its IP text, and whether
      a line without a dotted quad ended the run (the entries stored
      before it stay stored). */
  datatype Run = Run(stored: seq<(string, string)>, aborted: bool)

  /** The step taken for each line. */
  function Steps(lines: seq<string>): (r: seq<Step>)
    ensures |r| == |lines| && forall i :: 0 <= i < |lines| ==> r[i] == LineStep(lines[i])
    ensures forall i :: 0 <= i < |lines| && r[i].Store? ==> StartsWith(r[i].url, "http://") && IsQuadText(r[i].ip)
  {
    seq(|lines|, i requires 0 <= i < |lines| => LineStep(lines[i]))
  }

  /** The loop over the steps: stored entries in order until the first stop. */
  function RunSteps(steps: seq<Step>): (r: Run)
    ensures |r.stored| <= |steps|
    ensures forall k :: 0 <= k < |r.stored| ==> Store(r.stored[k].0, r.stored[k].1) in steps
    ensures !r.aborted <==> Abort !in steps
  {
    if |steps| == 0 then Run([], false) else Then(steps[0], RunSteps(steps[1..]))
  }

  /** One step in front of the run of the steps after it. */
  function Then(st: Step, rest: Run): Run {
    match st
    case Skip => rest
    case Abort => Run([], true)
    case Store(u, ip) => Run([(u, ip)] + rest.stored, rest.aborted)
  }

  /** A run followed, unless it stopped, by another. */
  function Join(x: Run, y: Run): Run {
    if x.aborted then x else Run(x.stored + y.stored, y.aborted)
  }

  /** `main`'s loop over the lines (the country and risk lookups made for
      each stored entry are not part of this model). */
  function StoreRun(lines: seq<string>): (r: Run)
    ensures |r.stored| <= |lines|
    ensures forall k :: 0 <= k < |r.stored| ==> StartsWith(r.stored[k].0, "http://") && IsQuadText(r.stored[k].1)
    ensures !r.aborted <==> forall i :: 0 <= i < |lines| ==> !LineStep(lines[i]).Abort?
  {
    StoredFacts(lines);
    AbortFacts(lines);
    RunSteps(Steps(lines))
  }

  /** Every stored step of the lines is an `http://` key with a dotted quad. */
  lemma StoredFacts(lines: seq<string>)
    ensures forall u, ip :: Store(u, ip) in Steps(lines) ==> StartsWith(u, "http://") && IsQuadText(ip)
  {
    var steps := Steps(lines);
    forall u, ip | Store(u, ip) in steps
      ensures StartsWith(u, "http://") && IsQuadText(ip)
    {
      var i :| 0 <= i < |steps| && steps[i] == Store(u, ip);
    }
  }

  /** The steps of the lines hold a stop exactly when some line stops. */
  lemma AbortFacts(lines: seq<string>)
    ensures Abort in Steps(lines) <==> exists i :: 0 <= i < |lines| && LineStep(lines[i]).Abort?
  {
    var steps := Steps(lines);
    if Abort in steps {
      var i :| 0 <= i < |steps| && steps[i] == Abort;
      assert LineStep(lines[i]).Abort?;
    }
  }

  /** The steps over two stretches of lines, then, unless the first
      stopped, over the second: each step contributes its own entry in
      order and nothing after a stop is stored. */
  lemma {:induction false} RunStepsAppend(a: seq<Step>, b: seq<Step>)
    ensures RunSteps(a + b) == Join(RunSteps(a), RunSteps(b))
  {
    if |a| == 0 {
      assert a + b == b;
    } else {
      assert (a + b)[0] == a[0];
      assert (a + b)[1..] == a[1..] + b;
      RunStepsAppend(a[1..], b);
      ThenJoin(a[0], RunSteps(a[1..]), RunSteps(b));
    }
  }

  /** Putting a step in front commutes with joining a later run. */
  lemma ThenJoin(st: Step, x: Run, y: Run)
    ensures Then(st, Join(x, y)) == Join(Then(st, x), y)
  {
    if st.Store? && !x.aborted {
      assert [(st.url, st.ip)] + (x.stored + y.stored) == ([(st.url, st.ip)] + x.stored) + y.stored;
    }
  }

  /** Running over two stretches of lines is running over the first, then,
      unless it stopped, over the second. */
  lemma StoreRunAppend(a: seq<string>, b: seq<string>)
    ensures StoreRun(a + b) == Join(StoreRun(a), StoreRun(b))
  {
    var ab := Steps(a + b);
    var both := Steps(a) + Steps(b);
    forall i | 0 <= i < |a + b| ensures ab[i] == both[i] {
      if i < |a| {
        assert (a + b)[i] == a[i];
      } else {
        assert (a + b)[i] == b[i - |a|];
      }
    }
    assert ab == both;
    RunStepsAppend(Steps(a), Steps(b));
  }

  /** One line on its own: nothing for a blank line, its key and IP text
      for a line with a dotted quad, and a stop otherwise. */
  lemma StoreRunOne(line: string)
    ensures Strip(line) == "" ==> StoreRun([line]) == Run([], false)
    ensures LineStep(line).Store? ==>
      StoreRun([line]) == Run([(SiteUrl(line).value, FindQuad(SiteUrl(line).value).value)], false)
    ensures LineStep(line).Abort? ==> StoreRun([line]) == Run([], true)
  {
    assert Steps([line]) == [LineStep(line)];
    RunStepsOne(LineStep(line));
  }

  /** A single step stores its own entry, stops, or does nothing. */
  lemma RunStepsOne(st: Step)
    ensures RunSteps([st]) == match st
      case Skip => Run([], false)
      case Abort => Run([], true)
      case Store(u, ip) => Run([(u, ip)], false)
  {
    assert [st][1..] == [];
  }
}
