/** proxy_check/ping.py: the TCP ping loops. Each connection attempt's
    outcome is an input (`attempt(i)` is what the i-th try reports), so the
    loops are modelled over given outcomes; sockets, timeouts and the
    asyncio scheduling are left out. */
module Ping {
  /** What one connection attempt reports: the elapsed seconds, or a failure
      (timeout or any other exception). */
  datatype Attempt = Connected(delta: real) | Failed

  /** The entry one attempt appends to `_list`: its time, or 0 on failure. */
  function Entry(a: Attempt): real {
    if a.Connected? then a.delta else 0.0
  }

  /** The loop's exit test: three failures, or at least one success and ten tries. */
  predicate Stops(suc: nat, fac: nat) {
    fac >= 3 || (suc != 0 && fac + suc >= 10)
  }

  /** Successes among the first `n` attempts. */
  function Successes(attempt: nat -> Attempt, n: nat): (r: nat)
    ensures r <= n
  {
    if n == 0 then 0 else Successes(attempt, n - 1) + (if attempt(n - 1).Connected? then 1 else 0)
  }

  /** The summed time of the successful attempts among the first `n`. */
  function TotalDelay(attempt: nat -> Attempt, n: nat): real {
    if n == 0 then 0.0 else TotalDelay(attempt, n - 1) + Entry(attempt(n - 1))
  }

  /** The entries of the first `n` attempts. */
  function Entries(attempt: nat -> Attempt, n: nat): (r: seq<real>)
    ensures |r| == n && forall i :: 0 <= i < n ==> r[i] == Entry(attempt(i))
  {
    if n == 0 then [] else Entries(attempt, n - 1) + [Entry(attempt(n - 1))]
  }

  /** The loop has not stopped after `n` attempts. */
  predicate Continues(attempt: nat -> Attempt, n: nat) {
    !Stops(Successes(attempt, n), n - Successes(attempt, n))
  }

  /** A loop that has not stopped has made fewer than ten attempts. */
  lemma ContinuesBelowTen(attempt: nat -> Attempt, n: nat)
    requires Continues(attempt, n)
    ensures n < 10
  {
  }

  /** The number of attempts `sync_tcp_ping` makes once `n` have been made
      without stopping: the first count at which the exit test holds. */
  function StopFrom(attempt: nat -> Attempt, n: nat): (r: nat)
    requires n <= 10 && forall m :: 0 <= m < n ==> Continues(attempt, m)
    ensures n <= r <= 10 && !Continues(attempt, r)
    ensures forall m :: 0 <= m < r ==> Continues(attempt, m)
    decreases 10 - n
  {
    if !Continues(attempt, n) then n
    else
      ContinuesBelowTen(attempt, n);
      StopFrom(attempt, n + 1)
  }

  /** The number of attempts `sync_tcp_ping` makes. */
  function AttemptCount(attempt: nat -> Attempt): (r: nat)
    ensures 3 <= r <= 10
    ensures Stops(Successes(attempt, r), r - Successes(attempt, r))
    ensures forall m :: 0 <= m < r ==> Continues(attempt, m)
  {
    StopFrom(attempt, 0)
  }

  /** `sync_tcp_ping(host, port)`'s result `(average time, success ratio,
      entries)` for the attempt outcomes `attempt`. */
  function TcpPingResult(attempt: nat -> Attempt): (r: (real, real, seq<real>))
    ensures r.2 == Entries(attempt, AttemptCount(attempt))
    ensures Successes(attempt, AttemptCount(attempt)) == 0 ==> r.0 == 0.0 && r.1 == 0.0
    ensures Successes(attempt, AttemptCount(attempt)) > 0 ==> 0.0 < r.1 <= 1.0
  {
    var n := AttemptCount(attempt);
    var suc := Successes(attempt, n);
    if suc == 0 then (0.0, 0.0, Entries(attempt, n))
    else
      RatioInUnit(suc, n);
      (TotalDelay(attempt, n) / suc as real, suc as real / n as real, Entries(attempt, n))
  }

  /** A ratio of successes to attempts, with at least one success, lies in (0, 1]. */
  lemma RatioInUnit(suc: nat, n: nat)
    requires 0 < suc <= n
    ensures 0.0 < suc as real / n as real <= 1.0
  {
  }

  /** `sync_tcp_ping(host, port)`; it computes `TcpPingResult`. */
  method SyncTcpPing(attempt: nat -> Attempt) returns (avg: real, ratio: real, list: seq<real>)
    ensures 3 <= |list| <= 10
    ensures forall i :: 0 <= i < |list| ==> list[i] == Entry(attempt(i))
    ensures Stops(Successes(attempt, |list|), |list| - Successes(attempt, |list|))
    ensures forall m :: 0 <= m < |list| ==> Continues(attempt, m)
    ensures (avg, ratio, list) == TcpPingResult(attempt)
  {
    var alt, suc, fac;
    alt, suc, fac, list := PingLoop(attempt);
    if suc == 0 {
      return 0.0, 0.0, list;
    }
    return alt / suc as real, suc as real / (suc + fac) as real, list;
  }

  /** The `while True` loop of `sync_tcp_ping`: it makes `AttemptCount`
      attempts and sums their successes and times. */
  method PingLoop(attempt: nat -> Attempt) returns (alt: real, suc: nat, fac: nat, list: seq<real>)
    ensures |list| == suc + fac == AttemptCount(attempt)
    ensures suc == Successes(attempt, |list|) && alt == TotalDelay(attempt, |list|)
    ensures list == Entries(attempt, |list|)
  {
    alt, suc, fac := 0.0, 0, 0;
    list := [];
    while !Stops(suc, fac)
      invariant |list| == suc + fac <= 10
      invariant suc == Successes(attempt, |list|) && alt == TotalDelay(attempt, |list|)
      invariant list == Entries(attempt, |list|)
      invariant forall m :: 0 <= m < |list| ==> Continues(attempt, m)
      decreases 10 - (suc + fac)
    {
      var a := attempt(suc + fac);
      assert Continues(attempt, |list|);
      if a.Connected? {
        alt := alt + a.delta;
        suc := suc + 1;
        list := list + [a.delta];
      } else {
        fac := fac + 1;
        list := list + [0.0];
      }
    }
    StopsAt(attempt, |list|);
  }

  /** The loop stops at the first count where the exit test holds. */
  lemma StopsAt(attempt: nat -> Attempt, n: nat)
    requires forall m :: 0 <= m < n ==> Continues(attempt, m)
    requires !Continues(attempt, n)
    ensures AttemptCount(attempt) == n
  {
  }

  /** What one `tcp_ping_task` or `google_ping_task` returns. */
  datatype TaskResult = TaskResult(alt: real, fac: nat, suc: nat)

  /** One task: a single attempt, counted as exactly one success or one failure. */
  function PingTask(a: Attempt): (r: TaskResult)
    ensures r.suc + r.fac == 1
    ensures r.suc == 1 <==> a.Connected?
    ensures r.alt == Entry(a)
  {
    match a
    case Connected(d) => TaskResult(d, 0, 1)
    case Failed => TaskResult(0.0, 1, 0)
  }

  /** The counters summed over the tasks that completed. */
  function Summed(done: seq<Attempt>): (r: TaskResult)
    ensures r.suc + r.fac == |done|
  {
    if |done| == 0 then TaskResult(0.0, 0, 0)
    else
      var t := PingTask(done[|done| - 1]);
      var rest := Summed(done[..|done| - 1]);
      TaskResult(rest.alt + t.alt, rest.fac + t.fac, rest.suc + t.suc)
  }

  /** `tcp_ping` / `google_ping`: three tasks are started and the outcomes of
      those done within the wait are summed; `(0, 0, entries)` when none
      succeeded, otherwise the average time and the success ratio. */
  function Aggregate(done: seq<Attempt>): (r: (real, real, seq<real>))
    requires |done| <= 3
    ensures |r.2| == |done| && forall i :: 0 <= i < |done| ==> r.2[i] == Entry(done[i])
    ensures Summed(done).suc == 0 ==> r.0 == 0.0 && r.1 == 0.0
    ensures Summed(done).suc > 0 ==> 0.0 < r.1 <= 1.0 && r.1 == Summed(done).suc as real / |done| as real
  {
    var s := Summed(done);
    var entries := seq(|done|, i requires 0 <= i < |done| => Entry(done[i]));
    if s.suc == 0 then (0.0, 0.0, entries)
    else (s.alt / s.suc as real, s.suc as real / (s.suc + s.fac) as real, entries)
  }

  /** The successes summed over completed tasks are exactly the connected attempts. */
  lemma {:induction false} SummedCountsConnected(done: seq<Attempt>)
    ensures Summed(done).suc == |set i | 0 <= i < |done| && done[i].Connected?|
  {
    if |done| > 0 {
      var n := |done| - 1;
      SummedCountsConnected(done[..n]);
      var before := set i | 0 <= i < n && done[..n][i].Connected?;
      var after := set i | 0 <= i < |done| && done[i].Connected?;
      assert before == set i | 0 <= i < n && done[i].Connected?;
      if done[n].Connected? {
        assert after == before + {n};
      } else {
        assert after == before;
      }
    }
  }
}
