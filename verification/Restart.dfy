/** Restart intensity: one role's failures within a sliding window. */
module Restart {

  const MAX_RESTARTS: nat := 5
  /** In milliseconds, as every instant below. */
  const MAX_RESTART_TIME: nat := 30_000

  /** The saturating difference of two monotonic instants. */
  function Since(now: nat, earlier: nat): nat {
    if now >= earlier then now - earlier else 0
  }

  predicate Nondecreasing(times: seq<nat>) {
    forall i, j :: 0 <= i < j < |times| ==> times[i] <= times[j]
  }

  /** The instants younger than the window, in order. */
  function Recent(times: seq<nat>, now: nat): seq<nat> {
    if times == [] then []
    else
      Recent(times[..|times| - 1], now)
      + if Since(now, times[|times| - 1]) < MAX_RESTART_TIME then [times[|times| - 1]] else []
  }

  /** Eviction from the front only. */
  function Evicted(failures: seq<nat>, now: nat): seq<nat> {
    if failures != [] && Since(now, failures[0]) >= MAX_RESTART_TIME then Evicted(failures[1..], now) else failures
  }

  /** The failures the policy accepts: refused exactly when five accepted ones are still recent. */
  function Accepted(times: seq<nat>): seq<nat> {
    if times == [] then []
    else
      var before, now := Accepted(times[..|times| - 1]), times[|times| - 1];
      if |Recent(before, now)| >= MAX_RESTARTS then before else before + [now]
  }

  class RestartBudget {
    var failures: seq<nat>

    constructor ()
      ensures failures == []
    {
      failures := [];
    }

    method RecordFailure(now: nat) returns (admitted: bool)
      modifies this
      ensures admitted == (|Evicted(old(failures), now)| < MAX_RESTARTS)
      ensures failures == Evicted(old(failures), now) + if admitted then [now] else []
    {
      while failures != [] && Since(now, failures[0]) >= MAX_RESTART_TIME
        invariant Evicted(failures, now) == Evicted(old(failures), now)
        decreases |failures|
      {
        failures := failures[1..];
      }
      if |failures| >= MAX_RESTARTS { return false; }
      failures := failures + [now];
      return true;
    }
  }

  /** The deque after a whole history of failures. */
  function Deque(times: seq<nat>): seq<nat> {
    if times == [] then []
    else
      var kept, now := Evicted(Deque(times[..|times| - 1]), times[|times| - 1]), times[|times| - 1];
      if |kept| >= MAX_RESTARTS then kept else kept + [now]
  }

  /** Whether each failure of a history is admitted. */
  function Verdicts(times: seq<nat>): seq<bool> {
    if times == [] then []
    else
      var front, now := times[..|times| - 1], times[|times| - 1];
      Verdicts(front) + [|Evicted(Deque(front), now)| < MAX_RESTARTS]
  }

  /** Replays a history against one budget, as replacements of one role share it. */
  method Replay(times: seq<nat>) returns (budget: RestartBudget, verdicts: seq<bool>)
    ensures fresh(budget) && budget.failures == Deque(times)
    ensures verdicts == Verdicts(times)
  {
    budget := new RestartBudget();
    verdicts := [];
    for i := 0 to |times|
      invariant fresh(budget) && budget.failures == Deque(times[..i])
      invariant verdicts == Verdicts(times[..i])
    {
      assert times[..i + 1][..i] == times[..i];
      var admitted := budget.RecordFailure(times[i]);
      verdicts := verdicts + [admitted];
    }
    assert times[..|times|] == times;
  }

  // ---- What the deque stands for -------------------------------------------------------

  lemma {:induction false} RecentFirst(times: seq<nat>, now: nat)
    requires times != []
    ensures Recent(times, now)
         == (if Since(now, times[0]) < MAX_RESTART_TIME then [times[0]] else []) + Recent(times[1..], now)
  {
    var front := times[..|times| - 1];
    if front != [] {
      RecentFirst(front, now);
      assert times[1..][..|times| - 2] == front[1..];
    }
  }

  lemma {:induction false} RecentAll(times: seq<nat>, now: nat)
    requires forall i :: 0 <= i < |times| ==> Since(now, times[i]) < MAX_RESTART_TIME
    ensures Recent(times, now) == times
  {
    if times != [] { RecentAll(times[..|times| - 1], now); }
  }

  /** On ordered instants evicting from the front is the whole filter. */
  lemma {:induction false} EvictedIsRecent(failures: seq<nat>, now: nat)
    requires Nondecreasing(failures)
    ensures Evicted(failures, now) == Recent(failures, now)
  {
    if failures != [] {
      RecentFirst(failures, now);
      if Since(now, failures[0]) >= MAX_RESTART_TIME {
        EvictedIsRecent(failures[1..], now);
      } else {
        RecentAll(failures, now);
      }
    }
  }

  /** Forgetting what an earlier instant already found too old changes nothing later. */
  lemma {:induction false} RecentTwice(times: seq<nat>, before: nat, now: nat)
    requires before <= now
    ensures Recent(Recent(times, before), now) == Recent(times, now)
  {
    if times != [] {
      var front, last := times[..|times| - 1], times[|times| - 1];
      RecentTwice(front, before, now);
      var kept := Recent(front, before);
      assert (kept + [last])[..|kept|] == kept && kept + [] == kept;
    }
  }

  lemma {:induction false} RecentOrdered(times: seq<nat>, now: nat)
    requires Nondecreasing(times)
    ensures Nondecreasing(Recent(times, now))
    ensures forall t :: t in Recent(times, now) ==> t in times
  {
    if times != [] {
      var front, last := times[..|times| - 1], times[|times| - 1];
      RecentOrdered(front, now);
      assert times == front + [last];
      var kept := Recent(front, now);
      forall i | 0 <= i < |kept| ensures kept[i] <= last {
        assert kept[i] in kept;
        assert kept[i] in front;
      }
    }
  }

  lemma {:induction false} AcceptedOrdered(times: seq<nat>)
    requires Nondecreasing(times)
    ensures Nondecreasing(Accepted(times))
    ensures forall t :: t in Accepted(times) ==> t in times
  {
    if times != [] {
      var front, last := times[..|times| - 1], times[|times| - 1];
      AcceptedOrdered(front);
      assert times == front + [last];
      var before := Accepted(front);
      forall i | 0 <= i < |before| ensures before[i] <= last {
        assert before[i] in before;
        assert before[i] in front;
      }
    }
  }

  /**
   * After any nondecreasing history the deque is exactly the accepted failures younger than the
   * window; so a failure is refused exactly when five such exist.
   */
  lemma {:induction false} DequeExact(times: seq<nat>)
    requires Nondecreasing(times) && times != []
    ensures
      var now := times[|times| - 1];
      && Deque(times) == Recent(Accepted(times), now)
      && Evicted(Deque(times[..|times| - 1]), now) == Recent(Accepted(times[..|times| - 1]), now)
  {
    hide Evicted, Recent;
    var front, now := times[..|times| - 1], times[|times| - 1];
    var before := Accepted(front);
    RecentSnoc(before, now);
    if front == [] {
      EvictedIsRecent([], now);
    } else {
      DequeExact(front);
      AcceptedOrdered(front);
      var earlier := front[|front| - 1];
      RecentOrdered(before, earlier);
      EvictedIsRecent(Deque(front), now);
      RecentTwice(before, earlier, now);
    }
  }

  lemma RecentSnoc(times: seq<nat>, now: nat)
    ensures Recent(times + [now], now) == Recent(times, now) + [now]
  {
    assert (times + [now])[..|times|] == times;
  }

  /** If the sixth-last accepted failure were recent, the five after it would be too. */
  lemma {:induction false} RecentSuffix(times: seq<nat>, now: nat, k: nat)
    requires Nondecreasing(times) && k <= |times|
    requires k > 0 ==> Since(now, times[|times| - k]) < MAX_RESTART_TIME
    ensures |Recent(times, now)| >= k
  {
    if k > 0 { RecentSuffix(times[..|times| - 1], now, k - 1); }
  }

  /** Restart intensity: any six consecutive accepted failures span at least the whole window. */
  lemma {:induction false} SixSpanTheWindow(times: seq<nat>, i: nat)
    requires Nondecreasing(times) && i + 5 < |Accepted(times)|
    ensures Accepted(times)[i + 5] >= Accepted(times)[i] + MAX_RESTART_TIME
  {
    var front, now := times[..|times| - 1], times[|times| - 1];
    var before := Accepted(front);
    AcceptedOrdered(front);
    if i + 5 < |before| {
      SixSpanTheWindow(front, i);
    } else {
      assert |before| == i + 5;
      AcceptedOrdered(times);
      assert Accepted(times)[i] <= Accepted(times)[i + 5];
      if Since(now, before[i]) < MAX_RESTART_TIME { RecentSuffix(before, now, 5); }
    }
  }
}
