/** The health checker: two streak counters and a state that stands for the whole probe history. */
module HealthChecker {
  import opened Prelude

  datatype HealthState = Unknown | Healthy | Unhealthy

  const NO_PROBE := "health probe is not configured"

  // ---------------------------------------------------------------- reading a probe history

  /** The last `n` of the first `k` outcomes are all `b`. */
  ghost predicate RunEnds(h: seq<bool>, k: int, n: nat, b: bool) {
    n <= k <= |h| && forall i | k - n <= i < k :: h[i] == b
  }

  /** `n` is the length of the longest run of `b` at the end of the history. */
  ghost predicate Trailing(h: seq<bool>, b: bool, n: nat) {
    RunEnds(h, |h|, n, b) && (n < |h| ==> h[|h|-1-n] != b)
  }

  /** A run of `n` times `b` ended at `k`, and no run of `m` times the opposite has ended since. */
  ghost predicate LastMetAt(h: seq<bool>, k: int, n: nat, b: bool, m: nat) {
    RunEnds(h, k, n, b) && NoRunFrom(h, k, m, !b)
  }

  ghost predicate NoRunFrom(h: seq<bool>, k: int, n: nat, b: bool) {
    forall j | k <= j <= |h| :: !RunEnds(h, j, n, b)
  }

  ghost predicate LastMet(h: seq<bool>, n: nat, b: bool, m: nat) {
    exists k :: LastMetAt(h, k, n, b, m)
  }

  /** The state belongs to the last position at which a run reached its threshold, if there is one. */
  ghost predicate Decides(h: seq<bool>, successes: nat, failures: nat, state: HealthState) {
    match state
    case Healthy => LastMet(h, successes, true, failures)
    case Unhealthy => LastMet(h, failures, false, successes)
    case Unknown => forall k :: !RunEnds(h, k, successes, true) && !RunEnds(h, k, failures, false)
  }

  lemma RunEndsEarlier(h: seq<bool>, ok: bool, k: int, n: nat, b: bool)
    requires k <= |h|
    ensures RunEnds(h + [ok], k, n, b) <==> RunEnds(h, k, n, b)
  {
    if n <= k {
      assert forall i | k - n <= i < k :: (h + [ok])[i] == h[i];
    }
  }

  lemma RunEndsNow(h: seq<bool>, ok: bool, streak: nat, n: nat)
    requires Trailing(h, ok, streak) && n >= 1
    ensures RunEnds(h + [ok], |h| + 1, n, ok) <==> n <= streak + 1
    ensures !RunEnds(h + [ok], |h| + 1, n, !ok)
    ensures Trailing(h + [ok], ok, streak + 1) && Trailing(h + [ok], !ok, 0)
  {
    var h' := h + [ok];
    if n > streak + 1 && |h| + 1 >= n {
      assert h'[|h| - 1 - streak] != ok;
    }
    assert h'[|h|] == ok;
  }

  /** One more outcome `ok`: with a run of `n` now complete the state is decided anew, otherwise it stays. */
  lemma DecidesNext(h: seq<bool>, ok: bool, streak: nat, successes: nat, failures: nat, state: HealthState)
    requires Trailing(h, ok, streak) && successes >= 1 && failures >= 1 && Decides(h, successes, failures, state)
    ensures var met := if ok then successes <= streak + 1 else failures <= streak + 1;
      Decides(h + [ok], successes, failures, if met then (if ok then Healthy else Unhealthy) else state)
  {
    var n, m := if ok then successes else failures, if ok then failures else successes;
    RunEndsNow(h, ok, streak, n);
    RunEndsNow(h, ok, streak, m);
    if n <= streak + 1 {
      assert LastMetAt(h + [ok], |h| + 1, n, ok, m);
    } else {
      hide RunEnds;
      forall k: int, l: nat, b | k <= |h| ensures RunEnds(h + [ok], k, l, b) <==> RunEnds(h, k, l, b) {
        RunEndsEarlier(h, ok, k, l, b);
      }
      match state {
        case Healthy => MetStays(h, ok, successes, true, failures);
        case Unhealthy => MetStays(h, ok, failures, false, successes);
        case Unknown =>
          forall k ensures !RunEnds(h + [ok], k, successes, true) && !RunEnds(h + [ok], k, failures, false) {
            RunEndsWithin(h + [ok], k, successes, true);
            RunEndsWithin(h + [ok], k, failures, false);
          }
      }
    }
  }

  lemma RunEndsWithin(h: seq<bool>, k: int, n: nat, b: bool)
    ensures RunEnds(h, k, n, b) ==> n <= k <= |h|
  {
  }

  lemma MetStays(h: seq<bool>, ok: bool, n: nat, b: bool, m: nat)
    requires LastMet(h, n, b, m) && !RunEnds(h + [ok], |h| + 1, m, !b)
    ensures LastMet(h + [ok], n, b, m)
  {
    var k :| LastMetAt(h, k, n, b, m);
    var opposite := !b;
    forall j | k <= j <= |h| + 1 ensures !RunEnds(h + [ok], j, m, opposite) {
      if j <= |h| { RunEndsEarlier(h, ok, j, m, opposite); }
    }
    RunEndsEarlier(h, ok, k, n, b);
    assert LastMetAt(h + [ok], k, n, b, m);
  }

  lemma NeverBoth(h: seq<bool>, j: int, successes: nat, failures: nat)
    requires successes >= 1 && failures >= 1 && LastMetAt(h, j, successes, true, failures)
    ensures !LastMet(h, failures, false, successes)
  {
    forall k | RunEnds(h, k, failures, false) ensures !NoRunFrom(h, k, successes, true) {
      assert !h[k-1];
      assert h[j-1];
      assert k < j;
    }
  }

  /** A history decides one state only. */
  lemma DecidesOne(h: seq<bool>, successes: nat, failures: nat, a: HealthState, b: HealthState)
    requires successes >= 1 && failures >= 1
    requires Decides(h, successes, failures, a) && Decides(h, successes, failures, b)
    ensures a == b
  {
    if j :| LastMetAt(h, j, successes, true, failures) {
      NeverBoth(h, j, successes, failures);
    }
    if k :| LastMetAt(h, k, failures, false, successes) {
      assert RunEnds(h, k, failures, false);
    }
  }

  // ---------------------------------------------------------------- the network

  /** The network as a probe meets it; it remembers every answer it gave. */
  class Network {
    ghost var answers: seq<Probed>

    constructor ()
      ensures answers == []
    {
      answers := [];
    }

    /** One connection attempt or request, which may fail freely. */
    method Probe(clock: Clock) returns (r: Result<Unit, string>)
      modifies this
      ensures answers == old(answers) + [Probed(clock.now, r.Ok?)]
    {
      var failing: bool := *;
      var reason: string := *;
      r := if failing then Err(reason) else Ok(Unit.Unit);
      answers := answers + [Probed(clock.now, r.Ok?)];
    }
  }

  // ---------------------------------------------------------------- the checker

  class HealthChecker {
    const successThreshold: nat
    const failureThreshold: nat
    var state: HealthState
    var consecutiveSuccesses: nat
    var consecutiveFailures: nat
    var lastError: Option<string>
    /** The outcomes since construction or the last reset. */
    ghost var history: seq<bool>

    constructor (successThreshold: int, failureThreshold: int)
      ensures Valid() && history == [] && state == Unknown && lastError == None
      ensures this.successThreshold == Max(successThreshold, 1) && this.failureThreshold == Max(failureThreshold, 1)
    {
      this.successThreshold := if successThreshold <= 0 then 1 else successThreshold;
      this.failureThreshold := if failureThreshold <= 0 then 1 else failureThreshold;
      state := Unknown;
      consecutiveSuccesses, consecutiveFailures := 0, 0;
      lastError := None;
      history := [];
    }

    ghost predicate Valid()
      reads this
    {
      && successThreshold >= 1 && failureThreshold >= 1
      && Trailing(history, true, consecutiveSuccesses)
      && Trailing(history, false, consecutiveFailures)
      && Decides(history, successThreshold, failureThreshold, state)
      && (lastError.None? <==> history == [] || history[|history|-1])
    }

    /** One probe. Without a probe every evaluation is a failure. */
    method Evaluate(outcome: Option<Result<Unit, string>>) returns (r: HealthState)
      requires Valid()
      modifies this
      ensures Valid() && r == state
      ensures history == old(history) + [outcome.Some? && outcome.value.Ok?]
      ensures lastError ==
        match outcome case None => Some(NO_PROBE) case Some(Ok(_)) => None case Some(Err(e)) => Some(e)
    {
      ghost var h := history;
      if outcome.None? {
        RunEndsNow(h, false, consecutiveFailures, failureThreshold);
        DecidesNext(h, false, consecutiveFailures, successThreshold, failureThreshold, state);
        consecutiveSuccesses := 0;
        consecutiveFailures := consecutiveFailures + 1;
        lastError := Some(NO_PROBE);
        history := history + [false];
        if consecutiveFailures >= failureThreshold {
          state := Unhealthy;
        }
        return state;
      }
      if outcome.value.Ok? {
        RunEndsNow(h, true, consecutiveSuccesses, successThreshold);
        DecidesNext(h, true, consecutiveSuccesses, successThreshold, failureThreshold, state);
        consecutiveSuccesses := consecutiveSuccesses + 1;
        consecutiveFailures := 0;
        lastError := None;
        history := history + [true];
        if consecutiveSuccesses >= successThreshold {
          state := Healthy;
        }
        return state;
      }
      RunEndsNow(h, false, consecutiveFailures, failureThreshold);
      DecidesNext(h, false, consecutiveFailures, successThreshold, failureThreshold, state);
      consecutiveSuccesses := 0;
      consecutiveFailures := consecutiveFailures + 1;
      lastError := Some(outcome.value.error);
      history := history + [false];
      if consecutiveFailures >= failureThreshold {
        state := Unhealthy;
      }
      return state;
    }

    method Reset()
      requires Valid()
      modifies this
      ensures Valid() && history == [] && state == Unknown && consecutiveSuccesses == 0 && consecutiveFailures == 0
    {
      state := Unknown;
      consecutiveSuccesses, consecutiveFailures := 0, 0;
      lastError := None;
      history := [];
    }
  }

  // ---------------------------------------------------------------- waiting for readiness

  /** A probe that was started at `at`. */
  datatype Probed = Probed(at: int, ok: bool)

  function Outcomes(trace: seq<Probed>): (r: seq<bool>)
    ensures |r| == |trace| && forall i | 0 <= i < |r| :: r[i] == trace[i].ok
  {
    seq(|trace|, i requires 0 <= i < |trace| => trace[i].ok)
  }

  /** When the probes were started. */
  function Moments(trace: seq<Probed>): (r: seq<int>)
    ensures |r| == |trace| && forall i | 0 <= i < |r| :: r[i] == trace[i].at
  {
    seq(|trace|, i requires 0 <= i < |trace| => trace[i].at)
  }

  lemma MomentsNext(trace: seq<Probed>, p: Probed)
    ensures Moments(trace + [p]) == Moments(trace) + [p.at]
  {
  }

  /** Every probe started in time, and one interval or more after the one before it. */
  ghost predicate Paced(trace: seq<Probed>, start: int, timeout: nat, interval: nat) {
    && (forall i | 0 <= i < |trace| :: start <= trace[i].at < start + timeout)
    && (forall i | 0 < i < |trace| :: trace[i].at >= trace[i-1].at + interval)
  }

  /** A run of `successes` good probes is complete before any run of `failures` bad ones. */
  ghost predicate Ready(trace: seq<Probed>, successes: nat, failures: nat) {
    exists k :: RunEnds(Outcomes(trace), k, successes, true) && NoRunUntil(Outcomes(trace), k, failures, false)
  }

  ghost predicate NoRunUntil(h: seq<bool>, k: int, n: nat, b: bool) {
    forall j | j <= k :: !RunEnds(h, j, n, b)
  }

  lemma OutcomesNext(trace: seq<Probed>, p: Probed)
    ensures Outcomes(trace + [p]) == Outcomes(trace) + [p.ok]
  {
  }

  /** When the first run to reach its threshold is one of successes, and when it is not. */
  lemma FirstDecision(trace: seq<Probed>, p: Probed, successes: nat, failures: nat, state: HealthState)
    requires successes >= 1 && failures >= 1
    requires Decides(Outcomes(trace), successes, failures, Unknown)
    requires Decides(Outcomes(trace) + [p.ok], successes, failures, state)
    ensures Ready(trace + [p], successes, failures) <==> state.Healthy?
    ensures state.Healthy? ==> p.ok && RunEnds(Outcomes(trace + [p]), |trace| + 1, successes, true)
    ensures state.Unhealthy? ==> RunEnds(Outcomes(trace + [p]), |trace| + 1, failures, false)
  {
    OutcomesNext(trace, p);
    var h, h' := Outcomes(trace), Outcomes(trace + [p]);
    assert |h'| == |h| + 1 && h' == h + [p.ok];
    forall k, n: nat, b | k <= |h| ensures RunEnds(h', k, n, b) <==> RunEnds(h, k, n, b) {
      RunEndsEarlier(h, p.ok, k, n, b);
    }
    var n, m := if p.ok then successes else failures, if p.ok then failures else successes;
    assert !RunEnds(h', |h'|, m, !p.ok) by { assert h'[|h|] == p.ok; }
    assert RunEnds(h', |h'|, successes, true) ==> p.ok by { assert h'[|h|] == p.ok; }
    hide RunEnds;
    forall k ensures RunEnds(h', k, successes, true) || RunEnds(h', k, failures, false) ==> k == |h'| {
      RunEndsWithin(h', k, successes, true);
      RunEndsWithin(h', k, failures, false);
    }
    if RunEnds(h', |h'|, successes, true) {
      assert NoRunUntil(h', |h'|, failures, false);
      assert LastMetAt(h', |h'|, successes, true, failures);
      DecidesOne(h', successes, failures, state, Healthy);
    } else if RunEnds(h', |h'|, failures, false) {
      assert LastMetAt(h', |h'|, failures, false, successes);
      DecidesOne(h', successes, failures, state, Unhealthy);
    } else {
      DecidesOne(h', successes, failures, state, Unknown);
    }
  }

  lemma PacedStart(start: int, timeout: nat, interval: nat)
    ensures Paced([], start, timeout, interval)
  {
  }

  lemma PacedNext(trace: seq<Probed>, p: Probed, start: int, timeout: nat, interval: nat)
    requires Paced(trace, start, timeout, interval) && start <= p.at < start + timeout
    requires trace != [] ==> p.at >= trace[|trace|-1].at + interval
    ensures Paced(trace + [p], start, timeout, interval)
  {
  }

  lemma {:induction false} ApartAtLeast(trace: seq<Probed>, start: int, timeout: nat, interval: nat, i: nat, j: nat)
    requires Paced(trace, start, timeout, interval) && i <= j < |trace|
    ensures trace[j].at >= trace[i].at + (j - i) * interval
    decreases j - i
  {
    if i < j {
      ApartAtLeast(trace, start, timeout, interval, i, j - 1);
      assert (j - i) * interval == (j - 1 - i) * interval + interval;
    }
  }

  /** A release can be found ready if and only if `successes - 1` intervals fit below the timeout. */
  lemma ReadinessBound(start: int, timeout: nat, interval: nat, successes: nat, failures: nat)
    requires successes >= 1 && failures >= 1
    ensures (exists trace :: Paced(trace, start, timeout, interval) && Ready(trace, successes, failures))
      <==> (successes - 1) * interval < timeout
  {
    if trace :| Paced(trace, start, timeout, interval) && Ready(trace, successes, failures) {
      var k :| RunEnds(Outcomes(trace), k, successes, true);
      ApartAtLeast(trace, start, timeout, interval, k - successes, k - 1);
    }
    if (successes - 1) * interval < timeout {
      SteadyTrace(start, timeout, interval, successes, failures);
    }
  }

  /** A service that answers at once is found ready after `successes - 1` intervals, which is less than
      the `successes` intervals README.md gives as the shortest life of an accepted release. */
  lemma SteadyTrace(start: int, timeout: nat, interval: nat, successes: nat, failures: nat)
    requires successes >= 1 && failures >= 1 && (successes - 1) * interval < timeout
    ensures var trace := seq(successes, i requires 0 <= i => Probed(start + i * interval, true));
      && Paced(trace, start, timeout, interval) && Ready(trace, successes, failures)
      && trace[|trace|-1].at - start == (successes - 1) * interval
  {
    var trace := seq(successes, i requires 0 <= i => Probed(start + i * interval, true));
    forall i | 0 <= i < |trace| ensures start <= trace[i].at < start + timeout {
      assert 0 <= i * interval <= (successes - 1) * interval;
    }
    forall i | 0 < i < |trace| ensures trace[i].at >= trace[i-1].at + interval {
      assert i * interval == (i - 1) * interval + interval;
    }
    assert RunEnds(Outcomes(trace), successes, successes, true);
    forall j | j <= successes ensures !RunEnds(Outcomes(trace), j, failures, false) {
      assert 0 < j ==> Outcomes(trace)[j-1];
    }
  }
}
