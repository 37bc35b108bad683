/**
 * The rate-limit hook (useRateLimit.js): a call is let through only when at
 * least `delayMs` milliseconds have passed since the last call that was let
 * through; otherwise it is dropped and the number of seconds still to wait is
 * published. The clock is a parameter: `now` is the value `Date.now()` returned.
 */
module RateLimit {
  import opened Wrappers

  /** The delay when the hook is used without an argument. */
  const DefaultDelayMs := 2000

  /** `Math.ceil(a / b)` for integers and a positive divisor. */
  function CeilDiv(a: int, b: int): int
    requires b > 0
  {
    -((-a) / b)
  }

  /** `CeilDiv` is the ceiling: the least `q` with `q * b >= a`. */
  lemma CeilDivIsCeiling(a: int, b: int)
    requires b > 0
    ensures CeilDiv(a, b) * b >= a
    ensures (CeilDiv(a, b) - 1) * b < a
  {
    var q := (-a) / b;
    var r := (-a) % b;
    assert -a == q * b + r && 0 <= r < b;
  }

  /** `Math.ceil((delayMs - timeSinceLastRequest) / 1000)`: the whole seconds still to wait. */
  function SecondsToWait(delayMs: int, elapsed: int): int
  {
    CeilDiv(delayMs - elapsed, 1000)
  }

  /**
   * A rejected call with a clock that did not go back waits at least one second
   * and never more than the whole delay rounded up to seconds.
   */
  lemma SecondsToWaitBounds(delayMs: int, elapsed: int)
    requires 0 <= elapsed < delayMs
    ensures 1 <= SecondsToWait(delayMs, elapsed) <= CeilDiv(delayMs, 1000)
  {
    CeilDivIsCeiling(delayMs - elapsed, 1000);
    CeilDivIsCeiling(delayMs, 1000);
  }

  /** With the default delay the published wait is one or two seconds. */
  lemma DefaultWaitAtMostTwoSeconds(elapsed: int)
    requires 0 <= elapsed < DefaultDelayMs
    ensures 1 <= SecondsToWait(DefaultDelayMs, elapsed) <= 2
  {
    SecondsToWaitBounds(DefaultDelayMs, elapsed);
  }

  /** Consecutive entries of `times` lie at least `delay` apart. */
  ghost predicate Spaced(times: seq<int>, delay: int)
  {
    forall i :: 0 < i < |times| ==> times[i] - times[i - 1] >= delay
  }

  /** With a non-negative delay, spacing between neighbours is spacing between any two entries. */
  lemma {:induction false} SpacedPairs(times: seq<int>, delay: int)
    requires delay >= 0 && Spaced(times, delay)
    ensures forall i, j :: 0 <= i < j < |times| ==> times[j] - times[i] >= delay
    decreases |times|
  {
    if |times| > 1 {
      var prefix := times[..|times| - 1];
      assert Spaced(prefix, delay);
      SpacedPairs(prefix, delay);
      forall i, j | 0 <= i < j < |times| ensures times[j] - times[i] >= delay {
        if j < |times| - 1 {
          assert times[j] - times[i] == prefix[j] - prefix[i];
        } else if i < j - 1 {
          assert times[j - 1] - times[i] == prefix[j - 1] - prefix[i];
        }
      }
    }
  }

  /** What the callback did: returned a value or threw an error. */
  datatype Outcome<T> = Returned(value: T) | Threw(error: string)

  class RateLimiter {
    const delayMs: int
    /** `lastRequestRef.current` */
    var lastRequest: int
    var isLoading: bool
    var remainingTime: int
    /** The `now` of every call let through, oldest first. */
    ghost var accepted: seq<int>

    /**
     * `lastRequest` is the time of the last call let through (0 before any), and
     * every call let through came at least `delayMs` after the previous one, the
     * first one at least `delayMs` after time 0.
     */
    ghost predicate Valid()
      reads this
    {
      && (if accepted == [] then lastRequest == 0 else lastRequest == accepted[|accepted| - 1])
      && Spaced([0] + accepted, delayMs)
    }

    /** `useRateLimit(delayMs)`: nothing in flight, nothing to wait for, no request yet. */
    constructor (delayMs: int)
      ensures this.delayMs == delayMs
      ensures lastRequest == 0 && !isLoading && remainingTime == 0 && accepted == []
      ensures Valid()
    {
      this.delayMs := delayMs;
      lastRequest := 0;
      isLoading := false;
      remainingTime := 0;
      accepted := [];
    }

    /**
     * The first half of `executeWithRateLimit`: decides whether the call at `now`
     * goes through. A dropped call only publishes the seconds to wait; a call let
     * through marks the hook as loading, clears the wait and records `now`.
     */
    method Admit(now: int) returns (admitted: bool)
      requires Valid()
      modifies this
      ensures Valid()
      ensures admitted <==> now - old(lastRequest) >= delayMs
      ensures !admitted ==> && lastRequest == old(lastRequest) && accepted == old(accepted)
                            && isLoading == old(isLoading)
                            && remainingTime == SecondsToWait(delayMs, now - old(lastRequest))
      ensures admitted ==> && lastRequest == now && accepted == old(accepted) + [now]
                           && isLoading && remainingTime == 0
    {
      var timeSinceLastRequest := now - lastRequest;
      if timeSinceLastRequest < delayMs {
        remainingTime := SecondsToWait(delayMs, timeSinceLastRequest);
        return false;
      }
      isLoading := true;
      remainingTime := 0;
      assert [0] + (accepted + [now]) == ([0] + accepted) + [now];
      lastRequest := now;
      accepted := accepted + [now];
      return true;
    }

    /**
     * The second half: the callback has run with the given outcome. Loading ends
     * either way, the time of the call stays recorded, and an error is re-thrown.
     */
    method Settle<T>(outcome: Outcome<T>) returns (r: Outcome<T>)
      requires Valid()
      modifies this
      ensures Valid()
      ensures r == outcome
      ensures !isLoading
      ensures lastRequest == old(lastRequest) && accepted == old(accepted) && remainingTime == old(remainingTime)
    {
      isLoading := false;
      r := outcome;
    }

    /**
     * `executeWithRateLimit(callback)`, where `callback` is what the callback would
     * do if it ran: `None` is the `null` of a dropped call.
     */
    method ExecuteWithRateLimit<T>(now: int, callback: Outcome<T>) returns (r: Option<Outcome<T>>)
      requires Valid()
      modifies this
      ensures Valid()
      ensures r.None? <==> now - old(lastRequest) < delayMs
      ensures r.Some? ==> && r.value == callback && lastRequest == now
                          && accepted == old(accepted) + [now] && !isLoading && remainingTime == 0
      ensures r.None? ==> && lastRequest == old(lastRequest) && accepted == old(accepted)
                          && isLoading == old(isLoading)
                          && remainingTime == SecondsToWait(delayMs, now - old(lastRequest))
    {
      var admitted := Admit(now);
      if !admitted {
        return None;
      }
      var outcome := Settle(callback);
      return Some(outcome);
    }
  }

  /**
   * Any two calls a limiter lets through are at least its delay apart, and the
   * first comes at least the delay after time 0.
   */
  lemma AcceptedCallsApart(l: RateLimiter)
    requires l.Valid() && l.delayMs >= 0
    ensures forall i, j :: 0 <= i < j < |l.accepted| ==> l.accepted[j] - l.accepted[i] >= l.delayMs
    ensures l.accepted != [] ==> l.accepted[0] >= l.delayMs
  {
    var times := [0] + l.accepted;
    SpacedPairs(times, l.delayMs);
    forall i, j | 0 <= i < j < |l.accepted| ensures l.accepted[j] - l.accepted[i] >= l.delayMs {
      assert l.accepted[j] - l.accepted[i] == times[j + 1] - times[i + 1];
    }
    if l.accepted != [] {
      assert l.accepted[0] - 0 == times[1] - times[0];
    }
  }
}
