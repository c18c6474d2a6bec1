/** The adaptive bandwidth-check period of one gateway, in whole seconds. */
module DepletionRate {
  import opened Prelude

  const DEFAULT_BANDWIDTH_CHECK: Duration := 5
  const DEFAULT_PEER_TIMEOUT_CHECK: Duration := 5
  const LOWER_BOUND_CHECK_DURATION: Duration := DEFAULT_PEER_TIMEOUT_CHECK
  const UPPER_BOUND_CHECK_DURATION: Duration := 6 * DEFAULT_PEER_TIMEOUT_CHECK
  const DEFAULT_BANDWIDTH_DEPLETION_RATE: nat := 1024 * 1024
  const MINIMUM_REMAINING_BANDWIDTH: nat := 500 * 1024 * 1024

  /** Failures only a zero divisor can cause. */
  datatype IntervalError = ZeroInterval | ZeroRate

  function CheckedDiv(a: nat, b: nat): Option<nat> {
    if b == 0 then None else Some(a / b)
  }

  function SaturatingSub(a: nat, b: nat): nat {
    if a <= b then 0 else a - b
  }

  /** Bytes per second used since the last check, rounded down. */
  function MeasuredRate(available: nat, remaining: nat, period: Duration): nat
    requires period > 0
  {
    SaturatingSub(available, remaining) / period
  }

  /** At this rate the bandwidth left lasts fewer than ten checks, or is under 500 MiB. */
  predicate NeedsTopUp(rate: nat, remaining: nat, period: Duration) {
    remaining < 10 * period * rate || remaining < MINIMUM_REMAINING_BANDWIDTH
  }

  /**
   * The next check of a side, for the periods in use: the short period while nothing is used,
   * none if a top-up is called for, and the long period otherwise.
   */
  function NextPeriod(available: nat, remaining: nat, period: Duration): Option<Duration>
    requires period > 0
  {
    var measured := MeasuredRate(available, remaining, period);
    if measured == 0 then Some(LOWER_BOUND_CHECK_DURATION)
    else if NeedsTopUp(measured, remaining, period) then None
    else Some(UPPER_BOUND_CHECK_DURATION)
  }

  /** The measured rate is the bytes used since the last check, per second and rounded down. */
  lemma MeasuredRateMeans(available: nat, remaining: nat, period: Duration)
    requires period > 0
    ensures var measured := MeasuredRate(available, remaining, period);
            && (available <= remaining ==> measured == 0)
            && (remaining < available ==> measured * period <= available - remaining < (measured + 1) * period)
  {
  }

  /**
   * In bytes and seconds: less than a byte per second used asks for 5 s; otherwise there is no
   * period to go on with exactly if less than ten checks at that rate or 500 MiB are left, and it
   * is 30 s if there is.
   */
  lemma NextPeriodMeans(available: nat, remaining: nat, period: Duration)
    requires period > 0
    ensures var next := NextPeriod(available, remaining, period);
            && (available < remaining + period ==> next == Some(5))
            && (available >= remaining + period ==>
                  next == if remaining < 10 * period * ((available - remaining) / period) || remaining < 524_288_000
                          then None else Some(30))
  {
    if remaining < available { QuotientBelow(available - remaining, period, 1); }
  }

  lemma ScaledOrder(m: nat, n: nat, b: nat)
    requires m <= n
    ensures m * b <= n * b
  {
  }

  lemma QuotientBelow(a: nat, b: nat, k: nat)
    requires b > 0
    ensures a / b < k <==> a < k * b
  {
    var q := a / b;
    assert q * b <= a < q * b + b;
    if q < k { ScaledOrder(q + 1, k, b); assert (q + 1) * b == q * b + b; } else { ScaledOrder(k, q, b); }
  }

  /** Dividing by the rate and then by the period loses nothing against a whole bound. */
  lemma NestedQuotientBelow(remaining: nat, rate: nat, period: nat, k: nat)
    requires rate > 0 && period > 0
    ensures remaining / rate / period < k <==> remaining < k * period * rate
  {
    QuotientBelow(remaining / rate, period, k);
    QuotientBelow(remaining, rate, k * period);
  }

  lemma QuotientTimes(a: nat, b: nat, d: nat)
    requires b > 0 && d <= a / b
    ensures b * d <= a
  {
    QuotientBelow(a, b, d);
    assert b * d == d * b;
  }

  class DepletionRate {
    var rate: nat
    var available: nat

    constructor ()
      ensures rate == DEFAULT_BANDWIDTH_DEPLETION_RATE && available == 0
    {
      rate, available := DEFAULT_BANDWIDTH_DEPLETION_RATE, 0;
    }

    /**
     * The period until the next check, or `None` to ask for a top-up. A top-up is asked for
     * exactly when bandwidth was used and too little is left; otherwise what is left outlasts
     * the new period at the measured rate. The only failure is a zero period.
     */
    method UpdateDynamicCheckInterval(period: Duration, remaining: nat)
      returns (r: Result<Option<Duration>, IntervalError>)
      modifies this
      ensures r.Err? <==> period == 0
      ensures r.Err? ==> r.error == ZeroInterval && rate == old(rate) && available == old(available)
      ensures period > 0 ==>
              var measured := (if remaining < old(available) then old(available) - remaining else 0) / period;
              && available == remaining
              && rate == (if measured == 0 then old(rate) else measured)
              && (r.value.None? <==>
                    measured > 0 && (remaining < 10 * period * measured || remaining < 500 * 1024 * 1024))
              && (measured == 0 ==> r.value == Some(5))
              && (measured > 0 && r.value.Some? ==>
                    && 0 < r.value.value <= UPPER_BOUND_CHECK_DURATION
                    && measured * r.value.value <= remaining
                    && r.value.value == (if remaining / measured > UPPER_BOUND_CHECK_DURATION
                                         then UPPER_BOUND_CHECK_DURATION else remaining / measured / period)
                    && 10 * period * measured <= remaining && MINIMUM_REMAINING_BANDWIDTH <= remaining)
      ensures period > 3 ==> r == Ok(NextPeriod(old(available), remaining, period))
    {
      var newRate := CheckedDiv(SaturatingSub(available, remaining), period);
      if newRate.None? {
        return Err(ZeroInterval);
      }
      available := remaining;
      if newRate.value == 0 {
        return Ok(Some(DEFAULT_PEER_TIMEOUT_CHECK));
      }
      rate := newRate.value;
      var estimate := CheckedDiv(remaining, rate);
      if estimate.None? {
        return Err(ZeroRate);
      }
      var checks := if period == 0 then 0 else estimate.value / period;
      NestedQuotientBelow(remaining, rate, period, 10);
      if checks < 10 {
        return Ok(None);
      }
      if available < MINIMUM_REMAINING_BANDWIDTH {
        return Ok(None);
      }
      QuotientBelow(estimate.value, period, 10);
      if estimate.value > UPPER_BOUND_CHECK_DURATION {
        QuotientTimes(remaining, rate, UPPER_BOUND_CHECK_DURATION);
        r := Ok(Some(UPPER_BOUND_CHECK_DURATION));
      } else if estimate.value < LOWER_BOUND_CHECK_DURATION {
        r := Ok(Some(LOWER_BOUND_CHECK_DURATION));
      } else {
        QuotientBelow(estimate.value, period, estimate.value + 1);
        QuotientTimes(remaining, rate, checks);
        r := Ok(Some(checks));
      }
    }
  }

  /** What the estimate can be once the ten-checks test has passed. */
  predicate PassesTenChecks(estimate: nat, period: Duration) {
    period > 0 && estimate / period >= 10
  }

  /** The lower bound is never returned by the last branches, whatever the period. */
  lemma LowerBoundUnreachable(estimate: nat, period: Duration)
    requires PassesTenChecks(estimate, period)
    ensures estimate >= LOWER_BOUND_CHECK_DURATION
  {
    QuotientBelow(estimate, period, 10);
  }

  /** The number of checks is returned as a period exactly if the old period is three seconds or less. */
  lemma CheckCountReachable(period: Duration)
    requires period > 0
    ensures (exists estimate: nat :: PassesTenChecks(estimate, period) && estimate <= UPPER_BOUND_CHECK_DURATION)
            <==> period <= 3
  {
    if period <= 3 {
      QuotientBelow(10 * period, period, 10);
      assert PassesTenChecks(10 * period, period);
    } else {
      forall estimate: nat | PassesTenChecks(estimate, period) ensures estimate > UPPER_BOUND_CHECK_DURATION {
        QuotientBelow(estimate, period, 10);
      }
    }
  }
}
