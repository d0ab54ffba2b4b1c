/** Why a lease does not lapse under a live worker: the heartbeat that renews it. */
module JobLease {

  /** The expiry a lease is given: whole seconds. */
  function Ttl(leaseSeconds: real): int { leaseSeconds.Floor }

  /** How long the heartbeat sleeps between renewals. */
  function Interval(leaseSeconds: real): real {
    if leaseSeconds / 3.0 > 1.0 then leaseSeconds / 3.0 else 1.0
  }

  /** The expiry outlives the sleep exactly for leases of at least two seconds; shorter ones, which
      the settings allow, can lapse under a live worker. */
  lemma HeartbeatOutlives(leaseSeconds: real)
    requires leaseSeconds > 0.0
    ensures Ttl(leaseSeconds) as real > Interval(leaseSeconds) <==> leaseSeconds >= 2.0
  {
    var whole := leaseSeconds.Floor;
    if leaseSeconds >= 2.0 {
      assert whole >= 2 && whole as real > leaseSeconds - 1.0;
    } else {
      assert whole <= 1;
    }
  }

  /** Renewals, the first one the acquisition, each no more than `gap` after the one before. */
  predicate Renewals(at: seq<real>, gap: real) {
    |at| > 0 && forall k :: 0 < k < |at| ==> at[k - 1] <= at[k] <= at[k - 1] + gap
  }

  /** The lease set or renewed at the `k`th renewal has not expired at `t`. */
  predicate Unexpired(at: seq<real>, k: nat, ttl: real, t: real)
    requires k < |at|
  {
    at[k] <= t < at[k] + ttl
  }

  /** While renewals come within a gap that the expiry outlives, the lease is there at every moment
      from its acquisition to a gap after the last renewal. */
  lemma {:induction false} LeaseHolds(at: seq<real>, gap: real, ttl: real, t: real) returns (k: nat)
    requires Renewals(at, gap) && gap < ttl && at[0] <= t <= at[|at| - 1] + gap
    ensures k < |at| && Unexpired(at, k, ttl, t)
    decreases |at|
  {
    var last := |at| - 1;
    if at[last] <= t {
      k := last;
    } else {
      var rest := at[..last];
      assert t <= at[last - 1] + gap;
      k := LeaseHolds(rest, gap, ttl, t);
    }
  }
}
