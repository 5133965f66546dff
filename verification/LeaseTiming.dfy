/** The timing of leases: extents are nanoseconds, instants are milliseconds, and
    every addition saturates. */
module LeaseTimings {
  import opened Machine
  import opened CoordinationRecords

  const NANOS_PER_MILLI: int := 1_000_000

  datatype LeaseConfig = LeaseConfig(duration: Int64, renewInterval: Int64, challengeStagger: Int64) {
    /** What the constructor accepts. */
    predicate Legal() {
      duration > 0 && 0 < renewInterval < duration && challengeStagger > 0
    }

    /** The extra delay of a rank; the division test keeps the product from
        wrapping. */
    function ChallengeDelay(rank: Int64): Int64 {
      if rank <= 0 then 0
      else if challengeStagger > 0 && rank > Quotient(MAX_INT64, challengeStagger) then MAX_INT64
      else Wrap(rank * challengeStagger)
    }

    function Grant(member: Name, token: Token, now: Int64): Lease {
      Lease(member, token, now, AddMillis(now, duration))
    }

    function ChallengeAt(lease: Lease, rank: Int64): Int64 {
      AddMillis(lease.deadline, ChallengeDelay(rank))
    }

    function RenewAt(lease: Lease): Int64 {
      var renewAt := AddMillis(lease.grantedAt, renewInterval);
      if renewAt < lease.deadline then renewAt else lease.deadline
    }
  }

  predicate LiveAt(lease: Lease, now: Int64) { now < lease.deadline }

  function Millis(extent: Int64): Int64 {
    Quotient(extent, NANOS_PER_MILLI)
  }

  function AddMillis(instant: Int64, extent: Int64): Int64 {
    var millis := Millis(extent);
    if millis > 0 && instant > MAX_INT64 - millis then MAX_INT64 else Wrap(instant + millis)
  }

  function Saturated(n: int): int { if n > MAX_INT64 then MAX_INT64 else n }

  /** The delay is the exact product, cut off at the largest extent. */
  lemma {:induction false} ChallengeDelayIsExact(c: LeaseConfig, rank: Int64)
    requires c.challengeStagger > 0 && rank >= 0
    ensures c.ChallengeDelay(rank) == Saturated(rank * c.challengeStagger)
  {
    var s := c.challengeStagger;
    DivisionBounds(MAX_INT64, s, rank);
  }

  lemma {:induction false} DivisionBounds(max: nat, s: nat, rank: nat)
    requires s > 0
    ensures rank > max / s <==> rank * s > max
  {
    var q := max / s;
    assert q * s <= max < q * s + s;
    if rank > q {
      ProductIsMonotone(q + 1, rank, s);
      assert (q + 1) * s == q * s + s;
    } else {
      ProductIsMonotone(rank, q, s);
    }
  }

  lemma {:induction false} ProductIsMonotone(a: nat, b: nat, s: nat)
    requires a <= b
    ensures a * s <= b * s
  {
  }

  /** Adding an extent that is not negative is exact and cut off at the largest
      instant. */
  lemma {:induction false} AddMillisIsExact(instant: Int64, extent: Int64)
    requires extent >= 0
    ensures AddMillis(instant, extent) == Saturated(instant + extent / NANOS_PER_MILLI)
    ensures AddMillis(instant, extent) >= instant
  {
    assert 0 <= extent / NANOS_PER_MILLI <= extent;
  }

  lemma {:induction false} DelayIsMonotone(c: LeaseConfig, a: Int64, b: Int64)
    requires c.Legal() && 0 <= a <= b
    ensures 0 <= c.ChallengeDelay(a) <= c.ChallengeDelay(b)
  {
    ChallengeDelayIsExact(c, a);
    ChallengeDelayIsExact(c, b);
    ProductIsMonotone(a, b, c.challengeStagger);
    ProductIsMonotone(0, a, c.challengeStagger);
  }

  lemma {:induction false} AddMillisIsMonotone(instant: Int64, x: Int64, y: Int64)
    requires 0 <= x <= y
    ensures AddMillis(instant, x) <= AddMillis(instant, y)
  {
    AddMillisIsExact(instant, x);
    AddMillisIsExact(instant, y);
    QuotientIsMonotone(x, y);
  }

  /** Under a lease a later rank never challenges before an earlier one, and rank
      zero challenges at the deadline. */
  lemma {:induction false} ChallengeAtIsMonotone(c: LeaseConfig, lease: Lease, a: Int64, b: Int64)
    requires c.Legal() && 0 <= a <= b
    ensures lease.deadline == c.ChallengeAt(lease, 0) <= c.ChallengeAt(lease, a) <= c.ChallengeAt(lease, b)
  {
    DelayIsMonotone(c, 0, a);
    DelayIsMonotone(c, a, b);
    AddMillisIsMonotone(lease.deadline, 0, c.ChallengeDelay(a));
    AddMillisIsMonotone(lease.deadline, c.ChallengeDelay(a), c.ChallengeDelay(b));
    AddMillisIsExact(lease.deadline, 0);
  }

  lemma {:induction false} QuotientIsMonotone(a: nat, b: nat)
    requires a <= b
    ensures a / NANOS_PER_MILLI <= b / NANOS_PER_MILLI
  {
  }

  /** A holder that keeps to its schedule writes before its lease expires, by as
      much as the renew interval is shorter, unless the end of time cuts it off. */
  lemma {:induction false} RenewsInTime(c: LeaseConfig, member: Name, token: Token, now: Int64)
    requires c.Legal()
    ensures var lease := c.Grant(member, token, now);
            && now <= c.RenewAt(lease) <= lease.deadline
            && (Millis(c.renewInterval) < Millis(c.duration) && now < MAX_INT64 - Millis(c.renewInterval) ==>
                  LiveAt(lease, c.RenewAt(lease)))
  {
    AddMillisIsExact(now, c.duration);
    AddMillisIsExact(now, c.renewInterval);
    QuotientIsMonotone(c.renewInterval, c.duration);
  }
}
