/**
 * The "4x volume" bonus window of a newly created pair: for thirty days after
 * `pairCreatedAt` the pair is flagged, with the days left rounded up. Times
 * are epoch milliseconds; the current time is a parameter.
 */
module VolumeBonus {
  import opened MarketTypes

  const DayMs: int := 24 * 60 * 60 * 1000
  const ThirtyDaysMs: int := 30 * DayMs

  datatype VolumeStatus = VolumeStatus(is4x: bool, remainingDays: int)

  /** `Math.ceil(a / b)` for a positive divisor. */
  function CeilDiv(a: int, b: int): (q: int)
    requires b > 0
    ensures (q - 1) * b < a <= q * b
  {
    var q := (a + b - 1) / b;
    assert q * b + (a + b - 1) % b == a + b - 1;
    q
  }

  /**
   * `get4xVolumeStatus`: nothing for a missing or zero creation time or once
   * thirty days have passed; otherwise the flag and the days remaining.
   */
  function Get4xVolumeStatus(createdAt: Option<int>, now: int): (r: Option<VolumeStatus>)
    ensures createdAt.None? || createdAt == Some(0) ==> r.None?
    ensures createdAt.Some? && createdAt.value != 0 ==>
      (r.Some? <==> now - createdAt.value < ThirtyDaysMs)
    ensures r.Some? ==> r.value.is4x
    ensures r.Some? ==>
      var remainingMs := ThirtyDaysMs - (now - createdAt.value);
      (r.value.remainingDays - 1) * DayMs < remainingMs <= r.value.remainingDays * DayMs
  {
    if createdAt.None? || createdAt.value == 0 then None
    else
      var diff := now - createdAt.value;
      if diff < ThirtyDaysMs then
        var remainingMs := ThirtyDaysMs - diff;
        Some(VolumeStatus(true, CeilDiv(remainingMs, DayMs)))
      else None
  }

  /** Within the window and not in the future, between 1 and 30 days remain. */
  lemma RemainingDaysInRange(createdAt: int, now: int)
    requires createdAt != 0
    requires 0 <= now - createdAt < ThirtyDaysMs
    ensures Get4xVolumeStatus(Some(createdAt), now).Some?
    ensures 1 <= Get4xVolumeStatus(Some(createdAt), now).value.remainingDays <= 30
  {
    var r := Get4xVolumeStatus(Some(createdAt), now).value.remainingDays;
    var remainingMs := ThirtyDaysMs - (now - createdAt);
    assert 0 < remainingMs <= r * DayMs;
    assert (r - 1) * DayMs < 30 * DayMs;
  }

  /** `CeilDiv` never decreases as its dividend grows. */
  lemma CeilDivMonotone(a: int, a': int, b: int)
    requires b > 0 && a <= a'
    ensures CeilDiv(a, b) <= CeilDiv(a', b)
  {
    var q, q' := CeilDiv(a, b), CeilDiv(a', b);
    assert (q - 1) * b < q' * b;
  }

  /**
   * As time passes the days remaining never grow, and once the window has
   * closed it stays closed.
   */
  lemma RemainingDaysNonIncreasing(createdAt: Option<int>, now: int, later: int)
    requires now <= later
    ensures Get4xVolumeStatus(createdAt, now).None? ==> Get4xVolumeStatus(createdAt, later).None?
    ensures Get4xVolumeStatus(createdAt, later).Some? ==>
      Get4xVolumeStatus(createdAt, later).value.remainingDays <= Get4xVolumeStatus(createdAt, now).value.remainingDays
  {
    if createdAt.Some? && createdAt.value != 0 && later - createdAt.value < ThirtyDaysMs {
      CeilDivMonotone(ThirtyDaysMs - (later - createdAt.value), ThirtyDaysMs - (now - createdAt.value), DayMs);
    }
  }

  /** A pair created this instant has 30 days left; one a millisecond short of 30 days, 1 day. */
  lemma WindowEnds(createdAt: int)
    requires createdAt != 0
    ensures Get4xVolumeStatus(Some(createdAt), createdAt) == Some(VolumeStatus(true, 30))
    ensures Get4xVolumeStatus(Some(createdAt), createdAt + ThirtyDaysMs - 1) == Some(VolumeStatus(true, 1))
    ensures Get4xVolumeStatus(Some(createdAt), createdAt + ThirtyDaysMs) == None
  {
    RemainingDaysInRange(createdAt, createdAt);
    RemainingDaysInRange(createdAt, createdAt + ThirtyDaysMs - 1);
  }
}
