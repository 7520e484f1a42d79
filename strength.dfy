/**
 * Relationship-strength scoring for a contact: how fresh the relationship is,
 * given the contact's check-in cadence, the date of the last touchpoint and
 * the number of recent touchpoints. Dates are day numbers; "today" is an input.
 *
 * The source computes the penalty in floating point, `int((d / t) * 60)`;
 * here it is the exact quotient of `60 * d` by `t`, truncated toward zero as
 * Python's `int` does. The band thresholds `t * 0.5` and `t * 1.5` become the
 * exact integer tests `2 * d <= t` and `2 * d <= 3 * t`.
 */
module Strength {
  import opened Common

  /** Cadence used when the contact has none (or zero). */
  const DefaultCadenceDays := 30
  const ColdStartScore := 25
  const MinScore := 5
  const MaxScore := 100
  /** Points lost per full cadence period elapsed since the last touchpoint. */
  const PenaltyPerCadence := 60
  const MaxBoost := 10
  const BoostPerTouchpoint := 2

  /** The qualitative standing shown with a score: its label and its UI state. */
  datatype Band = ColdStart | Strong | Steady | NeedsTouch | AtRisk {
    function Label(): (s: string)
      ensures s == "Cold start" <==> this == ColdStart
      ensures s in {"Cold start", "Strong", "Steady", "Needs touch", "At risk"}
    {
      match this
      case ColdStart => "Cold start"
      case Strong => "Strong"
      case Steady => "Steady"
      case NeedsTouch => "Needs touch"
      case AtRisk => "At risk"
    }

    function State(): (s: string)
      ensures s == "danger" <==> this == ColdStart || this == AtRisk
      ensures s in {"success", "primary", "warning", "danger"}
    {
      match this
      case ColdStart => "danger"
      case Strong => "success"
      case Steady => "primary"
      case NeedsTouch => "warning"
      case AtRisk => "danger"
    }

    /** Position in the order of worsening freshness (cold start excluded). */
    function Rank(): nat {
      match this
      case ColdStart => 0
      case Strong => 0
      case Steady => 1
      case NeedsTouch => 2
      case AtRisk => 3
    }
  }

  /** The record handed to the presentation layer for each contact. */
  datatype RelationshipStrength = RelationshipStrength(
    labelText: string,
    score: int,
    state: string,
    daysSince: Option<int>,
    nextDueIn: int,
    lastTouchpoint: Option<Day>,
    touchpointsRecent: nat,
    overdueBy: Option<int>)

  /** `max(cadence or 30, 1)`: the effective cadence in days. */
  function TargetDays(cadence: Option<int>): (t: int)
    ensures t >= 1
    ensures cadence == None || cadence == Some(0) ==> t == DefaultCadenceDays
    ensures cadence.Some? && cadence.value >= 1 ==> t == cadence.value
    ensures cadence.Some? && cadence.value < 0 ==> t == 1
  {
    var c := match cadence
      case None => DefaultCadenceDays
      case Some(v) => if v == 0 then DefaultCadenceDays else v;
    Max(c, 1)
  }

  /**
   * The date the score is measured from: the annotated latest touchpoint, else
   * the cached last-contacted date, else the latest stored touchpoint found by
   * a separate aggregate query. Dates are never falsy, so `or` picks the first
   * one present.
   */
  function LastDate(annotated: Option<Day>, cached: Option<Day>, aggregate: Option<Day>): (r: Option<Day>)
    ensures r.None? <==> annotated.None? && cached.None? && aggregate.None?
    ensures annotated.Some? ==> r == annotated
    ensures annotated.None? && cached.Some? ==> r == cached
    ensures annotated.None? && cached.None? ==> r == aggregate
  {
    if annotated.Some? then annotated
    else if cached.Some? then cached
    else aggregate
  }

  /** `touchpoints_recent or 0`: a missing annotation reads as zero. */
  function RecentCount(recent: Option<nat>): (n: nat)
    ensures recent.None? ==> n == 0
    ensures recent.Some? ==> n == recent.value
  {
    match recent
    case None => 0
    case Some(n) => n
  }

  /** Integer division truncating toward zero, as Python's `int(n / d)`. */
  function TruncDiv(n: int, d: int): (q: int)
    requires d > 0
    ensures n >= 0 ==> 0 <= q * d <= n < q * d + d
    ensures n < 0 ==> q * d - d < n <= q * d <= 0
  {
    if n >= 0 then FloorDivBounds(n, d); n / d
    else FloorDivBounds(-n, d); -((-n) / d)
  }

  lemma FloorDivBounds(n: int, d: int)
    requires n >= 0 && d > 0
    ensures 0 <= (n / d) * d <= n < (n / d) * d + d
  {
    var q, m := n / d, n % d;
    assert n == d * q + m && 0 <= m < d;
    assert q >= 0;
    MulLeftMono(0, q, d);
  }

  /** Points lost for the days elapsed since the last touchpoint. */
  function FreshnessPenalty(daysSince: int, target: int): (p: int)
    requires target >= 1
    ensures daysSince >= 0 ==> p >= 0
    ensures daysSince <= 0 ==> p <= 0
    ensures daysSince == target ==> p == PenaltyPerCadence
    ensures 2 * daysSince == target ==> p == PenaltyPerCadence / 2
  {
    PenaltyLandmarks(daysSince, target);
    TruncDiv(PenaltyPerCadence * daysSince, target)
  }

  /** One full cadence costs exactly the full penalty, half a cadence exactly half of it. */
  lemma PenaltyLandmarks(daysSince: int, target: int)
    requires target >= 1
    ensures daysSince == target ==> TruncDiv(PenaltyPerCadence * daysSince, target) == PenaltyPerCadence
    ensures 2 * daysSince == target ==> TruncDiv(PenaltyPerCadence * daysSince, target) == PenaltyPerCadence / 2
  {
    var n := PenaltyPerCadence * daysSince;
    if daysSince == target {
      TruncDivAtMost(n, PenaltyPerCadence, target);
      TruncDivAtLeast(n, PenaltyPerCadence, target);
    }
    if 2 * daysSince == target {
      TruncDivAtMost(n, PenaltyPerCadence / 2, target);
      TruncDivAtLeast(n, PenaltyPerCadence / 2, target);
    }
  }

  /** `min(10, touchpoints_recent * 2)`. */
  function ConsistencyBoost(recent: nat): (b: int)
    ensures 0 <= b <= MaxBoost
    ensures b <= BoostPerTouchpoint * recent
    ensures recent >= MaxBoost / BoostPerTouchpoint ==> b == MaxBoost
    ensures recent < MaxBoost / BoostPerTouchpoint ==> b == BoostPerTouchpoint * recent
  {
    Min(MaxBoost, recent * BoostPerTouchpoint)
  }

  /** `max(5, min(100, x))`. */
  function Clamp(x: int): (r: int)
    ensures MinScore <= r <= MaxScore
    ensures MinScore <= x <= MaxScore ==> r == x
    ensures x < MinScore ==> r == MinScore
    ensures x > MaxScore ==> r == MaxScore
  {
    Max(MinScore, Min(MaxScore, x))
  }

  /** The score of a contact last touched `daysSince` days ago. */
  function Score(daysSince: int, target: int, recent: nat): (s: int)
    requires target >= 1
    ensures MinScore <= s <= MaxScore
  {
    Clamp(MaxScore - FreshnessPenalty(daysSince, target) + ConsistencyBoost(recent))
  }

  /** The label band: four disjoint intervals of `daysSince / target` covering every value. */
  function BandOf(daysSince: int, target: int): (b: Band)
    requires target >= 1
    ensures b == Strong <==> 2 * daysSince <= target
    ensures b == Steady <==> target < 2 * daysSince && daysSince <= target
    ensures b == NeedsTouch <==> target < daysSince && 2 * daysSince <= 3 * target
    ensures b == AtRisk <==> 3 * target < 2 * daysSince
  {
    if 2 * daysSince <= target then Strong
    else if daysSince <= target then Steady
    else if 2 * daysSince <= 3 * target then NeedsTouch
    else AtRisk
  }

  /** `abs(next_due_in)` when it is negative, else nothing. */
  function OverdueBy(nextDueIn: int): (r: Option<int>)
    ensures r.Some? <==> nextDueIn < 0
    ensures r.Some? ==> r.value > 0 && r.value + nextDueIn == 0
  {
    if nextDueIn < 0 then Some(-nextDueIn) else None
  }

  /**
   * `_compute_strength`: the strength record for a contact with the given
   * cadence, candidate last dates and recent-touchpoint count, as of `today`.
   */
  function ComputeStrength(cadence: Option<int>, annotatedLast: Option<Day>, cachedLast: Option<Day>,
                           aggregateLast: Option<Day>, recent: Option<nat>, today: Day): (r: RelationshipStrength)
    ensures r.lastTouchpoint == LastDate(annotatedLast, cachedLast, aggregateLast)
    ensures r.touchpointsRecent == RecentCount(recent)
    ensures r.lastTouchpoint.None? ==>
      r.labelText == "Cold start" && r.state == "danger" && r.score == ColdStartScore &&
      r.daysSince.None? && r.nextDueIn == TargetDays(cadence) && r.overdueBy.None?
    ensures r.lastTouchpoint.Some? ==>
      r.daysSince == Some(today - r.lastTouchpoint.value) &&
      MinScore <= r.score <= MaxScore &&
      r.nextDueIn == TargetDays(cadence) - r.daysSince.value
    ensures r.lastTouchpoint.Some? ==>
      var days := today - r.lastTouchpoint.value;
      var target := TargetDays(cadence);
      r.score == Score(days, target, RecentCount(recent)) &&
      r.labelText == BandOf(days, target).Label() && r.state == BandOf(days, target).State()
    ensures r.overdueBy.Some? <==> r.daysSince.Some? && r.daysSince.value > TargetDays(cadence)
    ensures r.overdueBy.Some? ==> r.overdueBy.value == r.daysSince.value - TargetDays(cadence)
  {
    var target := TargetDays(cadence);
    var last := LastDate(annotatedLast, cachedLast, aggregateLast);
    var count := RecentCount(recent);
    match last
    case None =>
      RelationshipStrength(ColdStart.Label(), ColdStartScore, ColdStart.State(), None, target, None, count, None)
    case Some(date) =>
      var days := today - date;
      var band := BandOf(days, target);
      var nextDue := target - days;
      RelationshipStrength(band.Label(), Score(days, target, count), band.State(), Some(days), nextDue,
                           last, count, OverdueBy(nextDue))
  }

  // ---------------------------------------------------------------------------
  // Arithmetic helpers for the penalty

  lemma MulLeftMono(x: int, y: int, d: int)
    requires x <= y && d > 0
    ensures x * d <= y * d
  {
    assert (y - x) * d >= 0;
  }

  lemma {:induction false} TruncDivMonotone(a: int, b: int, d: int)
    requires a <= b && d > 0
    ensures TruncDiv(a, d) <= TruncDiv(b, d)
  {
    var qa, qb := TruncDiv(a, d), TruncDiv(b, d);
    if qa > qb {
      MulLeftMono(qb + 1, qa, d);
      assert false;
    }
  }

  /** A numerator of at most `k` whole divisors truncates to at most `k`. */
  lemma TruncDivAtMost(n: int, k: int, d: int)
    requires d > 0 && n <= k * d
    ensures TruncDiv(n, d) <= k
  {
    var q := TruncDiv(n, d);
    if q > k {
      MulLeftMono(k + 1, q, d);
      assert false;
    }
  }

  /** A numerator of at least `k >= 0` whole divisors truncates to at least `k`. */
  lemma TruncDivAtLeast(n: int, k: int, d: int)
    requires d > 0 && k >= 0 && n >= k * d
    ensures TruncDiv(n, d) >= k
  {
    var q := TruncDiv(n, d);
    MulLeftMono(0, k, d);
    if q < k {
      MulLeftMono(q + 1, k, d);
      assert false;
    }
  }

  // ---------------------------------------------------------------------------
  // Properties of the score and the bands

  /** For a fixed cadence and recent count, the score never rises as the days since grow. */
  lemma {:induction false} ScoreMonotone(d1: int, d2: int, target: int, recent: nat)
    requires target >= 1 && d1 <= d2
    ensures Score(d2, target, recent) <= Score(d1, target, recent)
  {
    TruncDivMonotone(PenaltyPerCadence * d1, PenaltyPerCadence * d2, target);
  }

  /** More recent touchpoints never lower the score. */
  lemma ScoreGrowsWithRecent(days: int, target: int, r1: nat, r2: nat)
    requires target >= 1 && r1 <= r2
    ensures Score(days, target, r1) <= Score(days, target, r2)
  {
  }

  /** A label names one band, and the label fixes the state shown with it. */
  lemma LabelIdentifiesBand(a: Band, b: Band)
    ensures a.Label() == b.Label() <==> a == b
    ensures a.Label() == b.Label() ==> a.State() == b.State()
  {
  }

  /** The band only worsens as the days since grow. */
  lemma BandMonotone(d1: int, d2: int, target: int)
    requires target >= 1 && d1 <= d2
    ensures BandOf(d1, target).Rank() <= BandOf(d2, target).Rank()
  {
  }

  /** What each band guarantees about the score, whatever the recent count. */
  lemma {:induction false} ScoreWithinBand(days: int, target: int, recent: nat)
    requires target >= 1
    ensures BandOf(days, target) == Strong ==> Score(days, target, recent) >= 70
    ensures BandOf(days, target) == Steady ==> Score(days, target, recent) >= 40
    ensures BandOf(days, target) == NeedsTouch ==> Score(days, target, recent) >= 10
    ensures BandOf(days, target) == AtRisk ==> Score(days, target, recent) <= 20
  {
    var n := PenaltyPerCadence * days;
    match BandOf(days, target)
    case Strong => TruncDivAtMost(n, 30, target);
    case Steady => TruncDivAtMost(n, 60, target);
    case NeedsTouch => TruncDivAtMost(n, 90, target);
    case AtRisk => TruncDivAtLeast(n, 90, target);
    case ColdStart =>
  }

  /** A touchpoint no later than today keeps the score at the maximum. */
  lemma {:induction false} FreshScoreIsFull(days: int, target: int, recent: nat)
    requires target >= 1 && days <= 0
    ensures Score(days, target, recent) == MaxScore
  {
    TruncDivAtMost(PenaltyPerCadence * days, 0, target);
  }

  /** Twice the cadence without contact drives the score to the floor, whatever the boost. */
  lemma {:induction false} StaleScoreIsFloor(days: int, target: int, recent: nat)
    requires target >= 1 && days >= 2 * target
    ensures Score(days, target, recent) == MinScore
  {
    TruncDivAtLeast(PenaltyPerCadence * days, 120, target);
  }

  /** The band boundaries: half the cadence is still Strong, the cadence itself still Steady. */
  lemma BandBoundaries(target: int)
    requires target >= 1
    ensures BandOf(0, target) == Strong
    ensures BandOf(target / 2, target) == Strong
    ensures BandOf(target, target) == Steady
    ensures BandOf(target + 1, target) == NeedsTouch <==> target >= 2
  {
  }

  /** Cadence 30, last touchpoint 45 days ago, one recent touchpoint. */
  lemma WorkedExample(today: Day)
    ensures var r := ComputeStrength(Some(30), Some(today - 45), None, None, Some(1), today);
      r.score == 12 && r.labelText == "Needs touch" && r.state == "warning" &&
      r.nextDueIn == -15 && r.overdueBy == Some(15)
  {
  }
}
