// The progress report for one badge and its derived display values.

module BadgeProgressDto {
  import opened Common

  datatype BadgeProgress = BadgeProgress(
    badgeId: int,
    badgeName: string,
    badgeDescription: Option<string>,
    iconUrl: Option<string>,
    requiredCount: Option<int>,
    currentProgress: Option<int>,
    rarityLevel: int,
    isEarned: bool,
    earnedAt: Option<int>)

  /** A positive required count is present. */
  predicate HasTarget(p: BadgeProgress)
  {
    p.requiredCount.Some? && p.requiredCount.value > 0
  }

  /** getProgressPercentage. Java unboxes `currentProgress` whenever the
      required count is present and non-zero, so it must be present then. */
  function ProgressPercentage(p: BadgeProgress): (pct: int)
    requires p.requiredCount.Some? && p.requiredCount.value != 0 ==> p.currentProgress.Some?
    ensures p.requiredCount.None? || p.requiredCount.value == 0 ==> pct == 0
    ensures pct <= 100
    ensures HasTarget(p) && p.currentProgress.value >= 0 ==>
              0 <= pct && pct * p.requiredCount.value <= 100 * p.currentProgress.value
              && (pct == 100 || 100 * p.currentProgress.value < (pct + 1) * p.requiredCount.value)
  {
    if p.requiredCount.None? || p.requiredCount.value == 0 then 0
    else
      var r := p.requiredCount.value;
      var c := p.currentProgress.value;
      var q := JavaDiv(c * 100, r);
      assert r > 0 && c >= 0 ==> q * r <= c * 100 < (q + 1) * r by {
        if r > 0 && c >= 0 { DivBounds(c * 100, r); }
      }
      Min(100, q)
  }

  /** Euclidean quotient bounds for a non-negative dividend. */
  lemma DivBounds(a: int, b: int)
    requires a >= 0 && b > 0
    ensures (a / b) * b <= a < (a / b + 1) * b
  {
  }

  /** Multiplying by a positive factor preserves strict order in both directions. */
  lemma MulCancel(x: int, y: int, r: int)
    requires r > 0
    ensures x * r < y * r <==> x < y
  {
  }

  /** The percentage is 100 once the requirement is met. */
  lemma {:induction false} CompleteIsHundred(p: BadgeProgress)
    requires HasTarget(p) && p.currentProgress.Some?
    requires p.currentProgress.value >= p.requiredCount.value
    ensures ProgressPercentage(p) == 100
  {
    var r := p.requiredCount.value;
    var c := p.currentProgress.value;
    var q := (c * 100) / r;
    DivBounds(c * 100, r);
    assert 100 * r <= c * 100 < (q + 1) * r;
    MulCancel(100, q + 1, r);
  }

  /** More progress towards the same target never lowers the percentage. */
  lemma {:induction false} PercentageMonotone(p: BadgeProgress, q: BadgeProgress)
    requires HasTarget(p) && q.requiredCount == p.requiredCount
    requires p.currentProgress.Some? && q.currentProgress.Some?
    requires 0 <= p.currentProgress.value <= q.currentProgress.value
    ensures ProgressPercentage(p) <= ProgressPercentage(q)
  {
    var r := p.requiredCount.value;
    var a := p.currentProgress.value * 100;
    var b := q.currentProgress.value * 100;
    DivBounds(a, r);
    DivBounds(b, r);
    MulCancel(a / r, b / r + 1, r);
  }

  /** getIsCloseToEarning: unearned, both counts known, and at least 80% done. */
  function IsCloseToEarning(p: BadgeProgress): (close: bool)
    ensures p.isEarned || p.requiredCount.None? || p.currentProgress.None? ==> !close
    ensures !p.isEarned && p.requiredCount.Some? && p.currentProgress.Some? ==>
              (close <==> 5 * p.currentProgress.value >= 4 * p.requiredCount.value)
  {
    if p.isEarned || p.requiredCount.None? || p.currentProgress.None? then false
    else 5 * p.currentProgress.value >= 4 * p.requiredCount.value
  }

  /** For an unearned badge with a positive target, being close to earning is
      the same as the displayed percentage reaching 80. */
  lemma {:induction false} CloseIffEightyPercent(p: BadgeProgress)
    requires !p.isEarned && HasTarget(p) && p.currentProgress.Some? && p.currentProgress.value >= 0
    ensures IsCloseToEarning(p) <==> ProgressPercentage(p) >= 80
  {
    var r := p.requiredCount.value;
    var c := p.currentProgress.value;
    var pct := ProgressPercentage(p);
    MulCancel(79, pct, r);
    MulCancel(pct, 80, r);
    assert 5 * c >= 4 * r <==> 100 * c >= 80 * r;
  }

  /** getRarityDescription. */
  function RarityDescription(level: int): (d: string)
    ensures level == 1 ==> d == "Common"
    ensures level == 2 ==> d == "Rare"
    ensures level == 3 ==> d == "Epic"
    ensures level == 4 ==> d == "Legendary"
    ensures !(1 <= level <= 4) ==> d == "Unknown"
  {
    match level
    case 1 => "Common"
    case 2 => "Rare"
    case 3 => "Epic"
    case 4 => "Legendary"
    case _ => "Unknown"
  }

  /** The four rarity levels have four different descriptions, none of them "Unknown". */
  lemma RarityDescriptionInjective(a: int, b: int)
    requires 1 <= a <= 4 && 1 <= b <= 4 && a != b
    ensures RarityDescription(a) != RarityDescription(b)
    ensures RarityDescription(a) != "Unknown"
  {
  }
}
