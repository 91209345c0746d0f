/** The circular confidence gauge (`ConfidenceRing` component): a score prop,
    its display percentage, and the colour tier it is drawn in. */
module ConfidenceRing {
  import opened Rounding

  /** The default of the `score` prop when a caller leaves it out. */
  const DefaultScore: real := 0.0

  /** The percentage drawn in the ring: a score in (0, 1] is read as a
      fraction and scaled by 100; every other score (0, negatives, above 1)
      is taken as a percentage already. Both are rounded half-up. */
  function NormalizedScore(score: real): (r: int)
    ensures 0.0 < score <= 1.0 ==> r as real - 0.5 <= 100.0 * score < r as real + 0.5
    ensures !(0.0 < score <= 1.0) ==> r as real - 0.5 <= score < r as real + 0.5
  {
    if 0.0 < score <= 1.0 then JsRound(score * 100.0) else JsRound(score)
  }

  datatype Tier = AlertRed | ElectricBlue | SuccessGreen

  /** The colour class, chosen from the RAW score and not from the
      normalised percentage. */
  function ColorTier(score: real): (t: Tier)
    ensures t == SuccessGreen <==> score >= 80.0
    ensures t == ElectricBlue <==> 50.0 <= score < 80.0
    ensures t == AlertRed <==> score < 50.0
  {
    var color := AlertRed;
    if score >= 80.0 then SuccessGreen
    else if score >= 50.0 then ElectricBlue
    else color
  }

  /** The default score is shown as 0 %. */
  lemma DefaultShowsZero()
    ensures NormalizedScore(DefaultScore) == 0
  {
  }

  /** Fractions and percentages both land in [0, 100]. */
  lemma NormalizedInRange(score: real)
    requires 0.0 <= score <= 100.0
    ensures 0 <= NormalizedScore(score) <= 100
  {
  }

  /** A fractional score is drawn red whatever percentage it displays:
      0.95 shows 95 % in the red tier. */
  lemma FractionIsRed(score: real)
    requires 0.0 < score <= 1.0
    ensures ColorTier(score) == AlertRed
    ensures score == 0.95 ==> NormalizedScore(score) == 95
  {
    if score == 0.95 {
      assert score * 100.0 + 0.5 == 95.5;
    }
  }

  /** A whole-number score is shown as itself, except 1, which is read as
      the fraction 1.0 and shown as 100. */
  lemma WholeScoreShown(k: int)
    ensures NormalizedScore(k as real) == (if k == 1 then 100 else k)
  {
    JsRoundOfInt(k);
    if k == 1 {
      JsRoundOfInt(100);
      assert (k as real) * 100.0 == 100.0;
    }
  }

  /** Feeding the displayed percentage back in changes nothing, except that
      a displayed 1 becomes 100. */
  lemma RenormalizeIsStable(score: real)
    ensures var n := NormalizedScore(score);
      NormalizedScore(n as real) == (if n == 1 then 100 else n)
  {
    WholeScoreShown(NormalizedScore(score));
  }

  /** Monotone on the fractional range (0, 1]. */
  lemma MonotoneOnFractions(x: real, y: real)
    requires 0.0 < x <= y <= 1.0
    ensures NormalizedScore(x) <= NormalizedScore(y)
  {
    JsRoundMonotone(x * 100.0, y * 100.0);
  }

  /** Monotone on the percentage range above 1. */
  lemma MonotoneAboveOne(x: real, y: real)
    requires 1.0 < x <= y
    ensures NormalizedScore(x) <= NormalizedScore(y)
  {
    JsRoundMonotone(x, y);
  }

  /** Not monotone across the boundary: 1.0 shows 100 but 1.5 shows 2. */
  lemma NotMonotoneAcrossOne()
    ensures NormalizedScore(1.0) == 100 && NormalizedScore(1.5) == 2
  {
  }
}
