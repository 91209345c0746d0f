/** The backend's rule for a confidence it stores or shows: a number at most
    1 is read as a fraction and becomes the whole percentage
    `round(confidence * 100)`; any other value is kept as it is. The core
    agent applies it before storing an analysis, and the trends endpoint
    applies it again to what was stored. */
module ConfidenceRule {
  import opened JsonValue
  import Rounding

  /** `round(c * 100) if isinstance(c, (int, float)) and c <= 1.0 else c`. */
  function Percent(c: Json): (r: Json)
    ensures PyNumber(c).None? ==> r == c
    ensures PyNumber(c).Some? && PyNumber(c).value > 1.0 ==> r == c
    ensures PyNumber(c).Some? && 0.0 <= PyNumber(c).value <= 1.0 ==> r.JNum? && 0.0 <= r.n <= 100.0
    ensures PyNumber(c).Some? && PyNumber(c).value <= 1.0 ==> r.JNum? && r.n == r.n.Floor as real
  {
    match PyNumber(c)
    case Some(x) =>
      if x <= 1.0 then
        FractionToPercent(x);
        JNum(Rounding.PyRound(x * 100.0) as real)
      else c
    case None => c
  }

  lemma FractionToPercent(x: real)
    ensures 0.0 <= x <= 1.0 ==> 0 <= Rounding.PyRound(x * 100.0) <= 100
  {
    if 0.0 <= x <= 1.0 {
      Rounding.PyRoundMonotone(0.0, x * 100.0);
      Rounding.PyRoundMonotone(x * 100.0, 100.0);
      Rounding.PyRoundOfInt(0);
      Rounding.PyRoundOfInt(100);
    }
  }

  /** A percentage of 2 or more is left alone by a second application. */
  lemma PercentStableFromTwo(c: Json)
    requires Percent(c).JNum? && Percent(c).n >= 2.0
    ensures Percent(Percent(c)) == Percent(c)
  {
  }

  /** Applying the rule twice is not applying it once: a fraction of 0.01
      is stored as 1, which a second application reads as a fraction
      again and shows as 100. */
  lemma OnePercentShownAsFull()
    ensures Percent(JNum(0.01)) == JNum(1.0)
    ensures Percent(Percent(JNum(0.01))) == JNum(100.0)
  {
    assert 0.01 * 100.0 == 1.0;
    Rounding.PyRoundOfInt(1);
    Rounding.PyRoundOfInt(100);
  }
}
