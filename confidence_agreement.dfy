/** The five copies of the confidence rule side by side: the ring
    (`ConfidenceRing.NormalizedScore`), the incident card
    (`IncidentCanvasCard.Confidence`), the group detail route
    (`GroupsRoute.DetailConfidence`), the rule the analysis pipeline and the
    analytics route store and show (`ConfidenceRule.Percent`), and the
    dashboard page served by the root API (`RootApi.Percent`). The first two
    and the last round half-up, the other two half-to-even. */
module ConfidenceAgreement {
  import opened Wrappers
  import opened JsonValue
  import opened Rounding
  import ConfidenceRing
  import IncidentCanvasCard
  import GroupsRoute
  import ConfidenceRule
  import RootApi

  /** What the group detail route shows for a numeric confidence. */
  function GroupShown(x: real): (r: Json)
    ensures GroupsRoute.DetailConfidence(map["confidence" := JNum(x)]).Ok?
    ensures r == GroupsRoute.DetailConfidence(map["confidence" := JNum(x)]).value
  {
    GroupsRoute.DetailConfidence(map["confidence" := JNum(x)]).value
  }

  /** On (0, 1], away from the points where 100x is a half, all five copies
      show the same percentage. */
  lemma FractionsAgreeOffHalves(x: real)
    requires 0.0 < x <= 1.0 && !IsHalf(x * 100.0)
    ensures var p := JsRound(x * 100.0);
      && ConfidenceRing.NormalizedScore(x) == p
      && IncidentCanvasCard.Confidence(Some(x)) == p
      && GroupShown(x) == JNum(p as real)
      && ConfidenceRule.Percent(JNum(x)) == JNum(p as real)
      && RootApi.Percent(x) == p
  {
    RoundingsAgreeOffHalves(x * 100.0);
  }

  /** At a half point the half-up copies and the half-to-even copies split
      whenever the lower neighbour is even: 0.125 shows 13 in the frontend
      and 12 from the backend. */
  lemma HalvesSplit()
    ensures ConfidenceRing.NormalizedScore(0.125) == 13 && IncidentCanvasCard.Confidence(Some(0.125)) == 13
    ensures RootApi.Percent(0.125) == 13
    ensures GroupShown(0.125) == JNum(12.0) && ConfidenceRule.Percent(JNum(0.125)) == JNum(12.0)
  {
    RoundingsAtHalves(12.5);
  }

  /** A whole percentage from 2 to 100 is shown as itself by the four
      copies that read values above 1 as percentages; the dashboard page
      always scales by 100. */
  lemma WholePercentsAgree(k: int)
    requires 2 <= k <= 100
    ensures ConfidenceRing.NormalizedScore(k as real) == k
    ensures IncidentCanvasCard.Confidence(Some(k as real)) == k
    ensures GroupShown(k as real) == JNum(k as real)
    ensures ConfidenceRule.Percent(JNum(k as real)) == JNum(k as real)
    ensures RootApi.Percent(k as real) == 100 * k
  {
    JsRoundOfInt(k);
    JsRoundOfInt(100 * k);
    assert (k as real) * 100.0 == (100 * k) as real;
  }

  /** A negative fraction is a percentage to the ring (-0.5 shows 0) but a
      fraction to the card and the backend (-0.5 shows -50). */
  lemma NegativesSplit()
    ensures ConfidenceRing.NormalizedScore(-0.5) == 0
    ensures IncidentCanvasCard.Confidence(Some(-0.5)) == -50
    ensures ConfidenceRule.Percent(JNum(-0.5)) == JNum(-50.0)
    ensures GroupShown(-0.5) == JNum(-50.0)
  {
    PyRoundOfInt(-50);
    JsRoundOfInt(-50);
  }

  /** Above 1 the frontend rounds and the backend passes the value through
      unrounded: 85.5 shows 86 on the ring and the card, 85.5 from the
      backend. */
  lemma AboveOneSplit()
    ensures ConfidenceRing.NormalizedScore(85.5) == 86 && IncidentCanvasCard.Confidence(Some(85.5)) == 86
    ensures ConfidenceRule.Percent(JNum(85.5)) == JNum(85.5) && GroupShown(85.5) == JNum(85.5)
  {
  }

  /** The ring picks its colour from the raw score while the dashboard page
      picks it from the percentage: 0.95 is red on the ring and green on the
      page. */
  lemma TiersSplit()
    ensures ConfidenceRing.ColorTier(0.95) == ConfidenceRing.AlertRed
    ensures RootApi.TierOf(RootApi.Percent(0.95)) == RootApi.Green
  {
    assert 0.95 * 100.0 + 0.5 == 95.5;
  }
}
