/** How the pieces agree across the backend-frontend boundary: the
    dashboard's colours follow the analyzer's severity buckets, the labels
    the analyzer emits are exactly the labels the badge and the fallback
    table recognise, and the radar chart reads the analyzer's indicators
    on its own 0-100 domain. */
module Consistency {
  import opened Common
  import D = DegradationService
  import A = AiService
  import B = Dashboard

  /** The score colour and the severity badge of one analysis are the same
      colour: the dashboard's score cut-points are the analyzer's severity
      cut-points. The score's class is the first half of the badge's. */
  lemma ScoreColourMatchesBadge(score: real)
    ensures var badge := D.SeverityLabel(D.ClassifySeverity(score));
            && B.ScoreTone(score) == B.SeverityTone(badge)
            && B.ScoreColor(score) <= B.SeverityColor(badge)
  {
    var badge := D.SeverityLabel(D.ClassifySeverity(score));
    var t := B.SeverityTone(badge);
    assert B.ScoreTone(score) == t;
    assert (B.TextClass(t) + " " + B.BackgroundClass(t))[..|B.TextClass(t)|] == B.TextClass(t);
  }

  /** A string gets a coloured badge exactly when it is one of the four
      labels the analyzer emits. */
  lemma BadgeRecognisesBackendLabels(text: string)
    ensures B.SeverityTone(text) != B.Gray <==> D.ParseSeverity(text).Some?
    ensures B.SeverityTone(text) != B.Gray <==> exists s :: D.SeverityLabel(s) == text
  {
    if D.ParseSeverity(text).Some? {
      assert D.SeverityLabel(D.ParseSeverity(text).value) == text;
    }
  }

  /** Every severity the analyzer can return is shown with its own colour. */
  lemma EveryAssessmentHasABadge(indicators: map<string, real>)
    ensures var badge := D.SeverityLabel(D.CalculateScore(indicators).severity);
            B.SeverityColor(badge) != "text-gray-600 bg-gray-100"
  {
    var badge := D.SeverityLabel(D.CalculateScore(indicators).severity);
    BadgeRecognisesBackendLabels(badge);
  }

  /** The fallback advice for an analysis is the list for its own severity
      (never the `At Risk` default standing in for another label). */
  lemma AssessmentGetsItsOwnAdvice(indicators: map<string, real>, date: Option<string>)
    ensures var a := D.CalculateScore(indicators);
            var data := A.AnalysisData(
              Some(D.SeverityLabel(a.severity)), Some(a.degradationScore),
              Some(a.primaryFactors), None, date);
            A.FallbackRecommendations(data).recommendations == A.FallbackFor(a.severity)
            && A.FallbackRecommendations(data).factorsAddressed == a.primaryFactors
  {
  }

  /** For non-negative indices and an erosion risk in [0, 1], every radar
      point of the resulting analysis lies on the chart's 0-100 scale. */
  lemma AnalysisRadarInRange(indicators: map<string, real>)
    requires D.IndicesGiveUnitSignals(indicators)
    ensures var r := B.RadarData(D.CalculateScore(indicators).indicators);
            forall i :: 0 <= i < 4 ==> 0.0 <= r[i].value <= r[i].fullMark
  {
    var ind := D.CalculateScore(indicators).indicators;
    assert D.AllPercentages(ind);
    assert B.IndicatorsInRange(ind);
    B.RadarInRange(ind);
  }

  /** Each radar axis is a health reading (100 for no degradation), and
      the analyzer's score is 100 minus their weighted mean with the
      composite's weights. */
  lemma ScoreIsRadarComplement(indicators: map<string, real>)
    ensures var a := D.CalculateScore(indicators);
            var r := B.RadarData(a.indicators);
            a.degradationScore == 100.0 - (D.VegetationWeight * r[0].value + D.MoistureWeight * r[1].value
                                           + D.SoilExposureWeight * r[2].value + D.ErosionWeight * r[3].value)
  {
  }
}
