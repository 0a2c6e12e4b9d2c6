/** The analysis dashboard's display rules: the colour of the score and of
    the severity badge, the radar chart's values, and which panels show and
    with which items. Markup and charts themselves are not modelled; a
    panel is represented by the data it would show, or by its absence. */
module Dashboard {
  import opened Common

  // ---------------------------------------------------------------------
  // Colours
  // ---------------------------------------------------------------------

  /** The colour families the dashboard uses for scores and badges. */
  datatype Tone = Green | Yellow | Orange | Red | Gray

  /** The text-colour class of a tone. */
  function TextClass(t: Tone): string {
    match t
    case Green => "text-green-600"
    case Yellow => "text-yellow-600"
    case Orange => "text-orange-600"
    case Red => "text-red-600"
    case Gray => "text-gray-600"
  }

  /** The background class that goes with a tone on a badge. */
  function BackgroundClass(t: Tone): string {
    match t
    case Green => "bg-green-100"
    case Yellow => "bg-yellow-100"
    case Orange => "bg-orange-100"
    case Red => "bg-red-100"
    case Gray => "bg-gray-100"
  }

  /** Different tones never share a text class. */
  lemma TextClassInjective(t: Tone, u: Tone)
    ensures TextClass(t) == TextClass(u) <==> t == u
  {
    if t != u {
      assert |TextClass(t)| != |TextClass(u)| || TextClass(t)[5] != TextClass(u)[5]
          || TextClass(t)[7] != TextClass(u)[7];
    }
  }

  /** The tone of a score, by the cut-points 25, 50 and 75. */
  function ScoreTone(score: real): (t: Tone)
    ensures t == Green <==> score < 25.0
    ensures t == Yellow <==> 25.0 <= score < 50.0
    ensures t == Orange <==> 50.0 <= score < 75.0
    ensures t == Red <==> 75.0 <= score
  {
    if score < 25.0 then Green
    else if score < 50.0 then Yellow
    else if score < 75.0 then Orange
    else Red
  }

  /** `getScoreColor`. */
  function ScoreColor(score: real): (c: string)
    ensures c == TextClass(ScoreTone(score))
    ensures c != TextClass(Gray)
  {
    TextClass(ScoreTone(score))
  }

  /** The severity labels the badge recognises, in switch order. */
  const KnownSeverities: seq<string> := ["Healthy", "At Risk", "Degraded", "Severely Degraded"]

  /** The tone of a severity badge: one tone per recognised label, gray for
      anything else. */
  function SeverityTone(severity: string): (t: Tone)
    ensures t != Gray <==> severity in KnownSeverities
    ensures severity == "Healthy" ==> t == Green
    ensures severity == "At Risk" ==> t == Yellow
    ensures severity == "Degraded" ==> t == Orange
    ensures severity == "Severely Degraded" ==> t == Red
  {
    if severity == "Healthy" then Green
    else if severity == "At Risk" then Yellow
    else if severity == "Degraded" then Orange
    else if severity == "Severely Degraded" then Red
    else Gray
  }

  /** The recognised labels get four different tones. */
  lemma SeverityTonesDistinct(i: nat, j: nat)
    requires i < j < |KnownSeverities|
    ensures SeverityTone(KnownSeverities[i]) != SeverityTone(KnownSeverities[j])
  {
  }

  /** `getSeverityColor`: text and background class of the badge's tone. */
  function SeverityColor(severity: string): (c: string)
    ensures c == TextClass(SeverityTone(severity)) + " " + BackgroundClass(SeverityTone(severity))
    ensures (c == "text-gray-600 bg-gray-100") <==> severity !in KnownSeverities
  {
    var t := SeverityTone(severity);
    BadgeClassGrayOnlyForGray(t);
    TextClass(t) + " " + BackgroundClass(t)
  }

  /** Only the gray tone produces the default badge classes. */
  lemma BadgeClassGrayOnlyForGray(t: Tone)
    ensures TextClass(t) + " " + BackgroundClass(t) == "text-gray-600 bg-gray-100" <==> t == Gray
  {
    var c := TextClass(t) + " " + BackgroundClass(t);
    if t != Gray {
      TextClassInjective(t, Gray);
      assert c[..|TextClass(t)|] == TextClass(t);
    }
  }

  // ---------------------------------------------------------------------
  // Radar chart
  // ---------------------------------------------------------------------

  datatype RadarPoint = RadarPoint(indicator: string, value: real, fullMark: real)

  const RadarFullMark: real := 100.0

  /** `radarData`: vegetation and moisture as given, soil cover and
      stability as the complements of exposure and erosion risk, each out
      of 100. */
  function RadarData(ind: Indicators): (r: seq<RadarPoint>)
    ensures |r| == 4
    ensures forall i :: 0 <= i < 4 ==> r[i].fullMark == 100.0
    ensures r[0] == RadarPoint("Vegetation", ind.vegetationHealth, 100.0)
    ensures r[1] == RadarPoint("Moisture", ind.moistureLevel, 100.0)
    ensures r[2] == RadarPoint("Soil Cover", 100.0 - ind.soilExposure, 100.0)
    ensures r[3] == RadarPoint("Stability", 100.0 - ind.erosionRisk, 100.0)
  {
    [ RadarPoint("Vegetation", ind.vegetationHealth, RadarFullMark),
      RadarPoint("Moisture", ind.moistureLevel, RadarFullMark),
      RadarPoint("Soil Cover", 100.0 - ind.soilExposure, RadarFullMark),
      RadarPoint("Stability", 100.0 - ind.erosionRisk, RadarFullMark) ]
  }

  predicate IndicatorsInRange(ind: Indicators) {
    && 0.0 <= ind.vegetationHealth <= 100.0
    && 0.0 <= ind.moistureLevel <= 100.0
    && 0.0 <= ind.soilExposure <= 100.0
    && 0.0 <= ind.erosionRisk <= 100.0
  }

  /** Indicators on the 0-100 scale give radar values on the same scale,
      so no point leaves the chart's 0-100 domain, and only those do. */
  lemma RadarInRange(ind: Indicators)
    ensures IndicatorsInRange(ind) <==>
              forall i :: 0 <= i < 4 ==> 0.0 <= RadarData(ind)[i].value <= RadarData(ind)[i].fullMark
  {
    var r := RadarData(ind);
    if forall i :: 0 <= i < 4 ==> 0.0 <= r[i].value <= r[i].fullMark {
      assert 0.0 <= r[2].value <= 100.0 && 0.0 <= r[3].value <= 100.0;
    }
  }

  // ---------------------------------------------------------------------
  // Panels
  // ---------------------------------------------------------------------

  const KeyRecommendationCount: nat := 3

  /** Whether a recommendations panel renders: the list exists and is not
      empty. */
  predicate HasRecommendations(recs: Option<seq<string>>) {
    recs.Some? && |recs.value| > 0
  }

  /** The Key Recommendations panel: the first three recommendations, in
      order, when there are any. */
  function KeyRecommendations(recs: Option<seq<string>>): (r: Option<seq<string>>)
    ensures r.Some? <==> HasRecommendations(recs)
    ensures r.Some? ==> r.value <= recs.value
                        && |r.value| == Min(|recs.value|, 3)
                        && |r.value| > 0
  {
    if HasRecommendations(recs) then Some(Take(recs.value, KeyRecommendationCount)) else None
  }

  /** The AI Recommendations panel: every recommendation, in order, when
      there are any. */
  function AiRecommendations(recs: Option<seq<string>>): (r: Option<seq<string>>)
    ensures r.Some? <==> HasRecommendations(recs)
    ensures r.Some? ==> r.value == recs.value
  {
    if HasRecommendations(recs) then recs else None
  }

  /** The two panels appear together; the key panel repeats the head of
      the AI panel and holds all of it when there are at most three. */
  lemma RecommendationPanelsAgree(recs: Option<seq<string>>)
    ensures KeyRecommendations(recs).Some? <==> AiRecommendations(recs).Some?
    ensures KeyRecommendations(recs).Some? ==>
              KeyRecommendations(recs).value <= AiRecommendations(recs).value
    ensures KeyRecommendations(recs).Some? && |recs.value| <= 3 ==>
              KeyRecommendations(recs).value == AiRecommendations(recs).value
  {
  }

  /** The NDVI chart: the series, when one is given and it is not empty. */
  function NdviChart(series: Option<seq<TimeSeriesPoint>>): (r: Option<seq<TimeSeriesPoint>>)
    ensures r.Some? <==> series.Some? && |series.value| > 0
    ensures r.Some? ==> r.value == series.value
  {
    if series.Some? && |series.value| > 0 then series else None
  }

  // ---------------------------------------------------------------------
  // The whole dashboard
  // ---------------------------------------------------------------------

  /** What the dashboard shows for one analysis. */
  datatype DashboardView = DashboardView(
    scoreClass: string,
    severityText: string,
    severityClass: string,
    radar: seq<RadarPoint>,
    keyRecommendations: Option<seq<string>>,
    ndviChart: Option<seq<TimeSeriesPoint>>,
    aiRecommendations: Option<seq<string>>,
    date: string,
    confidencePercent: real)

  /** The dashboard for an analysis and an optional NDVI series. */
  function Render(a: AnalysisResult, series: Option<seq<TimeSeriesPoint>>): (v: DashboardView)
    ensures v.scoreClass == ScoreColor(a.degradationScore)
    ensures v.severityText == a.severity && v.severityClass == SeverityColor(a.severity)
    ensures v.radar == RadarData(a.indicators)
    ensures v.keyRecommendations == KeyRecommendations(a.recommendations)
    ensures v.aiRecommendations == AiRecommendations(a.recommendations)
    ensures v.ndviChart == NdviChart(series)
    ensures v.ndviChart.Some? <==> series.Some? && |series.value| > 0
    ensures v.ndviChart.Some? ==> v.ndviChart == series
    ensures v.date == a.date
    ensures v.confidencePercent == a.confidence * 100.0
  {
    DashboardView(
      ScoreColor(a.degradationScore),
      a.severity,
      SeverityColor(a.severity),
      RadarData(a.indicators),
      KeyRecommendations(a.recommendations),
      NdviChart(series),
      AiRecommendations(a.recommendations),
      a.date,
      a.confidence * 100.0)
  }
}
