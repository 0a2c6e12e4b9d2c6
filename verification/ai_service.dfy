/** The recommendation service: the fixed fallback advice used when the
    language-model call fails, the shaping of a model reply into a
    recommendation record, and the defaults the prompt builder applies to a
    partial analysis. The model call itself is an abstract reply. */
module AiService {
  import opened Common
  import opened DegradationService

  /** The analysis dictionary handed to the service; each key may be absent. */
  datatype AnalysisData = AnalysisData(
    severity: Option<string>,
    degradationScore: Option<real>,
    primaryFactors: Option<seq<string>>,
    indicators: Option<map<string, real>>,
    date: Option<string>)

  // ---------------------------------------------------------------------
  // Fallback advice
  // ---------------------------------------------------------------------

  /** The fixed advice lists, one per severity label the analyzer emits. */
  const SeverelyDegradedAdvice: seq<string> := [
    "Implement erosion control measures (terracing, contour farming)",
    "Plant cover crops to restore soil structure",
    "Add organic matter and compost",
    "Consider agroforestry systems"]
  const DegradedAdvice: seq<string> := [
    "Establish cover cropping rotation",
    "Implement conservation tillage",
    "Improve irrigation efficiency",
    "Plant deep-rooted vegetation"]
  const AtRiskAdvice: seq<string> := [
    "Monitor soil moisture regularly",
    "Apply mulch to reduce evaporation",
    "Introduce crop diversity",
    "Implement nutrient management plan"]
  const HealthyAdvice: seq<string> := [
    "Maintain current practices",
    "Continue monitoring",
    "Rotate crops seasonally",
    "Preserve vegetation cover"]

  /** The advice table, looked up by severity. */
  function FallbackFor(s: Severity): (r: seq<string>)
    ensures |r| == 4
  {
    match s
    case SeverelyDegraded => SeverelyDegradedAdvice
    case Degraded => DegradedAdvice
    case AtRisk => AtRiskAdvice
    case Healthy => HealthyAdvice
  }

  /** Each severity has its own advice list: the lists already differ in
      the first letter of their second item. */
  lemma FallbackListsDistinct(s: Severity, t: Severity)
    ensures FallbackFor(s) == FallbackFor(t) <==> s == t
  {
    assert SeverelyDegradedAdvice[1][0] == 'P' && DegradedAdvice[1][0] == 'I';
    assert AtRiskAdvice[1][0] == 'A' && HealthyAdvice[1][0] == 'C';
  }

  const FallbackNote: string :=
    "Generic recommendations provided. Connect API for personalized analysis."

  /** The record returned when the model cannot be used. */
  datatype Fallback = Fallback(
    recommendations: seq<string>,
    factorsAddressed: seq<string>,
    note: string)

  /** `_get_fallback_recommendations`: the advice for the given severity
      label, the `At Risk` advice for a missing or unrecognised label, the
      input's primary factors (or none) and a fixed note. */
  function FallbackRecommendations(data: AnalysisData): (r: Fallback)
    ensures |r.recommendations| == 4
    ensures forall s :: data.severity == Some(SeverityLabel(s)) ==>
              r.recommendations == FallbackFor(s)
    ensures (data.severity.None? || forall s :: data.severity.value != SeverityLabel(s)) ==>
              r.recommendations == FallbackFor(AtRisk)
    ensures data.primaryFactors.Some? ==> r.factorsAddressed == data.primaryFactors.value
    ensures data.primaryFactors.None? ==> r.factorsAddressed == []
    ensures r.note == FallbackNote
  {
    var severity := data.severity.GetOr("Unknown");
    var advice := match ParseSeverity(severity)
      case Some(s) => FallbackFor(s)
      case None => FallbackFor(AtRisk);
    Fallback(advice, data.primaryFactors.GetOr([]), FallbackNote)
  }

  /** A missing severity and the literal label `Unknown` get the same
      fallback, the `At Risk` advice: `Unknown` is none of the analyzer's
      labels. */
  lemma UnknownActsAsMissing(data: AnalysisData)
    ensures FallbackRecommendations(data.(severity := Some("Unknown")))
            == FallbackRecommendations(data.(severity := None))
    ensures FallbackRecommendations(data.(severity := None)).recommendations == FallbackFor(AtRisk)
  {
    forall s ensures SeverityLabel(s) != "Unknown" {
      assert SeverityLabel(s)[0] != 'U';
    }
  }

  // ---------------------------------------------------------------------
  // Shaping a reply
  // ---------------------------------------------------------------------

  const ReplyConfidence: real := 0.85

  /** The recommendation record built from a model reply. */
  datatype Parsed = Parsed(
    recommendations: string,
    severity: string,
    primaryFocus: seq<string>,
    generatedAt: Option<string>,
    confidence: real)

  /** `_parse_recommendations`: the reply text verbatim, the input's
      severity, factors and date with their defaults, and a fixed
      confidence. */
  function ParseRecommendations(response: string, data: AnalysisData): (r: Parsed)
    ensures r.recommendations == response
    ensures data.severity.Some? ==> r.severity == data.severity.value
    ensures data.severity.None? ==> r.severity == "Unknown"
    ensures data.primaryFactors.Some? ==> r.primaryFocus == data.primaryFactors.value
    ensures data.primaryFactors.None? ==> r.primaryFocus == []
    ensures r.generatedAt == data.date
    ensures r.confidence == 0.85
  {
    Parsed(response, data.severity.GetOr("Unknown"), data.primaryFactors.GetOr([]),
           data.date, ReplyConfidence)
  }

  // ---------------------------------------------------------------------
  // Prompt inputs
  // ---------------------------------------------------------------------

  /** The values the prompt builder reads out of the analysis. */
  datatype PromptInputs = PromptInputs(
    severity: string,
    score: real,
    factors: seq<string>,
    vegetationHealth: real,
    moistureLevel: real,
    soilExposure: real,
    erosionRisk: real)

  /** The indicator keys the prompt reads, in prompt order. */
  const PromptIndicatorKeys: seq<string> :=
    ["vegetation_health", "moisture_level", "soil_exposure", "erosion_risk"]

  /** `_build_prompt`'s reads: severity `Unknown`, score 0, no factors and
      each indicator 0 when absent; a present value is used as given. */
  function BuildPromptInputs(data: AnalysisData): (r: PromptInputs)
    ensures data.severity.None? ==> r.severity == "Unknown"
    ensures data.severity.Some? ==> r.severity == data.severity.value
    ensures r.score == (if data.degradationScore.Some? then data.degradationScore.value else 0.0)
    ensures data.primaryFactors.None? ==> r.factors == []
    ensures data.primaryFactors.Some? ==> r.factors == data.primaryFactors.value
    ensures var given := data.indicators.GetOr(map[]);
            var values := [r.vegetationHealth, r.moistureLevel, r.soilExposure, r.erosionRisk];
            forall i :: 0 <= i < 4 ==>
              values[i] == (if PromptIndicatorKeys[i] in given then given[PromptIndicatorKeys[i]] else 0.0)
  {
    var given := data.indicators.GetOr(map[]);
    PromptInputs(
      data.severity.GetOr("Unknown"),
      data.degradationScore.GetOr(0.0),
      data.primaryFactors.GetOr([]),
      Lookup(given, "vegetation_health", 0.0),
      Lookup(given, "moisture_level", 0.0),
      Lookup(given, "soil_exposure", 0.0),
      Lookup(given, "erosion_risk", 0.0))
  }

  // ---------------------------------------------------------------------
  // The whole call
  // ---------------------------------------------------------------------

  /** One block of a model reply: text, or anything else (kept as its
      string form). */
  datatype ContentBlock = TextBlock(text: string) | OtherBlock(shown: string)

  /** What the model call settles to: an exception with its message, or a
      reply made of content blocks. */
  datatype ModelReply = CallFailed(reason: string) | Replied(content: seq<ContentBlock>)

  /** The text taken from a reply: the first block's text (or string form),
      or nothing when the reply has no blocks. */
  function ResponseText(content: seq<ContentBlock>): (r: string)
    ensures content == [] ==> r == ""
    ensures content != [] && content[0].TextBlock? ==> r == content[0].text
    ensures content != [] && content[0].OtherBlock? ==> r == content[0].shown
  {
    if |content| == 0 then ""
    else match content[0]
      case TextBlock(t) => t
      case OtherBlock(s) => s
  }

  datatype RecommendationReport =
    | Recommendations(parsed: Parsed)
    | RecommendationError(error: string, fallback: Fallback)

  const ErrorPrefix: string := "Failed to generate recommendations: "

  /** `generate_recommendations`: the shaped reply when the call succeeds;
      otherwise the error message and the fallback for the same analysis. */
  function GenerateRecommendations(data: AnalysisData, reply: ModelReply): (r: RecommendationReport)
    ensures r.RecommendationError? <==> reply.CallFailed?
    ensures reply.CallFailed? ==>
              r.error == ErrorPrefix + reply.reason
              && r.fallback == FallbackRecommendations(data)
    ensures reply.Replied? ==>
              r.parsed == ParseRecommendations(ResponseText(reply.content), data)
  {
    match reply
    case CallFailed(reason) => RecommendationError(ErrorPrefix + reason, FallbackRecommendations(data))
    case Replied(content) => Recommendations(ParseRecommendations(ResponseText(content), data))
  }
}
