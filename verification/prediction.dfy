/** The prediction service: rule-based risk points from a feature
    dictionary, a four-level risk classification, a fixed six-month
    forecast and at most three key drivers. Failures anywhere in the
    pipeline become an "Unknown" report with a zero score. */
module PredictionService {
  import opened Common

  // ---------------------------------------------------------------------
  // Risk levels
  // ---------------------------------------------------------------------

  datatype RiskLevel = Low | Medium | High | Critical | Unknown

  /** `_classify_risk`: cut-points 25, 50 and 75, each bucket including its
      lower cut-point; "Unknown" is reserved for failures. */
  function ClassifyRisk(score: real): (r: RiskLevel)
    ensures r != Unknown
    ensures r == Low <==> score < 25.0
    ensures r == Medium <==> 25.0 <= score < 50.0
    ensures r == High <==> 50.0 <= score < 75.0
    ensures r == Critical <==> 75.0 <= score
  {
    if score < 25.0 then Low
    else if score < 50.0 then Medium
    else if score < 75.0 then High
    else Critical
  }

  // ---------------------------------------------------------------------
  // Features
  // ---------------------------------------------------------------------

  const DefaultNdvi: real := 0.5
  const DefaultMoisture: real := 0.3
  const DefaultBareSoil: real := 0.2
  const DefaultErosionRisk: real := 0.3

  /** The feature keys in the order the risk rules read them. */
  const RiskKeys: seq<string> :=
    ["current_ndvi", "ndvi_trend", "ndvi_volatility", "moisture", "bare_soil", "erosion_risk"]

  datatype Features = Features(
    currentNdvi: real,
    ndviTrend: real,
    ndviVolatility: real,
    moisture: real,
    bareSoil: real,
    erosionRisk: real)

  /** `_calculate_trend`: fewer than two values give a flat trend, otherwise
      the least-squares slope of the values, which the caller supplies. */
  function Trend(valueCount: nat, slope: real): (t: real)
    ensures valueCount < 2 ==> t == 0.0
  {
    if valueCount < 2 then 0.0 else slope
  }

  /** `_extract_features`: with no history the current indicators are
      returned unchanged; otherwise every feature the rules read is present.
      `slope` and `spread` stand for the regression slope and the standard
      deviation of the historical NDVI values. */
  function ExtractFeatures(history: seq<map<string, real>>, current: map<string, real>,
                           slope: real, spread: real): (f: map<string, real>)
    ensures history == [] ==> f == current
    ensures history != [] ==> forall k :: k in RiskKeys ==> k in f
    ensures |history| == 1 ==> "ndvi_trend" in f && f["ndvi_trend"] == 0.0
  {
    if history == [] then current
    else
      map[
        "current_ndvi" := Lookup(current, "ndvi", DefaultNdvi),
        "ndvi_trend" := Trend(|history|, slope),
        "ndvi_volatility" := spread,
        "moisture" := Lookup(current, "ndmi", DefaultMoisture),
        "bare_soil" := Lookup(current, "bare_soil_index", DefaultBareSoil),
        "erosion_risk" := Lookup(current, "erosion_risk", DefaultErosionRisk),
        "time_since_last" := |history| as real]
  }

  /** Reading the features either yields all six or fails on a missing key. */
  datatype FeatureRead = Read(features: Features) | KeyError(key: string)

  /** The subscripts of `_calculate_risk_score`, in the order it evaluates
      them: the first missing key raises. */
  function ReadFeatures(d: map<string, real>): (r: FeatureRead)
    ensures r.Read? <==> forall k :: k in RiskKeys ==> k in d
    ensures r.KeyError? ==>
              exists i :: 0 <= i < |RiskKeys| && RiskKeys[i] == r.key && r.key !in d
                && forall j :: 0 <= j < i ==> RiskKeys[j] in d
    ensures r.Read? ==>
              && r.features.currentNdvi == d["current_ndvi"]
              && r.features.ndviTrend == d["ndvi_trend"]
              && r.features.ndviVolatility == d["ndvi_volatility"]
              && r.features.moisture == d["moisture"]
              && r.features.bareSoil == d["bare_soil"]
              && r.features.erosionRisk == d["erosion_risk"]
  {
    assert RiskKeys[0] == "current_ndvi" && RiskKeys[1] == "ndvi_trend" && RiskKeys[2] == "ndvi_volatility";
    assert RiskKeys[3] == "moisture" && RiskKeys[4] == "bare_soil" && RiskKeys[5] == "erosion_risk";
    if "current_ndvi" !in d then KeyError("current_ndvi")
    else if "ndvi_trend" !in d then KeyError("ndvi_trend")
    else if "ndvi_volatility" !in d then KeyError("ndvi_volatility")
    else if "moisture" !in d then KeyError("moisture")
    else if "bare_soil" !in d then KeyError("bare_soil")
    else if "erosion_risk" !in d then KeyError("erosion_risk")
    else Read(Features(d["current_ndvi"], d["ndvi_trend"], d["ndvi_volatility"],
                       d["moisture"], d["bare_soil"], d["erosion_risk"]))
  }

  // ---------------------------------------------------------------------
  // Risk score
  // ---------------------------------------------------------------------

  /** The NDVI rule adds exactly one of 30, 15 or 0. */
  function NdviPoints(ndvi: real): (p: real)
    ensures p == 30.0 <==> ndvi < 0.3
    ensures p == 15.0 <==> 0.3 <= ndvi < 0.5
    ensures p == 0.0 <==> 0.5 <= ndvi
  {
    if ndvi < 0.3 then 30.0 else if ndvi < 0.5 then 15.0 else 0.0
  }

  /** The points each rule contributes, independently of the others. */
  function TrendPoints(f: Features): real { if f.ndviTrend < -0.01 then 25.0 else 0.0 }
  function VolatilityPoints(f: Features): real { if f.ndviVolatility > 0.1 then 15.0 else 0.0 }
  function MoisturePoints(f: Features): real { if f.moisture < 0.2 then 20.0 else 0.0 }
  function BareSoilPoints(f: Features): real { if f.bareSoil > 0.5 then 20.0 else 0.0 }
  function ErosionPoints(f: Features): real { f.erosionRisk * 25.0 }

  /** The sum of the rule points, capped at 100. */
  function RiskScore(f: Features): (s: real)
    ensures s <= 100.0
    ensures f.erosionRisk >= 0.0 ==> s >= 0.0
    ensures 0.0 <= f.erosionRisk <= 1.0 && NdviPoints(f.currentNdvi) == 0.0 && TrendPoints(f) == 0.0
              && VolatilityPoints(f) == 0.0 && MoisturePoints(f) == 0.0 && BareSoilPoints(f) == 0.0
            ==> s < 50.0
  {
    var total := NdviPoints(f.currentNdvi) + TrendPoints(f) + VolatilityPoints(f)
                 + MoisturePoints(f) + BareSoilPoints(f) + ErosionPoints(f);
    if total < 100.0 then total else 100.0
  }

  /** `_calculate_risk_score`: accumulates the rule points one rule at a
      time and caps the total. */
  method CalculateRiskScore(f: Features) returns (score: real)
    ensures score == RiskScore(f)
  {
    score := 0.0;
    if f.currentNdvi < 0.3 {
      score := score + 30.0;
    } else if f.currentNdvi < 0.5 {
      score := score + 15.0;
    }
    if f.ndviTrend < -0.01 {
      score := score + 25.0;
    }
    if f.ndviVolatility > 0.1 {
      score := score + 15.0;
    }
    if f.moisture < 0.2 {
      score := score + 20.0;
    }
    if f.bareSoil > 0.5 {
      score := score + 20.0;
    }
    score := score + f.erosionRisk * 25.0;
    if 100.0 < score {
      score := 100.0;
    }
  }

  // ---------------------------------------------------------------------
  // Forecast
  // ---------------------------------------------------------------------

  datatype ForecastEntry = ForecastEntry(month: nat, projectedScore: real, confidence: real)

  const ForecastMonths: nat := 6
  const DefaultBaseScore: real := 50.0

  /** The base score grown by a tenth of the risk score per month, capped
      at 100. */
  function ProjectedScore(riskScore: real, base: real, month: nat): (p: real)
    ensures p <= 100.0
    ensures riskScore >= 0.0 && base <= 100.0 ==> p >= base
  {
    var raw := base + riskScore / 100.0 * (month as real) * 10.0;
    if raw < 100.0 then raw else 100.0
  }

  /** 0.9 minus 0.05 per month, never below 0.5. */
  function ForecastConfidence(month: nat): (c: real)
    ensures c >= 0.5
    ensures c <= 0.9
  {
    var raw := 0.9 - (month as real) * 0.05;
    if raw > 0.5 then raw else 0.5
  }

  /** A projection never falls from one month to a later one when the risk
      score is not negative. */
  lemma ProjectedScoreMonotone(riskScore: real, base: real, m1: nat, m2: nat)
    requires riskScore >= 0.0 && m1 <= m2
    ensures ProjectedScore(riskScore, base, m1) <= ProjectedScore(riskScore, base, m2)
  {
    var rate := riskScore / 100.0;
    assert rate >= 0.0;
    assert rate * (m2 as real) - rate * (m1 as real) == rate * ((m2 - m1) as real);
    assert rate * ((m2 - m1) as real) >= 0.0;
  }

  /** The confidence falls strictly over the six forecast months. */
  lemma ForecastConfidenceDecreasing(m1: nat, m2: nat)
    requires 1 <= m1 < m2 <= ForecastMonths
    ensures ForecastConfidence(m1) > ForecastConfidence(m2)
  {
  }

  /** The forecast a risk score and a base score determine: one entry per
      month 1..6. */
  ghost predicate IsForecast(forecast: seq<ForecastEntry>, riskScore: real, base: real) {
    && |forecast| == ForecastMonths
    && forall i :: 0 <= i < |forecast| ==>
         forecast[i] == ForecastEntry(i + 1, ProjectedScore(riskScore, base, i + 1), ForecastConfidence(i + 1))
  }

  /** `_generate_forecast`: months 1 to 6 in turn, each appended; the base
      is the current degradation score, 50 when absent. */
  method GenerateForecast(riskScore: real, current: map<string, real>)
    returns (forecast: seq<ForecastEntry>)
    ensures IsForecast(forecast, riskScore, Lookup(current, "degradation_score", DefaultBaseScore))
  {
    var base := Lookup(current, "degradation_score", DefaultBaseScore);
    forecast := [];
    var month := 1;
    while month <= ForecastMonths
      invariant 1 <= month <= ForecastMonths + 1
      invariant |forecast| == month - 1
      invariant forall i :: 0 <= i < |forecast| ==>
                  forecast[i] == ForecastEntry(i + 1, ProjectedScore(riskScore, base, i + 1), ForecastConfidence(i + 1))
    {
      var projected := base + riskScore / 100.0 * (month as real) * 10.0;
      if 100.0 < projected {
        projected := 100.0;
      }
      var confidence := 0.9 - (month as real) * 0.05;
      if confidence <= 0.5 {
        confidence := 0.5;
      }
      forecast := forecast + [ForecastEntry(month, projected, confidence)];
      month := month + 1;
    }
  }

  /** What every forecast promises: months 1..6 in ascending order,
      projections capped at 100 and non-decreasing for a non-negative risk
      score, confidence falling strictly from 0.85 to 0.6 and never below
      0.5. */
  lemma ForecastShape(forecast: seq<ForecastEntry>, riskScore: real, base: real)
    requires IsForecast(forecast, riskScore, base)
    ensures forall i :: 0 <= i < |forecast| ==> forecast[i].month == i + 1
    ensures forall i :: 0 <= i < |forecast| ==>
              forecast[i].projectedScore <= 100.0 && forecast[i].confidence >= 0.5
    ensures forall i, j :: 0 <= i < j < |forecast| ==> forecast[i].confidence > forecast[j].confidence
    ensures riskScore >= 0.0 ==>
              forall i, j :: 0 <= i < j < |forecast| ==> forecast[i].projectedScore <= forecast[j].projectedScore
    ensures forecast[0].confidence == 0.85 && forecast[5].confidence == 0.6
  {
    forall i, j | 0 <= i < j < |forecast|
      ensures forecast[i].confidence > forecast[j].confidence
      ensures riskScore >= 0.0 ==> forecast[i].projectedScore <= forecast[j].projectedScore
    {
      ForecastConfidenceDecreasing(i + 1, j + 1);
      if riskScore >= 0.0 {
        ProjectedScoreMonotone(riskScore, base, i + 1, j + 1);
      }
    }
  }

  // ---------------------------------------------------------------------
  // Key drivers
  // ---------------------------------------------------------------------

  /** The driver checks in the order they run. */
  const DriverLabels: seq<string> := [
    "Declining vegetation health",
    "Moisture stress",
    "High soil exposure",
    "Erosion susceptibility",
    "Unstable vegetation cover"]

  const MaxDrivers: nat := 3

  /** Whether driver check `i` fires. */
  predicate DriverFires(f: Features, i: nat) {
    if i == 0 then f.ndviTrend < -0.01
    else if i == 1 then f.moisture < 0.2
    else if i == 2 then f.bareSoil > 0.5
    else if i == 3 then f.erosionRisk > 0.5
    else if i == 4 then f.ndviVolatility > 0.1
    else false
  }

  /** The checks among the first `n` that fire, in check order (and, by
      `FiringChecksComplete`, every one of them). */
  function FiringChecks(f: Features, n: nat): (r: seq<nat>)
    requires n <= |DriverLabels|
    ensures forall k :: 0 <= k < |r| ==> r[k] < n && DriverFires(f, r[k])
    ensures forall k, l :: 0 <= k < l < |r| ==> r[k] < r[l]
  {
    if n == 0 then []
    else
      var prev := FiringChecks(f, n - 1);
      if DriverFires(f, n - 1) then
        var r := prev + [n - 1];
        assert forall k :: 0 <= k < |prev| ==> r[k] == prev[k];
        assert r[|prev|] == n - 1;
        r
      else prev
  }

  /** No check that fires is missing from `FiringChecks`. */
  lemma {:induction false} FiringChecksComplete(f: Features, n: nat)
    requires n <= |DriverLabels|
    ensures forall j :: 0 <= j < n && DriverFires(f, j) ==> j in FiringChecks(f, n)
  {
    if n > 0 {
      FiringChecksComplete(f, n - 1);
      var prev := FiringChecks(f, n - 1);
      if DriverFires(f, n - 1) {
        assert FiringChecks(f, n) == prev + [n - 1];
      }
    }
  }

  /** The labels of the checks among the first `n` that fire, appended in
      check order. */
  function DriversUpTo(f: Features, n: nat): (r: seq<string>)
    requires n <= |DriverLabels|
    ensures |r| == |FiringChecks(f, n)|
    ensures forall k :: 0 <= k < |r| ==> r[k] == DriverLabels[FiringChecks(f, n)[k]]
  {
    if n == 0 then []
    else DriversUpTo(f, n - 1) + (if DriverFires(f, n - 1) then [DriverLabels[n - 1]] else [])
  }

  /** `_identify_drivers`: appends the label of each check that fires, in
      check order, then keeps the first three. */
  method IdentifyDrivers(f: Features) returns (drivers: seq<string>)
    ensures drivers == Take(DriversUpTo(f, |DriverLabels|), MaxDrivers)
  {
    drivers := [];
    if f.ndviTrend < -0.01 {
      drivers := drivers + [DriverLabels[0]];
    }
    assert drivers == DriversUpTo(f, 1);
    if f.moisture < 0.2 {
      drivers := drivers + [DriverLabels[1]];
    }
    assert drivers == DriversUpTo(f, 2);
    if f.bareSoil > 0.5 {
      drivers := drivers + [DriverLabels[2]];
    }
    assert drivers == DriversUpTo(f, 3);
    if f.erosionRisk > 0.5 {
      drivers := drivers + [DriverLabels[3]];
    }
    assert drivers == DriversUpTo(f, 4);
    if f.ndviVolatility > 0.1 {
      drivers := drivers + [DriverLabels[4]];
    }
    assert drivers == DriversUpTo(f, 5);
    drivers := Take(drivers, MaxDrivers);
  }

  /** The reported drivers are the labels of the first three checks that
      fire, in check order; when at most three fire, all of them are
      reported. */
  lemma KeyDriversShape(f: Features)
    ensures var drivers := Take(DriversUpTo(f, |DriverLabels|), MaxDrivers);
            var fired := FiringChecks(f, |DriverLabels|);
            && |drivers| == Min(|fired|, MaxDrivers)
            && (forall k :: 0 <= k < |drivers| ==> drivers[k] == DriverLabels[fired[k]])
            && (|fired| <= MaxDrivers ==>
                  forall j :: 0 <= j < |DriverLabels| && DriverFires(f, j) ==> DriverLabels[j] in drivers)
  {
    var drivers := Take(DriversUpTo(f, |DriverLabels|), MaxDrivers);
    var fired := FiringChecks(f, |DriverLabels|);
    FiringChecksComplete(f, |DriverLabels|);
    if |fired| <= MaxDrivers {
      forall j | 0 <= j < |DriverLabels| && DriverFires(f, j)
        ensures DriverLabels[j] in drivers
      {
        var k :| 0 <= k < |fired| && fired[k] == j;
        assert drivers[k] == DriverLabels[j];
      }
    }
  }

  // ---------------------------------------------------------------------
  // The whole prediction
  // ---------------------------------------------------------------------

  const PredictionConfidence: real := 0.78

  datatype PredictionReport =
    | Prediction(riskLevel: RiskLevel, riskScore: real, confidence: real,
                 forecast: seq<ForecastEntry>, keyDrivers: seq<string>)
    | PredictionError(error: string, riskLevel: RiskLevel, riskScore: real)

  /** The message of the caught exception: a missing key is shown quoted. */
  function FailureMessage(key: string): string {
    "Prediction failed: '" + key + "'"
  }

  /** Everything after feature extraction: a missing feature gives the
      "Unknown" report with score 0; otherwise the level is the class of the
      unrounded score, and forecast and drivers follow from the same score
      and features. */
  method PredictFromFeatures(features: map<string, real>, current: map<string, real>)
    returns (report: PredictionReport)
    ensures ReadFeatures(features).KeyError? ==>
              report == PredictionError(FailureMessage(ReadFeatures(features).key), Unknown, 0.0)
    ensures ReadFeatures(features).Read? ==>
              var f := ReadFeatures(features).features;
              && report.Prediction?
              && report.riskScore == RiskScore(f)
              && report.riskLevel == ClassifyRisk(report.riskScore)
              && report.confidence == PredictionConfidence
              && IsForecast(report.forecast, report.riskScore, Lookup(current, "degradation_score", DefaultBaseScore))
              && report.keyDrivers == Take(DriversUpTo(f, |DriverLabels|), MaxDrivers)
  {
    match ReadFeatures(features)
    case KeyError(key) =>
      report := PredictionError(FailureMessage(key), Unknown, 0.0);
    case Read(f) =>
      var riskScore := CalculateRiskScore(f);
      var forecast := GenerateForecast(riskScore, current);
      var drivers := IdentifyDrivers(f);
      report := Prediction(ClassifyRisk(riskScore), riskScore, PredictionConfidence, forecast, drivers);
  }

  /** `predict_degradation_risk`, as written. */
  method PredictDegradationRisk(history: seq<map<string, real>>, current: map<string, real>,
                                slope: real, spread: real)
    returns (report: PredictionReport)
    ensures history != [] ==> report.Prediction?
    ensures history == [] && "current_ndvi" !in current ==>
              report == PredictionError(FailureMessage("current_ndvi"), Unknown, 0.0)
    ensures var d := ExtractFeatures(history, current, slope, spread);
            ReadFeatures(d).KeyError? ==>
              report == PredictionError(FailureMessage(ReadFeatures(d).key), Unknown, 0.0)
    ensures var d := ExtractFeatures(history, current, slope, spread);
            ReadFeatures(d).Read? ==>
              var f := ReadFeatures(d).features;
              && report.Prediction?
              && report.riskScore == RiskScore(f)
              && report.confidence == PredictionConfidence
              && IsForecast(report.forecast, report.riskScore, Lookup(current, "degradation_score", DefaultBaseScore))
              && report.keyDrivers == Take(DriversUpTo(f, |DriverLabels|), MaxDrivers)
    ensures report.PredictionError? ==> report.riskLevel == Unknown && report.riskScore == 0.0
    ensures report.Prediction? ==> report.riskLevel == ClassifyRisk(report.riskScore) && report.riskScore <= 100.0
  {
    var features := ExtractFeatures(history, current, slope, spread);
    report := PredictFromFeatures(features, current);
  }

  /** With no history, any indicator dictionary without a `current_ndvi`
      entry (the analyzer's own keys are ndvi, ndmi, bare_soil_index and
      erosion_risk) makes the risk rules fail on their first read. */
  lemma EmptyHistoryRaisesKeyError(current: map<string, real>, slope: real, spread: real)
    requires "current_ndvi" !in current
    ensures ReadFeatures(ExtractFeatures([], current, slope, spread)) == KeyError("current_ndvi")
  {
  }

  /** Feature extraction as evidently intended: with no history the
      features come from the current indicators, with a flat trend, no
      volatility and no elapsed history; so the rules can always be read, and
      with history it agrees with `ExtractFeatures`. */
  function ExtractFeaturesIntended(history: seq<map<string, real>>, current: map<string, real>,
                                   slope: real, spread: real): (f: map<string, real>)
    ensures ReadFeatures(f).Read?
    ensures history != [] ==> f == ExtractFeatures(history, current, slope, spread)
    ensures history == [] ==> ReadFeatures(f).features.ndviTrend == 0.0
                              && ReadFeatures(f).features.ndviVolatility == 0.0
  {
    map[
      "current_ndvi" := Lookup(current, "ndvi", DefaultNdvi),
      "ndvi_trend" := Trend(|history|, slope),
      "ndvi_volatility" := if history == [] then 0.0 else spread,
      "moisture" := Lookup(current, "ndmi", DefaultMoisture),
      "bare_soil" := Lookup(current, "bare_soil_index", DefaultBareSoil),
      "erosion_risk" := Lookup(current, "erosion_risk", DefaultErosionRisk),
      "time_since_last" := |history| as real]
  }

  /** The prediction with the intended feature extraction: every request,
      with or without history, gets a classified report whose score is the
      rule score of its features. */
  method PredictDegradationRiskIntended(history: seq<map<string, real>>, current: map<string, real>,
                                        slope: real, spread: real)
    returns (report: PredictionReport)
    ensures report.Prediction?
    ensures report.riskScore
            == RiskScore(ReadFeatures(ExtractFeaturesIntended(history, current, slope, spread)).features)
    ensures report.riskLevel == ClassifyRisk(report.riskScore) && report.riskLevel != Unknown
    ensures report.riskScore <= 100.0
  {
    var features := ExtractFeaturesIntended(history, current, slope, spread);
    report := PredictFromFeatures(features, current);
  }
}
