/** The degradation analyzer: four spectral indices become clamped
    "degradation signals" (0 = healthy, 1 = degraded), a weighted composite
    score on a 0-100 scale, one of four severity labels, and the two most
    pronounced contributing factors. */
module DegradationService {
  import opened Common

  // ---------------------------------------------------------------------
  // Severity
  // ---------------------------------------------------------------------

  datatype Severity = Healthy | AtRisk | Degraded | SeverelyDegraded

  /** The label the service emits for each severity. */
  function SeverityLabel(s: Severity): string {
    match s
    case Healthy => "Healthy"
    case AtRisk => "At Risk"
    case Degraded => "Degraded"
    case SeverelyDegraded => "Severely Degraded"
  }

  /** Reads a label back; None for any string that is not one of the four. */
  function ParseSeverity(text: string): (r: Option<Severity>)
    ensures r.Some? ==> SeverityLabel(r.value) == text
    ensures forall s :: SeverityLabel(s) == text ==> r == Some(s)
  {
    if text == "Healthy" then Some(Healthy)
    else if text == "At Risk" then Some(AtRisk)
    else if text == "Degraded" then Some(Degraded)
    else if text == "Severely Degraded" then Some(SeverelyDegraded)
    else None
  }

  /** Position on the scale, from healthiest (0) to worst (3). */
  function Rank(s: Severity): nat {
    match s
    case Healthy => 0
    case AtRisk => 1
    case Degraded => 2
    case SeverelyDegraded => 3
  }

  /** The four buckets split the real line at 25, 50 and 75; each bucket
      includes its lower cut-point. */
  function ClassifySeverity(score: real): (s: Severity)
    ensures s == Healthy <==> score < 25.0
    ensures s == AtRisk <==> 25.0 <= score < 50.0
    ensures s == Degraded <==> 50.0 <= score < 75.0
    ensures s == SeverelyDegraded <==> 75.0 <= score
  {
    if score < 25.0 then Healthy
    else if score < 50.0 then AtRisk
    else if score < 75.0 then Degraded
    else SeverelyDegraded
  }

  /** A higher score never yields a healthier severity. */
  lemma ClassifySeverityMonotone(x: real, y: real)
    requires x <= y
    ensures Rank(ClassifySeverity(x)) <= Rank(ClassifySeverity(y))
  {
  }

  // ---------------------------------------------------------------------
  // Signals
  // ---------------------------------------------------------------------

  const DefaultNdvi: real := 0.5
  const DefaultNdmi: real := 0.3
  const DefaultBareSoilIndex: real := 0.2
  const DefaultErosionRisk: real := 0.3

  /** NDVI below 0.6 counts as vegetation loss, scaled so that NDVI 0 gives 1. */
  function NdviSignal(ndvi: real): (r: real)
    ensures r >= 0.0
    ensures ndvi >= 0.0 ==> r <= 1.0
    ensures r == 0.0 <==> ndvi >= 0.6
  {
    var raw := (0.6 - ndvi) / 0.6;
    if raw > 0.0 then raw else 0.0
  }

  /** NDMI below 0.4 counts as moisture deficit, scaled so that NDMI 0 gives 1. */
  function NdmiSignal(ndmi: real): (r: real)
    ensures r >= 0.0
    ensures ndmi >= 0.0 ==> r <= 1.0
    ensures r == 0.0 <==> ndmi >= 0.4
  {
    var raw := (0.4 - ndmi) / 0.4;
    if raw > 0.0 then raw else 0.0
  }

  /** Twice the bare-soil index, capped at 1 (reached at index 0.5). */
  function BareSoilSignal(bsi: real): (r: real)
    ensures r <= 1.0
    ensures bsi >= 0.0 ==> r >= 0.0
    ensures r == 1.0 <==> bsi >= 0.5
  {
    var raw := bsi * 2.0;
    if raw < 1.0 then raw else 1.0
  }

  datatype Signals = Signals(ndvi: real, ndmi: real, bareSoil: real, erosion: real)

  predicate InUnitRange(x: real) { 0.0 <= x <= 1.0 }

  predicate AllInUnitRange(g: Signals) {
    InUnitRange(g.ndvi) && InUnitRange(g.ndmi) && InUnitRange(g.bareSoil) && InUnitRange(g.erosion)
  }

  /** Index values for which every signal lies in [0, 1]: non-negative NDVI,
      NDMI and bare-soil index (a narrower domain than the indices' physical
      range of [-1, 1]), and an erosion risk that is a fraction. */
  predicate IndicesGiveUnitSignals(indicators: map<string, real>) {
    && Lookup(indicators, "ndvi", DefaultNdvi) >= 0.0
    && Lookup(indicators, "ndmi", DefaultNdmi) >= 0.0
    && Lookup(indicators, "bare_soil_index", DefaultBareSoilIndex) >= 0.0
    && InUnitRange(Lookup(indicators, "erosion_risk", DefaultErosionRisk))
  }

  /** Reads the four indices, each defaulting when its key is missing, and
      turns them into signals; the erosion signal is the erosion risk itself. */
  function SignalsOf(indicators: map<string, real>): (g: Signals)
    ensures "ndvi" in indicators ==> g.ndvi == NdviSignal(indicators["ndvi"])
    ensures "ndvi" !in indicators ==> g.ndvi == NdviSignal(DefaultNdvi)
    ensures "ndmi" in indicators ==> g.ndmi == NdmiSignal(indicators["ndmi"])
    ensures "ndmi" !in indicators ==> g.ndmi == NdmiSignal(DefaultNdmi)
    ensures "bare_soil_index" in indicators ==> g.bareSoil == BareSoilSignal(indicators["bare_soil_index"])
    ensures "bare_soil_index" !in indicators ==> g.bareSoil == BareSoilSignal(DefaultBareSoilIndex)
    ensures "erosion_risk" in indicators ==> g.erosion == indicators["erosion_risk"]
    ensures "erosion_risk" !in indicators ==> g.erosion == DefaultErosionRisk
    ensures g.ndvi >= 0.0 && g.ndmi >= 0.0 && g.bareSoil <= 1.0
    ensures IndicesGiveUnitSignals(indicators) ==> AllInUnitRange(g)
  {
    Signals(
      NdviSignal(Lookup(indicators, "ndvi", DefaultNdvi)),
      NdmiSignal(Lookup(indicators, "ndmi", DefaultNdmi)),
      BareSoilSignal(Lookup(indicators, "bare_soil_index", DefaultBareSoilIndex)),
      Lookup(indicators, "erosion_risk", DefaultErosionRisk))
  }

  /** The dictionary with every missing index set to its default. */
  function WithDefaults(indicators: map<string, real>): map<string, real> {
    map["ndvi" := DefaultNdvi, "ndmi" := DefaultNdmi,
        "bare_soil_index" := DefaultBareSoilIndex, "erosion_risk" := DefaultErosionRisk]
      + indicators
  }

  // ---------------------------------------------------------------------
  // Composite score
  // ---------------------------------------------------------------------

  const VegetationWeight: real := 0.30
  const MoistureWeight: real := 0.25
  const SoilExposureWeight: real := 0.25
  const ErosionWeight: real := 0.20

  /** The weighted sum of the signals on a 0-100 scale. The weights sum to 1,
      so equal signals give that signal times 100 and signals in [0, 1] give
      a score in [0, 100]. */
  function CompositeScore(g: Signals): (score: real)
    ensures g.ndvi == g.ndmi == g.bareSoil == g.erosion ==> score == g.ndvi * 100.0
    ensures AllInUnitRange(g) ==> 0.0 <= score <= 100.0
  {
    (g.ndvi * VegetationWeight + g.ndmi * MoistureWeight
      + g.bareSoil * SoilExposureWeight + g.erosion * ErosionWeight) * 100.0
  }

  /** The composite score recomputed from the reported 0-100 indicators. */
  function ScoreFromIndicators(ind: Indicators): real {
    VegetationWeight * (100.0 - ind.vegetationHealth)
      + MoistureWeight * (100.0 - ind.moistureLevel)
      + SoilExposureWeight * ind.soilExposure
      + ErosionWeight * ind.erosionRisk
  }

  predicate Percentage(x: real) { 0.0 <= x <= 100.0 }

  predicate AllPercentages(ind: Indicators) {
    Percentage(ind.vegetationHealth) && Percentage(ind.moistureLevel)
      && Percentage(ind.soilExposure) && Percentage(ind.erosionRisk)
  }

  // ---------------------------------------------------------------------
  // Primary factors: a stable sort by decreasing signal, the first two
  // entries, and of those the ones above the threshold
  // ---------------------------------------------------------------------

  datatype Factor = Factor(name: string, signal: real)

  const FactorThreshold: real := 0.3

  /** The signal table in its insertion order. */
  function SignalTable(g: Signals): seq<Factor> {
    [ Factor("Low vegetation cover", g.ndvi),
      Factor("Soil moisture deficit", g.ndmi),
      Factor("High bare soil exposure", g.bareSoil),
      Factor("Erosion risk", g.erosion) ]
  }

  ghost predicate NonIncreasing(s: seq<Factor>) {
    forall i, j :: 0 <= i < j < |s| ==> s[i].signal >= s[j].signal
  }

  /** The entries of `s` whose signal is exactly `v`, in their order in `s`. */
  function WithSignal(s: seq<Factor>, v: real): seq<Factor> {
    if s == [] then []
    else (if s[0].signal == v then [s[0]] else []) + WithSignal(s[1..], v)
  }

  /** Puts `x` in front of the first entry whose signal does not exceed its
      own, so that `x` precedes the entries it ties with. */
  function InsertDesc(x: Factor, s: seq<Factor>): (r: seq<Factor>)
    ensures |r| == |s| + 1
    ensures multiset(r) == multiset(s) + multiset{x}
  {
    if s == [] || s[0].signal <= x.signal then [x] + s
    else
      assert s == [s[0]] + s[1..];
      [s[0]] + InsertDesc(x, s[1..])
  }

  /** Inserting into a non-increasing list keeps it non-increasing. */
  lemma {:induction false} InsertDescSorted(x: Factor, s: seq<Factor>)
    requires NonIncreasing(s)
    ensures NonIncreasing(InsertDesc(x, s))
  {
    if s == [] || s[0].signal <= x.signal {
      assert forall j | 0 <= j < |s| :: s[j].signal <= x.signal by {
        forall j | 0 <= j < |s| ensures s[j].signal <= x.signal {
          if j > 0 { assert s[0].signal >= s[j].signal; }
        }
      }
      ConsSorted(x, s);
    } else {
      var rest := InsertDesc(x, s[1..]);
      InsertDescSorted(x, s[1..]);
      forall i | 0 <= i < |rest| ensures rest[i].signal <= s[0].signal {
        assert rest[i] in multiset(rest);
        if rest[i] != x {
          assert rest[i] in multiset(s[1..]);
          var k :| 0 <= k < |s[1..]| && s[1..][k] == rest[i];
          assert s[k + 1] == rest[i];
        }
      }
      ConsSorted(s[0], rest);
    }
  }

  /** A head at least as strong as every entry of a non-increasing list
      keeps it non-increasing. */
  lemma ConsSorted(h: Factor, s: seq<Factor>)
    requires NonIncreasing(s)
    requires forall j :: 0 <= j < |s| ==> s[j].signal <= h.signal
    ensures NonIncreasing([h] + s)
  {
    var r := [h] + s;
    forall i, j | 0 <= i < j < |r| ensures r[i].signal >= r[j].signal {
      assert r[j] == s[j - 1];
      if i > 0 {
        assert r[i] == s[i - 1];
      }
    }
  }

  /** Python's `sorted(..., reverse=True)` on the signal: non-increasing, a
      permutation of its input. */
  function SortDesc(s: seq<Factor>): (r: seq<Factor>)
    ensures |r| == |s|
    ensures NonIncreasing(r)
    ensures multiset(r) == multiset(s)
  {
    if s == [] then []
    else
      assert s == [s[0]] + s[1..];
      var sortedTail := SortDesc(s[1..]);
      InsertDescSorted(s[0], sortedTail);
      InsertDesc(s[0], sortedTail)
  }

  /** Among the entries of one signal value, the inserted entry comes first
      and the others keep their order. */
  lemma {:induction false} InsertDescStable(x: Factor, s: seq<Factor>, v: real)
    ensures WithSignal(InsertDesc(x, s), v)
         == (if x.signal == v then [x] else []) + WithSignal(s, v)
  {
    var mine: seq<Factor> := if x.signal == v then [x] else [];
    if s == [] || s[0].signal <= x.signal {
      assert ([x] + s)[1..] == s;
      assert WithSignal([x] + s, v) == mine + WithSignal(s, v);
    } else {
      var rest := InsertDesc(x, s[1..]);
      var head: seq<Factor> := if s[0].signal == v then [s[0]] else [];
      assert ([s[0]] + rest)[1..] == rest;
      assert WithSignal(InsertDesc(x, s), v) == head + WithSignal(rest, v);
      InsertDescStable(x, s[1..], v);
      assert WithSignal(s, v) == head + WithSignal(s[1..], v);
      assert mine == [] || head == [];
    }
  }

  /** The sort is stable: entries with equal signals keep their relative
      order from the input. */
  lemma {:induction false} SortDescStable(s: seq<Factor>, v: real)
    ensures WithSignal(SortDesc(s), v) == WithSignal(s, v)
  {
    if s != [] {
      SortDescStable(s[1..], v);
      InsertDescStable(s[0], SortDesc(s[1..]), v);
    }
  }

  /** `r` is `s` with some entries dropped and the rest in their order. */
  ghost predicate Subsequence(r: seq<Factor>, s: seq<Factor>)
    decreases |s|
  {
    if r == [] then true
    else if s == [] then false
    else (r[0] == s[0] && Subsequence(r[1..], s[1..])) || Subsequence(r, s[1..])
  }

  /** The entries of `s` whose signal exceeds the threshold: every such
      entry and nothing else, in their order in `s`. */
  function AboveThreshold(s: seq<Factor>): (r: seq<Factor>)
    ensures forall i :: 0 <= i < |r| ==> r[i].signal > FactorThreshold
    ensures forall x :: x in r <==> x in s && x.signal > FactorThreshold
    ensures Subsequence(r, s)
    ensures |r| <= |s|
  {
    if s == [] then []
    else
      var rest := AboveThreshold(s[1..]);
      assert forall x :: x in s <==> x == s[0] || x in s[1..];
      if s[0].signal > FactorThreshold then
        assert ([s[0]] + rest)[1..] == rest;
        [s[0]] + rest
      else rest
  }

  /** `[f for f in sorted(table)[:2] if f.signal > 0.3]`: at most two entries,
      all above the threshold, a prefix of the sorted table. */
  function TopFactors(table: seq<Factor>): (r: seq<Factor>)
    ensures |r| <= 2
    ensures forall i :: 0 <= i < |r| ==> r[i].signal > FactorThreshold && r[i] in table
    ensures r <= SortDesc(table)
    ensures forall i :: 0 <= i < 2 && i < |table| ==>
              (i < |r| <==> SortDesc(table)[i].signal > FactorThreshold)
    ensures NonIncreasing(r)
  {
    var sorted := SortDesc(table);
    FirstTwoAboveThreshold(sorted);
    PrefixMembers(AboveThreshold(Take(sorted, 2)), sorted, table);
    AboveThreshold(Take(sorted, 2))
  }

  /** On a sorted list, the entries of its first two that are above the
      threshold form a non-increasing prefix of it, and the first two
      positions are kept exactly when above the threshold. */
  lemma FirstTwoAboveThreshold(sorted: seq<Factor>)
    requires NonIncreasing(sorted)
    ensures var r := AboveThreshold(Take(sorted, 2));
            && |r| <= 2
            && r <= sorted
            && (forall i :: 0 <= i < 2 && i < |sorted| ==> (i < |r| <==> sorted[i].signal > FactorThreshold))
            && NonIncreasing(r)
  {
    var t := Take(sorted, 2);
    assert |t| <= 2 && forall i | 0 <= i < |t| :: t[i] == sorted[i];
    assert NonIncreasing(t);
    ShortSortedFilter(t);
    var r := AboveThreshold(t);
    assert |r| <= |t| && forall i | 0 <= i < |r| :: r[i] == t[i];
  }

  /** A prefix of a permutation of `table` holds only entries of `table`. */
  lemma PrefixMembers(r: seq<Factor>, sorted: seq<Factor>, table: seq<Factor>)
    requires r <= sorted && multiset(sorted) == multiset(table)
    ensures forall i :: 0 <= i < |r| ==> r[i] in table
  {
    forall i | 0 <= i < |r| ensures r[i] in table {
      assert r[i] == sorted[i];
      assert sorted[i] in multiset(sorted);
    }
  }

  /** On a sorted list of at most two entries, keeping those above the
      threshold keeps a prefix. */
  lemma ShortSortedFilter(t: seq<Factor>)
    requires |t| <= 2 && NonIncreasing(t)
    ensures AboveThreshold(t) <= t
    ensures forall i :: 0 <= i < |t| ==> (i < |AboveThreshold(t)| <==> t[i].signal > FactorThreshold)
  {
    if |t| == 2 {
      assert t[1..][1..] == [];
      var tail := AboveThreshold(t[1..]);
      assert tail == [] || tail == [t[1]];
      assert t[0].signal >= t[1].signal;
    } else if |t| == 1 {
      assert t[1..] == [];
    }
  }

  /** No factor above the threshold is passed over for a weaker one: a
      table entry above the threshold that is not reported is preceded by
      two reported entries at least as strong. */
  lemma TopFactorsComplete(table: seq<Factor>, f: Factor)
    requires f in table && f.signal > FactorThreshold && f !in TopFactors(table)
    ensures |TopFactors(table)| == 2
    ensures forall i :: 0 <= i < 2 ==> TopFactors(table)[i].signal >= f.signal
  {
    var sorted := SortDesc(table);
    assert f in multiset(sorted);
    var k :| 0 <= k < |sorted| && sorted[k] == f;
    assert k >= 2;
    assert sorted[0].signal >= f.signal && sorted[1].signal >= f.signal;
  }

  function Labels(s: seq<Factor>): (r: seq<string>)
    ensures |r| == |s| && forall i :: 0 <= i < |s| ==> r[i] == s[i].name
  {
    seq(|s|, i requires 0 <= i < |s| => s[i].name)
  }

  /** The names of the top factors of a table, strongest first: at most
      two names of entries above the threshold. */
  function ReportedNames(table: seq<Factor>): (r: seq<string>)
    ensures |r| == |TopFactors(table)| <= 2
    ensures forall i :: 0 <= i < |r| ==> r[i] == TopFactors(table)[i].name
    ensures forall i :: 0 <= i < |r| ==>
              exists f :: f in table && f.name == r[i] && f.signal > FactorThreshold
  {
    var top := TopFactors(table);
    var r := Labels(top);
    assert forall i :: 0 <= i < |r| ==> top[i] in table && top[i].name == r[i];
    r
  }

  /** `_identify_factors` on the four signals: the names of the two
      strongest signals, strongest first and ties in table order, each kept
      only when above the threshold. */
  function IdentifyFactors(g: Signals): (r: seq<string>)
    ensures |r| == |TopFactors(SignalTable(g))| <= 2
    ensures forall i :: 0 <= i < |r| ==> r[i] == TopFactors(SignalTable(g))[i].name
  {
    ReportedNames(SignalTable(g))
  }

  // ---------------------------------------------------------------------
  // The analyzer's result
  // ---------------------------------------------------------------------

  datatype Assessment = Assessment(
    degradationScore: real,
    severity: Severity,
    confidence: real,
    primaryFactors: seq<string>,
    indicators: Indicators)

  /** The reported indicators of four signals: vegetation health and
      moisture level are the complements of their signals, soil exposure and
      erosion risk the signals themselves, all on a 0-100 scale. */
  function IndicatorsOf(g: Signals): Indicators {
    Indicators((1.0 - g.ndvi) * 100.0, (1.0 - g.ndmi) * 100.0, g.bareSoil * 100.0, g.erosion * 100.0)
  }

  /** The result built from the four signals: the severity is the bucket
      of the unrounded composite score, and the reported indicators carry the
      same information as the signals, so the score can be recomputed from
      them. Signals in [0, 1] put everything on the 0-100 scale. */
  function Assess(g: Signals): (a: Assessment)
    ensures a.degradationScore == CompositeScore(g)
    ensures a.severity == ClassifySeverity(a.degradationScore)
    ensures a.confidence == 0.85
    ensures a.primaryFactors == IdentifyFactors(g)
    ensures a.indicators == IndicatorsOf(g)
    ensures a.degradationScore == ScoreFromIndicators(a.indicators)
    ensures AllInUnitRange(g) ==> Percentage(a.degradationScore) && AllPercentages(a.indicators)
  {
    var score := CompositeScore(g);
    var ind := IndicatorsOf(g);
    IndicatorsRecoverScore(g, ind);
    Assessment(score, ClassifySeverity(score), 0.85, IdentifyFactors(g), ind)
  }

  /** The reported indicators determine the composite score, and unit
      signals give indicators on the 0-100 scale. */
  lemma IndicatorsRecoverScore(g: Signals, ind: Indicators)
    requires ind == IndicatorsOf(g)
    ensures ScoreFromIndicators(ind) == CompositeScore(g)
    ensures AllInUnitRange(g) ==> Percentage(CompositeScore(g)) && AllPercentages(ind)
  {
  }

  /** `calculate_score`: missing indices take their defaults; vegetation
      health, moisture level and soil exposure never exceed 100, and in the
      unit-signal domain the score and all four indicators lie in [0, 100]. */
  function CalculateScore(indicators: map<string, real>): (a: Assessment)
    ensures a.severity == ClassifySeverity(a.degradationScore)
    ensures a.degradationScore == ScoreFromIndicators(a.indicators)
    ensures a.degradationScore == CompositeScore(SignalsOf(indicators))
    ensures a.indicators == IndicatorsOf(SignalsOf(indicators))
    ensures a.confidence == 0.85 && a.primaryFactors == IdentifyFactors(SignalsOf(indicators))
    ensures a.indicators.vegetationHealth <= 100.0 && a.indicators.moistureLevel <= 100.0
    ensures a.indicators.soilExposure <= 100.0
    ensures IndicesGiveUnitSignals(indicators) ==>
              Percentage(a.degradationScore) && AllPercentages(a.indicators)
  {
    var g := SignalsOf(indicators);
    Assess(g)
  }

  /** Outside the unit-signal domain the scale is not kept: NDVI and NDMI
      of -1, with no bare soil and no erosion risk, score 167.5, and the
      vegetation health and moisture level read negative. */
  lemma NegativeIndicesLeaveTheScale(indicators: map<string, real>)
    requires Lookup(indicators, "ndvi", DefaultNdvi) == -1.0
    requires Lookup(indicators, "ndmi", DefaultNdmi) == -1.0
    requires Lookup(indicators, "bare_soil_index", DefaultBareSoilIndex) == 0.0
    requires Lookup(indicators, "erosion_risk", DefaultErosionRisk) == 0.0
    ensures CalculateScore(indicators).degradationScore == 167.5
    ensures CalculateScore(indicators).indicators.vegetationHealth < 0.0
    ensures CalculateScore(indicators).indicators.moistureLevel < 0.0
  {
    assert SignalsOf(indicators) == Signals(1.6 / 0.6, 3.5, 0.0, 0.0);
  }

  /** A missing key behaves exactly as if it held its default. */
  lemma MissingKeysActAsDefaults(indicators: map<string, real>)
    ensures CalculateScore(indicators) == CalculateScore(WithDefaults(indicators))
  {
    var d := WithDefaults(indicators);
    assert Lookup(d, "ndvi", DefaultNdvi) == Lookup(indicators, "ndvi", DefaultNdvi);
    assert Lookup(d, "ndmi", DefaultNdmi) == Lookup(indicators, "ndmi", DefaultNdmi);
    assert Lookup(d, "bare_soil_index", DefaultBareSoilIndex)
        == Lookup(indicators, "bare_soil_index", DefaultBareSoilIndex);
    assert Lookup(d, "erosion_risk", DefaultErosionRisk)
        == Lookup(indicators, "erosion_risk", DefaultErosionRisk);
    assert SignalsOf(d) == SignalsOf(indicators);
  }

  /** With no indices at all the defaults give signals 1/6, 0.25, 0.4 and
      0.3, a score of 27.25, and so "At Risk". */
  lemma EmptyIndicators()
    ensures CalculateScore(map[]).degradationScore == 27.25
    ensures CalculateScore(map[]).severity == AtRisk
  {
    assert SignalsOf(map[]) == Signals(1.0 / 6.0, 0.25, 0.4, 0.3);
  }

  /** The composite score grows with each signal. */
  lemma CompositeMonotone(g: Signals, h: Signals)
    requires g.ndvi <= h.ndvi && g.ndmi <= h.ndmi && g.bareSoil <= h.bareSoil && g.erosion <= h.erosion
    ensures CompositeScore(g) <= CompositeScore(h)
  {
  }

  /** Healthier indices (higher NDVI and NDMI, lower bare-soil index and
      erosion risk) never give a higher score or a worse severity. */
  lemma ScoreMonotone(better: map<string, real>, worse: map<string, real>)
    requires Lookup(better, "ndvi", DefaultNdvi) >= Lookup(worse, "ndvi", DefaultNdvi)
    requires Lookup(better, "ndmi", DefaultNdmi) >= Lookup(worse, "ndmi", DefaultNdmi)
    requires Lookup(better, "bare_soil_index", DefaultBareSoilIndex)
          <= Lookup(worse, "bare_soil_index", DefaultBareSoilIndex)
    requires Lookup(better, "erosion_risk", DefaultErosionRisk)
          <= Lookup(worse, "erosion_risk", DefaultErosionRisk)
    ensures CalculateScore(better).degradationScore <= CalculateScore(worse).degradationScore
    ensures Rank(CalculateScore(better).severity) <= Rank(CalculateScore(worse).severity)
  {
    var g, h := SignalsOf(better), SignalsOf(worse);
    CompositeMonotone(g, h);
    assert CalculateScore(better).degradationScore == CompositeScore(g);
    assert CalculateScore(worse).degradationScore == CompositeScore(h);
    ClassifySeverityMonotone(CompositeScore(g), CompositeScore(h));
  }
}
