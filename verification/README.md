# SoilSense AI — a Dafny model of the scoring rules and the analysis pages

SoilSense AI lets a user draw a polygon on a map. It then reports how degraded
the soil inside that polygon is. The backend has three services:

- The degradation analyzer turns four satellite indices (NDVI, NDMI, the
  bare-soil index and an erosion risk) into clamped degradation signals. It
  weights them into a 0–100 score, buckets the score into four severity labels
  and names the strongest contributing factors.
- The prediction service adds up rule-based risk points and caps them at 100.
  It classifies the result, projects a six-month forecast and lists at most
  three risk drivers.
- The recommendation service shapes a language-model reply. When the model
  call fails, it falls back to a fixed advice table.

The frontend has three parts:

- A dashboard that colours the score and the severity badge, draws a radar of
  the indicators and shows recommendation panels.
- Two variants of the home page (app router and pages router). Each holds a
  small state record that its handlers update around the backend calls.

The project has eight files:

| file | module | what it holds |
|---|---|---|
| `common.dfy` | `Common` | Shared vocabulary: `Option`, the `Outcome` of an awaited call, dictionary lookups with a default, slicing, and the JSON shapes the frontend receives. |
| `degradation.dfy` | `DegradationService` | `calculate_score` and its helpers, as pure functions. |
| `prediction.dfy` | `PredictionService` | The risk score, the forecast and the drivers. These are methods with the source's `+=` chain, loop and appends. Each is proved equal to a specification function. |
| `ai_service.dfy` | `AiService` | Fallback advice, reply shaping, prompt defaults and the error branch. |
| `dashboard.dfy` | `Dashboard` | Colours, radar data, panel visibility and truncation. |
| `app_page.dfy` | `AppPage` | The app-router page: a class `Home` with the page's state fields. Its handler is a method that takes the settled outcomes of its backend calls. |
| `index_page.dfy` | `IndexPage` | The pages-router page, with the same state plus the API status. |
| `consistency.dfy` | `Consistency` | Lemmas across the backend–frontend boundary. |

Dictionaries are `map<string, real>`, so a missing key is a real possibility
in the model. A Python subscript on a missing key is modelled as a `KeyError`
result.

## Model

| member | source | states |
|---|---|---|
| DegradationService.ParseSeverity | backend/services/degradation_service.py:59-67 | Reads a label back to its severity, and only the four labels the classifier emits. |
| DegradationService.ClassifySeverity | backend/services/degradation_service.py:59-67 | Healthy iff score < 25, At Risk iff 25 ≤ score < 50, Degraded iff 50 ≤ score < 75, Severely Degraded iff score ≥ 75. The four buckets partition the reals. |
| DegradationService.ClassifySeverityMonotone | backend/services/degradation_service.py:59-67 | A higher score never gives a healthier severity. |
| DegradationService.NdviSignal | backend/services/degradation_service.py:21 | The NDVI signal is never negative. It is at most 1 for NDVI ≥ 0, and it is 0 exactly when NDVI ≥ 0.6. |
| DegradationService.NdmiSignal | backend/services/degradation_service.py:22 | The NDMI signal is never negative. It is at most 1 for NDMI ≥ 0, and it is 0 exactly when NDMI ≥ 0.4. |
| DegradationService.BareSoilSignal | backend/services/degradation_service.py:23 | The bare-soil signal never exceeds 1. It is non-negative for a non-negative index, and it is 1 exactly from index 0.5 upward. |
| DegradationService.SignalsOf | backend/services/degradation_service.py:15-24 | For each of the four keys, the signal is computed from the given value when the key is present and from its default (0.5, 0.3, 0.2, 0.3) when it is missing. With non-negative NDVI, NDMI and bare-soil index and an erosion risk in [0, 1] (`IndicesGiveUnitSignals`), all four signals lie in [0, 1]. |
| DegradationService.CompositeScore | backend/services/degradation_service.py:27-39 | The weights sum to 1: equal signals s give exactly 100·s, and signals in [0, 1] give a score in [0, 100]. |
| DegradationService.CompositeMonotone | backend/services/degradation_service.py:34-39 | The score grows with each signal. |
| DegradationService.InsertDesc | backend/services/degradation_service.py:78 | Inserting adds exactly that element (as a multiset) and lengthens the list by one. |
| DegradationService.InsertDescSorted | backend/services/degradation_service.py:78 | Inserting into a non-increasing list keeps it non-increasing. |
| DegradationService.ConsSorted | backend/services/degradation_service.py:78 | A head at least as strong as every entry of a non-increasing list keeps it non-increasing. |
| DegradationService.SortDesc | backend/services/degradation_service.py:78 | `sorted(..., reverse=True)`: non-increasing in signal, and a permutation of its input. |
| DegradationService.InsertDescStable | backend/services/degradation_service.py:78 | Among the entries of one signal value, the inserted entry comes first and the others keep their order. |
| DegradationService.SortDescStable | backend/services/degradation_service.py:78 | The sort is stable: entries with equal signals keep the signal table's insertion order. |
| DegradationService.AboveThreshold | backend/services/degradation_service.py:79 | An entry is kept iff it is in the input and its signal is above 0.3. The kept entries keep their order from the input (`Subsequence`). |
| DegradationService.TopFactors | backend/services/degradation_service.py:78-79 | At most two factors, each above 0.3 and from the table. They are a prefix of the sorted table, non-increasing, and each of the first two sorted entries is kept iff its signal is above 0.3. |
| DegradationService.FirstTwoAboveThreshold | backend/services/degradation_service.py:79 | On a sorted list, the kept entries among its first two form a non-increasing prefix of at most two, and position i < 2 is kept iff its signal is above 0.3. |
| DegradationService.PrefixMembers | backend/services/degradation_service.py:78-79 | A prefix of a permutation of the table holds only entries of the table. |
| DegradationService.ShortSortedFilter | backend/services/degradation_service.py:79 | Filtering a sorted list of at most two entries keeps a prefix: position i survives iff its signal is above 0.3. |
| DegradationService.TopFactorsComplete | backend/services/degradation_service.py:78-79 | A factor above 0.3 is left out only when two reported factors are at least as strong. |
| DegradationService.Labels | backend/services/degradation_service.py:79 | The comprehension keeps each factor's name, in order. |
| DegradationService.ReportedNames | backend/services/degradation_service.py:69-79 | The names are those of the top factors, one for one and in the same order (strongest first). There are at most two, and each names a table entry whose signal is above 0.3. |
| DegradationService.IdentifyFactors | backend/services/degradation_service.py:69-79 | The factors reported for four signals are the names of `TopFactors` of the four-entry signal table, in order: at most two, strongest first, ties in table order, each above 0.3. |
| DegradationService.Assess | backend/services/degradation_service.py:34-57 | The score is the composite of the signals, the severity is the class of that unrounded score, and the confidence is 0.85. The primary factors are `IdentifyFactors` of the same signals, and the indicators are `IndicatorsOf` the signals — (1−ndvi)·100, (1−ndmi)·100, bsi·100 and erosion·100 — from which the score can be recomputed. Unit signals give percentages. |
| DegradationService.IndicatorsRecoverScore | backend/services/degradation_service.py:34-55 | The weighted score recomputed from the four reported indicators equals the composite score, and unit signals give indicators in [0, 100]. |
| DegradationService.CalculateScore | backend/services/degradation_service.py:6-57 | The score is the composite of the signals read from the dictionary (each key or its default), and the four indicators are `IndicatorsOf` those signals: (1−ndvi signal)·100, (1−ndmi signal)·100, bare-soil signal·100 and erosion signal·100. The confidence is 0.85, and the primary factors are `IdentifyFactors` of the same signals. Vegetation health, moisture level and soil exposure never exceed 100. With non-negative NDVI, NDMI and bare-soil index and an erosion risk in [0, 1], the score and all four indicators lie in [0, 100]. The severity is the class of the score. |
| DegradationService.MissingKeysActAsDefaults | backend/services/degradation_service.py:15-18 | A missing key behaves exactly as ndvi 0.5, ndmi 0.3, bare_soil_index 0.2 and erosion_risk 0.3. |
| DegradationService.EmptyIndicators | backend/services/degradation_service.py:15-41 | An empty dictionary scores 27.25 and is At Risk. |
| DegradationService.NegativeIndicesLeaveTheScale | backend/services/degradation_service.py:15-55 | NDVI and NDMI of -1 with zero bare-soil index and erosion risk score 167.5, and vegetation health and moisture level come out negative. |
| DegradationService.ScoreMonotone | backend/services/degradation_service.py:15-41 | Healthier indices never give a higher score or a worse severity. |
| PredictionService.ClassifyRisk | backend/services/prediction_service.py:117-126 | Low below 25, Medium below 50, High below 75, Critical otherwise (each an iff), and never Unknown. |
| PredictionService.Trend | backend/services/prediction_service.py:73-83 | Fewer than two values give a flat trend. |
| PredictionService.ExtractFeatures | backend/services/prediction_service.py:51-71 | Empty history returns the current indicators unchanged. Otherwise every key the risk rules read is present, and a single reading gives trend 0. |
| PredictionService.ReadFeatures | backend/services/prediction_service.py:85-113 | The six subscripts succeed iff every key is present. Otherwise the error names the first missing key in evaluation order. |
| PredictionService.NdviPoints | backend/services/prediction_service.py:91-94 | The NDVI rule adds exactly one of 30 (ndvi < 0.3), 15 (0.3 ≤ ndvi < 0.5) or 0. |
| PredictionService.RiskScore | backend/services/prediction_service.py:85-115 | The score never exceeds 100 and is ≥ 0 when erosion risk is ≥ 0. With no threshold rule firing and erosion in [0, 1], it stays below 50. |
| PredictionService.CalculateRiskScore | backend/services/prediction_service.py:85-115 | The accumulating `+=` chain and the cap compute exactly the capped sum of the rule points. |
| PredictionService.ProjectedScore | backend/services/prediction_service.py:138-139 | The projection never exceeds 100. It is at least the base for a non-negative risk score and a base ≤ 100. |
| PredictionService.ForecastConfidence | backend/services/prediction_service.py:145 | The forecast confidence lies in [0.5, 0.9]. |
| PredictionService.ProjectedScoreMonotone | backend/services/prediction_service.py:138-139 | With a non-negative risk score, a later month never projects lower. |
| PredictionService.ForecastConfidenceDecreasing | backend/services/prediction_service.py:145 | Confidence falls strictly over months 1..6. |
| PredictionService.GenerateForecast | backend/services/prediction_service.py:128-148 | The loop builds exactly one entry per month 1..6. Each has the projection and confidence for its month, and the base is degradation_score (default 50). |
| PredictionService.ForecastShape | backend/services/prediction_service.py:134-146 | Months 1..6 ascend and projections are ≤ 100. Confidence falls strictly from 0.85 to 0.6 and never goes below 0.5. Projections are non-decreasing for a non-negative risk score. |
| PredictionService.FiringChecks | backend/services/prediction_service.py:154-167 | The indices of checks that fire, strictly increasing, so in check order. |
| PredictionService.FiringChecksComplete | backend/services/prediction_service.py:154-167 | Every check that fires is among them. |
| PredictionService.DriversUpTo | backend/services/prediction_service.py:152-167 | The appended labels are those of the firing checks, in check order. |
| PredictionService.IdentifyDrivers | backend/services/prediction_service.py:150-169 | The appends and the slice give the first three labels of the firing checks. |
| PredictionService.KeyDriversShape | backend/services/prediction_service.py:169 | At most three drivers, in the order declining → moisture → soil → erosion → volatility. Every firing check is reported when at most three fire. |
| PredictionService.PredictFromFeatures | backend/services/prediction_service.py:24-49 | A missing feature gives the error report: Unknown, score 0, and the message naming the key. Otherwise the level is the class of the score, confidence is 0.78, the forecast is built from the same score and the drivers come from the same features. |
| PredictionService.PredictDegradationRisk | backend/services/prediction_service.py:14-49 | The report follows from the extracted features. A missing feature key gives the Unknown report with score 0 and the quoted key in the message. Otherwise the score is `RiskScore` of the features, the level is its class, the confidence is 0.78, the forecast is `IsForecast` from that score, and the drivers are the first three firing rules. With history there is always a prediction, and empty history without `current_ndvi` fails. |
| PredictionService.EmptyHistoryRaisesKeyError | backend/services/prediction_service.py:53-54 | Empty history plus indicators keyed as the analyzer keys them fail on `current_ndvi`. |
| PredictionService.ExtractFeaturesIntended | backend/services/prediction_service.py:51-71 | The features can always be read. It agrees with the original whenever there is history, and with none it gives trend and volatility 0. |
| PredictionService.PredictDegradationRiskIntended | backend/services/prediction_service.py:14-49 | With the intended extraction, every request gets a classified report, never Unknown. |
| AiService.FallbackFor | backend/services/ai_service.py:101-126 | Each severity's advice list has four items. |
| AiService.FallbackListsDistinct | backend/services/ai_service.py:101-126 | The four severities have four different advice lists. |
| AiService.FallbackRecommendations | backend/services/ai_service.py:96-132 | A known label gets its own list, and a missing or unknown label gets the At Risk list. factors_addressed is primary_factors (default []), and the note is fixed. |
| AiService.UnknownActsAsMissing | backend/services/ai_service.py:96-132 | For any analysis, a missing severity and the literal label "Unknown" get the same fallback, and that fallback is the At Risk advice. |
| AiService.ParseRecommendations | backend/services/ai_service.py:86-94 | The reply text is copied verbatim. Severity defaults to "Unknown", primary_focus to [] and generated_at to None, and confidence is 0.85. |
| AiService.BuildPromptInputs | backend/services/ai_service.py:55-73 | The prompt reads severity "Unknown", score 0, factors [] and each indicator 0 when absent, and present values as given. |
| AiService.ResponseText | backend/services/ai_service.py:38-45 | The reply text is "" for no blocks, otherwise the first block's text or its string form. |
| AiService.GenerateRecommendations | backend/services/ai_service.py:14-53 | A failed call, and only a failed call, gives the error message plus the fallback for the same data. A reply is shaped from its first block. |
| Dashboard.TextClassInjective | frontend/components/Dashboard.tsx:66-86 | Different tones never share a text class. |
| Dashboard.ScoreTone | frontend/components/Dashboard.tsx:81-86 | Green iff score < 25, yellow iff 25 ≤ score < 50, orange iff 50 ≤ score < 75, red iff score ≥ 75. |
| Dashboard.ScoreColor | frontend/components/Dashboard.tsx:81-86 | The score class is the text class of its tone, and never gray. |
| Dashboard.SeverityTone | frontend/components/Dashboard.tsx:66-79 | The four labels map to green, yellow, orange and red. Any other string maps to gray, and only those strings do. |
| Dashboard.SeverityTonesDistinct | frontend/components/Dashboard.tsx:66-79 | The four recognised labels get four different tones. |
| Dashboard.SeverityColor | frontend/components/Dashboard.tsx:66-79 | The badge gets the text and background class of its tone. The gray default appears exactly for unrecognised labels. |
| Dashboard.BadgeClassGrayOnlyForGray | frontend/components/Dashboard.tsx:77-78 | Only the gray tone produces the default badge classes. |
| Dashboard.RadarData | frontend/components/Dashboard.tsx:43-64 | Four points in fixed order, each out of 100. Vegetation and Moisture are passed through; Soil Cover is 100 − exposure and Stability is 100 − erosion risk. |
| Dashboard.RadarInRange | frontend/components/Dashboard.tsx:43-64 | Indicators lie in [0, 100] iff every radar value lies in [0, fullMark]. |
| Dashboard.KeyRecommendations | frontend/components/Dashboard.tsx:147-156 | The panel shows iff recommendations exist and are non-empty. It holds the first min(n, 3) of them, in order. |
| Dashboard.AiRecommendations | frontend/components/Dashboard.tsx:216-224 | The panel shows iff recommendations exist and are non-empty, and it holds all of them. |
| Dashboard.RecommendationPanelsAgree | frontend/components/Dashboard.tsx:147-224 | Both panels appear together. The key panel is a prefix of the AI panel and equals it for at most three items. |
| Dashboard.NdviChart | frontend/components/Dashboard.tsx:191 | The NDVI chart shows iff a non-empty series is given, and it shows that series. |
| Dashboard.Render | frontend/components/Dashboard.tsx:93-231 | The dashboard combines the score colour, the badge, the radar and both panels. The chart is the whole series exactly when the series is non-empty. The date is the analysis date, and the confidence is shown as a percentage. |
| Consistency.ScoreColourMatchesBadge | frontend/components/Dashboard.tsx:81-86 | For every score, the score colour equals the badge colour of the analyzer's severity for that score, and the score class is the head of the badge classes. |
| Consistency.BadgeRecognisesBackendLabels | frontend/components/Dashboard.tsx:66-79 | A string gets a coloured badge exactly when it is one of the analyzer's four labels. |
| Consistency.EveryAssessmentHasABadge | backend/services/degradation_service.py:41 | No severity the analyzer returns is shown with the gray default. |
| Consistency.AssessmentGetsItsOwnAdvice | backend/services/ai_service.py:129-130 | An analysis's fallback advice is the list for its own severity, with its own factors. |
| Consistency.AnalysisRadarInRange | frontend/components/Dashboard.tsx:43-64 | With non-negative NDVI, NDMI and bare-soil index and an erosion risk in [0, 1], every radar point of the analysis lies within the chart's 0–100 domain. |
| Consistency.ScoreIsRadarComplement | backend/services/degradation_service.py:52-55 | Every radar axis is a health reading. The score is 100 minus their weighted mean under the composite's weights. |
| AppPage.Home.constructor | frontend/app/page.tsx:27-33 | The page starts with no area, no result, an empty series, no loading and no error, so only the instructions show. |
| AppPage.Home.View | frontend/app/page.tsx:89-137 | The loading overlay shows iff loading. The instructions show iff there is no area and no loading, and the error banner iff the message is non-empty. The dashboard (with the series) shows iff there is a result. |
| AppPage.Home.HandleAreaSelect | frontend/app/page.tsx:35-65 | Sets the area, loading and a cleared error before any call, and requests the bare polygon as "Selected Area". The series is requested only after the analysis succeeds. Any failure sets the fixed message and keeps the last written result and series. Loading always ends. (Listed in full after this table.) |
| AppPage.Home.Dismiss | frontend/app/page.tsx:122-124 | Dismiss clears the error and changes nothing else on screen. |
| IndexPage.StatusBadgeClass | frontend/pages/index.tsx:78-84 | The badge is green when connected, red when disconnected and yellow while checking. |
| IndexPage.Home.constructor | frontend/pages/index.tsx:8-14 | The page starts with nothing selected and the status "checking", showing the placeholder and no Reset button. |
| IndexPage.Home.View | frontend/pages/index.tsx:111-175 | The Reset button shows iff there is a result. The placeholder shows iff there is no result, no error and no loading, and the error box iff the message is non-empty. The dashboard gets no series, so it never draws the NDVI chart. |
| IndexPage.Home.SettleHealthCheck | frontend/pages/index.tsx:16-22 | The one mount-time health check moves the status from checking to connected or disconnected by its outcome, and nothing else changes. |
| IndexPage.Home.HandleAreaSelect | frontend/pages/index.tsx:24-41 | Sets the area, loading and a cleared error first, and requests `[polygon]`. Success sets the result; failure sets the fixed message and keeps the previous result. Loading always ends and the status is untouched. |
| IndexPage.Home.HandleReset | frontend/pages/index.tsx:43-47 | Reset clears the area, the result and the error, and leaves loading and the status alone. Afterwards the placeholder shows iff not loading. |

`AppPage.Home.HandleAreaSelect` guarantees the following:

- The area is set, loading is on and the error is cleared before any call.
- The request carries the bare polygon, with the location name "Selected Area".
- The series is requested only after the analysis succeeds.
- If either call fails, the error is the fixed message. The result keeps its
  last written value and the series stays unchanged.
- Loading is always off at the end.
- If only the series fails, the new result shows with the old series, under
  the error banner.

`IndexPage.Home.HandleAreaSelect` guarantees the following:

- The area is set, loading is on and the error is cleared first.
- The request wraps the polygon as `[polygon]`.
- On success the result is set. On failure the error is the fixed message and
  the previous result is kept.
- Loading is off at the end and the status is untouched.

## Left out

- Rounding: `round(..., n)` in both services and `toFixed` on the dashboard are
  not modelled. Scores and indicators are `real`s.
  - The severity and the risk level are computed on the unrounded values, as
    in the source.
  - The dashboard colours the score after it was rounded to two places. Within
    0.005 below a cut-point the score colour can therefore be one bucket
    higher than the badge (a score of 24.996 is reported as 25.0).
  - `Consistency.ScoreColourMatchesBadge` is stated for the unrounded score.
- Floating point: decimal constants such as 0.9 − 0.05·month are exact in the
  model.
- DegradationService.CalculateScore: the [0, 100] bounds are stated only for
  non-negative NDVI, NDMI and bare-soil index and an erosion risk in [0, 1]
  (`IndicesGiveUnitSignals`), narrower than the indices' physical range of
  [-1, 1]. A negative NDVI or NDMI gives a signal above 1, which puts
  vegetation health or moisture level below 0 and can push the score above
  100 (`DegradationService.NegativeIndicesLeaveTheScale`: NDVI and NDMI of -1 with a zero bare-soil index and erosion risk score 167.5), as
  in the source.
- PredictionService.Trend: the least-squares slope of `np.polyfit` and the
  standard deviation of `np.std` are parameters (`slope`, `spread`). Only the
  fewer-than-two-values rule is modelled.
- PredictionService.PredictFromFeatures: only a missing feature key is
  modelled as an exception. Other exceptions are not modelled (a non-numeric
  value, for instance).
- Dates and clocks: `prediction_date`, the forecast dates and the six-month
  window the app page computes are not modelled.
- The language-model client, its model name and its parameters, and the
  environment-variable check in the constructor. The call is an abstract
  `ModelReply`.
- AiService.BuildPromptInputs: the prompt's text is not modelled, because
  Python's formatting of numbers and the fixed wording are not part of any
  rule. Only the values the prompt reads, with their defaults, are modelled.
- The network and the APIs: the fetch wrapper, the FastAPI routes that join
  the services into one response, the database and the Earth Engine calls.
  Every backend call from a page is an abstract `Outcome`.
- The app page calls `getTimeSeries` with three arguments, while the API
  client's method takes one request object. That call is therefore an
  abstract outcome.
- The map component: drawing the polygon and taking the first feature's outer
  ring. A `Polygon` is whatever the map hands over, with no geometry checks.
- Rendering: JSX markup, the charts themselves and styling beyond the colour
  functions. A panel is modelled as the data it would show.
- Concurrency: the pages do not guard against a second selection while one
  is loading. One handler run is modelled as a single sequential method, and
  the views it returns stand for the renders at each `await`.

## Findings

| source | as written | input that shows it | evidently intended | confidence | as-written member | corrected member |
|---|---|---|---|---|---|---|
| backend/services/prediction_service.py:53-54 | With no history, `_extract_features` returns the current indicators. Their keys are `ndvi`, `ndmi`, `bare_soil_index` and `erosion_risk`, not the feature keys, so `_calculate_risk_score` raises `KeyError('current_ndvi')` and the report is always Unknown with score 0. | `historical_data = []`, `current_indicators = {ndvi: 0.4, ndmi: 0.3, bare_soil_index: 0.2, erosion_risk: 0.3}` | Features built from the current indicators, with a flat trend and no volatility, so that a first analysis gets a risk level | medium, not executed | PredictionService.EmptyHistoryRaisesKeyError | PredictionService.ExtractFeaturesIntended |
