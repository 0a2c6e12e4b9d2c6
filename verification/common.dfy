/** Shared vocabulary: optional values, the outcome of an awaited call,
    dictionary lookups with a default, list slicing, and the JSON shapes that
    travel between the backend services and the frontend pages. */
module Common {

  datatype Option<+T> = None | Some(value: T) {
    function GetOr(default: T): T {
      match this
      case Some(v) => v
      case None => default
    }
  }

  /** JavaScript truthiness of a nullable string: present and not empty. */
  predicate Truthy(s: Option<string>) {
    s.Some? && s.value != ""
  }

  /** What an awaited call settles to: a value, or a thrown error. */
  datatype Outcome<+T> = Success(value: T) | Failure

  /** Python's `d.get(key, default)` on a dictionary of numbers. */
  function Lookup(d: map<string, real>, key: string, default: real): real {
    if key in d then d[key] else default
  }

  function Min(a: int, b: int): int { if a <= b then a else b }

  /** `s[:n]` in Python, `s.slice(0, n)` in JavaScript. */
  function Take<T>(s: seq<T>, n: nat): (r: seq<T>)
    ensures |r| == Min(|s|, n)
    ensures r <= s
  {
    s[..Min(|s|, n)]
  }

  /** A polygon ring as the map hands it over: a list of [lng, lat] pairs. */
  type Polygon = seq<seq<real>>

  /** The `indicators` object of an analysis, each on a 0-100 scale. */
  datatype Indicators = Indicators(
    vegetationHealth: real,
    moistureLevel: real,
    soilExposure: real,
    erosionRisk: real)

  /** The analysis result as the frontend receives it. `recommendations` is
      absent from some backend responses. */
  datatype AnalysisResult = AnalysisResult(
    degradationScore: real,
    severity: string,
    indicators: Indicators,
    recommendations: Option<seq<string>>,
    primaryFactors: seq<string>,
    confidence: real,
    date: string,
    locationName: string)

  datatype TimeSeriesPoint = TimeSeriesPoint(date: string, ndvi: real)
}
