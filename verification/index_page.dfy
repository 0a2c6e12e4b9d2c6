/** The pages-router home page: a map, a results panel with a Reset
    button, and an API status badge fed by a health check made when the
    page mounts. */
module IndexPage {
  import opened Common
  import Dashboard

  const AnalyzeFailedMessage: string :=
    "Failed to analyze area. Please check your backend connection."

  /** The health of the backend as the badge shows it. */
  datatype ApiStatus = Checking | Connected | Disconnected

  function StatusText(s: ApiStatus): string {
    match s
    case Checking => "checking"
    case Connected => "connected"
    case Disconnected => "disconnected"
  }

  /** The badge's classes: green once connected, red once disconnected,
      yellow for any other status. */
  function StatusBadgeClass(s: ApiStatus): (c: string)
    ensures s == Connected ==> c == "bg-green-100 text-green-800"
    ensures s == Disconnected ==> c == "bg-red-100 text-red-800"
    ensures s == Checking ==> c == "bg-yellow-100 text-yellow-800"
  {
    match s
    case Connected => "bg-green-100 text-green-800"
    case Disconnected => "bg-red-100 text-red-800"
    case Checking => "bg-yellow-100 text-yellow-800"
  }

  /** The body of the analyze call; this page wraps the ring in one more
      list level. */
  datatype AnalyzeRequest = AnalyzeRequest(polygon: seq<Polygon>, locationName: string)

  /** What the page shows for a given state. */
  datatype HomeView = HomeView(
    statusText: string,
    statusClass: string,
    loadingOverlay: bool,
    resetButton: bool,
    errorBox: Option<string>,
    placeholder: bool,
    dashboard: Option<Dashboard.DashboardView>)

  class Home {
    var selectedArea: Option<Polygon>
    var analysisResult: Option<AnalysisResult>
    var loading: bool
    var error: Option<string>
    var apiStatus: ApiStatus

    /** The page as first rendered: nothing selected, health unknown. */
    constructor()
      ensures selectedArea == None && analysisResult == None
      ensures !loading && error == None && apiStatus == Checking
      ensures View().placeholder && !View().resetButton && View().dashboard.None?
    {
      selectedArea := None;
      analysisResult := None;
      loading := false;
      error := None;
      apiStatus := Checking;
    }

    /** The page's conditional parts. The dashboard gets no series, so its
        NDVI chart never shows here. */
    function View(): (v: HomeView)
      reads this
      ensures v.statusText == StatusText(apiStatus)
      ensures v.loadingOverlay <==> loading
      ensures v.resetButton <==> analysisResult.Some?
      ensures v.errorBox.Some? <==> Truthy(error)
      ensures v.errorBox.Some? ==> v.errorBox == error
      ensures v.placeholder <==> analysisResult.None? && !Truthy(error) && !loading
      ensures v.dashboard.Some? <==> analysisResult.Some?
      ensures v.dashboard.Some? ==>
                v.dashboard.value == Dashboard.Render(analysisResult.value, None)
                && v.dashboard.value.ndviChart.None?
    {
      HomeView(
        StatusText(apiStatus),
        StatusBadgeClass(apiStatus),
        loading,
        analysisResult.Some?,
        if Truthy(error) then error else None,
        analysisResult.None? && !Truthy(error) && !loading,
        if analysisResult.Some? then Some(Dashboard.Render(analysisResult.value, None)) else None)
    }

    /** The mount-time health check settling: it runs once, while the
        status is still "checking", and moves it to connected if the check
        answered or to disconnected if it failed; nothing else changes. */
    method SettleHealthCheck(answered: Outcome<()>)
      requires apiStatus == Checking
      modifies this
      ensures apiStatus == (if answered.Success? then Connected else Disconnected)
      ensures selectedArea == old(selectedArea) && analysisResult == old(analysisResult)
      ensures loading == old(loading) && error == old(error)
    {
      match answered {
        case Success(_) => apiStatus := Connected;
        case Failure => apiStatus := Disconnected;
      }
    }

    /** `handleAreaSelect`: records the area, starts loading and clears the
        error; asks for the analysis of `[polygon]`; on success shows the
        result, on failure sets the fixed message and keeps the previous
        result; loading always ends. `awaited` is the view during the
        call. */
    method HandleAreaSelect(polygon: Polygon, analyze: Outcome<AnalysisResult>)
      returns (request: AnalyzeRequest, awaited: HomeView)
      modifies this
      ensures request == AnalyzeRequest([polygon], "Selected Area")
      ensures awaited.loadingOverlay && awaited.errorBox.None? && !awaited.placeholder
      ensures awaited.resetButton <==> old(analysisResult).Some?
      ensures selectedArea == Some(polygon)
      ensures analysisResult == (if analyze.Success? then Some(analyze.value) else old(analysisResult))
      ensures error == (if analyze.Success? then None else Some(AnalyzeFailedMessage))
      ensures !loading
      ensures apiStatus == old(apiStatus)
      ensures !View().placeholder
    {
      selectedArea := Some(polygon);
      loading := true;
      error := None;
      request := AnalyzeRequest([polygon], "Selected Area");
      awaited := View();
      match analyze {
        case Success(result) =>
          analysisResult := Some(result);
        case Failure =>
          error := Some(AnalyzeFailedMessage);
      }
      loading := false;
    }

    /** `handleReset`: forgets the area, the result and the error; a
        running analysis keeps loading and the badge is untouched. */
    method HandleReset()
      modifies this
      ensures selectedArea == None && analysisResult == None && error == None
      ensures loading == old(loading) && apiStatus == old(apiStatus)
      ensures !View().resetButton && View().dashboard.None? && View().errorBox.None?
      ensures View().placeholder <==> !loading
    {
      selectedArea := None;
      analysisResult := None;
      error := None;
    }
  }
}
