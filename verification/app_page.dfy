/** The app-router home page: a map, overlays and a dashboard driven by
    five pieces of component state. One run of the area-selection handler is
    a method that takes the settled outcomes of its two backend calls; the
    views it returns are what the page shows while each call is awaited. */
module AppPage {
  import opened Common
  import Dashboard

  const AnalyzeFailedMessage: string :=
    "Failed to analyze area. Please check your backend connection."

  const SelectedAreaName: string := "Selected Area"

  /** The body of the analyze call. */
  datatype AnalyzeRequest = AnalyzeRequest(polygon: Polygon, locationName: string)

  /** What the page shows for a given state. */
  datatype HomeView = HomeView(
    loadingOverlay: bool,
    instructions: bool,
    errorBanner: Option<string>,
    dashboard: Option<Dashboard.DashboardView>)

  class Home {
    var selectedArea: Option<Polygon>
    var analysisResult: Option<AnalysisResult>
    var timeSeries: seq<TimeSeriesPoint>
    var loading: bool
    var error: Option<string>

    /** The page as first rendered: nothing selected, nothing loaded. */
    constructor()
      ensures selectedArea == None && analysisResult == None && timeSeries == []
      ensures !loading && error == None
      ensures View() == HomeView(false, true, None, None)
    {
      selectedArea := None;
      analysisResult := None;
      timeSeries := [];
      loading := false;
      error := None;
    }

    /** The page's conditional parts: the loading overlay while loading,
        the instructions only with no area and no loading, the error banner
        for a non-empty message, and the dashboard (with the series) once
        there is a result. */
    function View(): (v: HomeView)
      reads this
      ensures v.loadingOverlay <==> loading
      ensures v.instructions <==> selectedArea.None? && !loading
      ensures v.errorBanner.Some? <==> Truthy(error)
      ensures v.errorBanner.Some? ==> v.errorBanner == error
      ensures v.dashboard.Some? <==> analysisResult.Some?
      ensures v.dashboard.Some? ==>
                v.dashboard.value == Dashboard.Render(analysisResult.value, Some(timeSeries))
    {
      HomeView(
        loading,
        selectedArea.None? && !loading,
        if Truthy(error) then error else None,
        if analysisResult.Some? then Some(Dashboard.Render(analysisResult.value, Some(timeSeries)))
        else None)
    }

    /** `handleAreaSelect`: records the area, starts loading and clears the
        error; asks for the analysis of the bare polygon; on success shows
        the result and only then asks for the series. Either failure sets
        the fixed message and keeps whatever was last written; loading
        always ends. `awaited` holds the view during each call that was
        made. */
    method HandleAreaSelect(polygon: Polygon, analyze: Outcome<AnalysisResult>,
                            series: Outcome<seq<TimeSeriesPoint>>)
      returns (request: AnalyzeRequest, awaited: seq<HomeView>)
      modifies this
      ensures request == AnalyzeRequest(polygon, "Selected Area")
      ensures |awaited| == (if analyze.Success? then 2 else 1)
      ensures awaited[0].loadingOverlay && !awaited[0].instructions && awaited[0].errorBanner.None?
      ensures awaited[0].dashboard.Some? <==> old(analysisResult).Some?
      ensures analyze.Success? ==>
                awaited[1].loadingOverlay && awaited[1].errorBanner.None?
                && awaited[1].dashboard == Some(Dashboard.Render(analyze.value, Some(old(timeSeries))))
      ensures selectedArea == Some(polygon)
      ensures analysisResult == (if analyze.Success? then Some(analyze.value) else old(analysisResult))
      ensures timeSeries == (if analyze.Success? && series.Success? then series.value else old(timeSeries))
      ensures error == (if analyze.Success? && series.Success? then None else Some(AnalyzeFailedMessage))
      ensures !loading
      ensures !View().loadingOverlay && !View().instructions
      ensures analyze.Success? && series.Failure? ==>
                View().dashboard == Some(Dashboard.Render(analyze.value, Some(old(timeSeries))))
                && View().errorBanner == Some(AnalyzeFailedMessage)
    {
      selectedArea := Some(polygon);
      loading := true;
      error := None;
      request := AnalyzeRequest(polygon, SelectedAreaName);
      awaited := [View()];
      match analyze {
        case Success(result) =>
          analysisResult := Some(result);
          awaited := awaited + [View()];
          match series {
            case Success(points) =>
              timeSeries := points;
            case Failure =>
              error := Some(AnalyzeFailedMessage);
          }
        case Failure =>
          error := Some(AnalyzeFailedMessage);
      }
      loading := false;
    }

    /** The banner's Dismiss button: clears the error and nothing else. */
    method Dismiss()
      modifies this
      ensures error == None
      ensures selectedArea == old(selectedArea) && analysisResult == old(analysisResult)
      ensures timeSeries == old(timeSeries) && loading == old(loading)
      ensures View() == old(View()).(errorBanner := None)
    {
      error := None;
    }
  }
}
