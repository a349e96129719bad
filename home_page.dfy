/** The dashboard page (bike-projecto/app/page.tsx): the sections it renders
    for the data hook's state, and one refresh of that state from the API. */
module HomePage {
  import opened Telemetry
  import opened DataHook
  import Api

  /** The page's sections, top to bottom. */
  datatype Section =
    | BikeFrame
    | ScrollDarkener
    | LoadingState
    | ErrorState(error: ErrorText)
    | EmptyState
    | Hero(data: Reading)
    | Project

  /** Whether the `error` cell is truthy: a stored message that is the empty
      string is not. */
  predicate Shown(error: Option<ErrorText>) {
    error.Some? && error.value != Thrown("")
  }

  /** `Home`: the frame and the darkener always, then the first view that
      applies: loading, error, no data, or the reading with the project
      section. */
  function Home(data: Option<Reading>, loading: bool, error: Option<ErrorText>): (view: seq<Section>)
    ensures |view| >= 3 && view[0] == BikeFrame && view[1] == ScrollDarkener
    ensures view[2] == LoadingState <==> loading
    ensures view[2].ErrorState? <==> !loading && Shown(error)
    ensures view[2].ErrorState? ==> Some(view[2].error) == error
    ensures view[2] == EmptyState <==> !loading && !Shown(error) && data.None?
    ensures (|view| == 4 && view[2].Hero? && view[3] == Project) <==> !loading && !Shown(error) && data.Some?
    ensures view[2].Hero? ==> Some(view[2].data) == data
    ensures |view| == 4 <==> view[2].Hero?
  {
    [BikeFrame, ScrollDarkener] +
      if loading then [LoadingState]
      else if Shown(error) then [ErrorState(error.value)]
      else if data.None? then [EmptyState]
      else [Hero(data.value), Project]
  }

  /** What the hook's fetch sees for each answer of `GET /api/bike-data/latest`:
      200 with the reading, 404, or 500 with `success: false`. */
  function Served(resp: Api.LatestResponse): FetchOutcome {
    match resp
    case Found(r) => Responded(200, Json(true, Some(r)))
    case NotFound => Responded(404, Json(false, None))
    case LatestError => Responded(500, Json(false, None))
  }

  /** One refresh: the hook fetches the latest reading from the API and the
      page renders the new state. An empty store shows the empty view, a
      non-empty one the newest reading, and a failing store the error view
      with the earlier data kept in the hook. */
  method Refresh(api: Api.BatteryApi, hook: BatteryDataHook, storeFails: bool) returns (view: seq<Section>)
    modifies hook
    ensures view == Home(hook.data, hook.loading, hook.error)
    ensures !storeFails && api.store == [] ==> view == [BikeFrame, ScrollDarkener, EmptyState]
    ensures !storeFails && api.store != [] ==>
      |view| == 4 && view[2].Hero? && view[3] == Project && view[2].data in api.store
    ensures !storeFails && api.store != [] ==>
      forall i :: 0 <= i < |api.store| ==> api.store[i].timestamp <= view[2].data.timestamp
    ensures storeFails ==> view == [BikeFrame, ScrollDarkener, ErrorState(StatusError(500))] && hook.data == old(hook.data)
  {
    var resp := api.GetLatest(storeFails);
    hook.FetchData(Served(resp));
    view := Home(hook.data, hook.loading, hook.error);
  }
}
