/** The viewer's component state and its handlers. Each handler is one atomic
    sequence of state updates; the HTTP calls it awaits are given as
    functions from request to outcome. */
module Viewer {
  import opened Optional
  import opened Telemetry
  import opened Dashboard
  import opened Http

  const FetchErrorMessage := "Failed to fetch telemetry data. Please try again."

  /** How `GET /api/telemetry` ends for the browser: a 200 response with its
      parsed body, or a rejection (any other status, or no response). The
      server sends only 200, 400 or 500, so a 200 is the only 2xx reply
      axios can resolve on here. */
  datatype FetchOutcome = Fetched(data: Payload) | FetchFailed

  /** How the browser's request ends for a server reply: a 200 response
      delivers its payload; a 500, or no response at all, rejects. */
  function BrowserOutcome(reply: Option<Response>): (o: FetchOutcome)
    ensures o.Fetched? <==> reply.Some? && reply.value.status == 200 && reply.value.body.JsonPayload?
    ensures o.Fetched? ==> o.data == reply.value.body.payload
  {
    if reply.Some? && reply.value.status == 200 && reply.value.body.JsonPayload? then
      Fetched(reply.value.body.payload)
    else FetchFailed
  }

  /** How `POST /api/analyze` ends for the browser: a 200 response with
      its analysis text, or a rejection. */
  datatype PostOutcome = Answered(analysis: string) | PostFailed

  /** How the browser's post ends for a server reply: a 200 response with
      an `analysis` field delivers that text; a 400 or 500, or no response
      at all, rejects. */
  function PostResult(reply: Option<Response>): (o: PostOutcome)
    ensures o.Answered? <==> reply.Some? && reply.value.status == 200 && reply.value.body.JsonAnalysis?
    ensures o.Answered? ==> o.analysis == reply.value.body.analysis
  {
    if reply.Some? && reply.value.status == 200 && reply.value.body.JsonAnalysis? then
      Answered(reply.value.body.analysis)
    else PostFailed
  }

  class App {
    // the inputs last submitted, shown next to the data
    var driver1: string
    var driver2: string
    var track: string
    var year: string
    var session: string
    // fetch and analysis state
    var loading: bool
    var error: Option<string>
    var telemetry: Option<Merged>
    var currentGraphIndex: nat
    var analysis: string
    var loadingAnalysis: bool

    /** The carousel index always names one of the graph types, which is
        what makes `graphTypes[currentGraphIndex]` in the rendered page
        well defined. Every handler keeps it. */
    ghost predicate Valid()
      reads this
    {
      currentGraphIndex < |GraphTypes|
    }

    /** The initial state of the component. */
    constructor ()
      ensures Valid()
      ensures driver1 == "" && driver2 == "" && track == "Bahrain" && year == "" && session == ""
      ensures !loading && error.None? && telemetry.None?
      ensures currentGraphIndex == 0 && analysis == "" && !loadingAnalysis
    {
      driver1, driver2, track, year, session := "", "", "Bahrain", "", "";
      loading, error, telemetry := false, None, None;
      currentGraphIndex, analysis, loadingAnalysis := 0, "", false;
    }

    /** The updates `fetchTelemetry` makes before its first request. */
    method BeginFetch()
      requires Valid()
      modifies this
      ensures Valid()
      ensures loading && error.None? && telemetry.None? && analysis == "" && !loadingAnalysis
      ensures driver1 == old(driver1) && driver2 == old(driver2) && track == old(track)
      ensures year == old(year) && session == old(session)
      ensures currentGraphIndex == old(currentGraphIndex)
    {
      loading := true;
      error := None;
      telemetry := None;
      analysis := "";
      loadingAnalysis := false;
    }

    /** `fetchTelemetry`: reset, request driver 1, then driver 2 only if
        driver 1 succeeded, and store the merged record or the fixed error.
        `issued` lists the requests in the order they were sent. */
    method FetchTelemetry(d1: string, d2: string, track': string, year': string, session': string,
                          get: Query -> FetchOutcome)
      returns (issued: seq<Query>)
      requires Valid()
      modifies this
      ensures Valid()
      ensures var q1 := Query(d1, track', year', session');
              var q2 := Query(d2, track', year', session');
              && issued == (if get(q1).Fetched? then [q1, q2] else [q1])
              && (get(q1).Fetched? && get(q2).Fetched? ==>
                    telemetry == Some(Merge(get(q1).data, get(q2).data, track')) && error.None?)
              && (!(get(q1).Fetched? && get(q2).Fetched?) ==>
                    telemetry.None? && error == Some(FetchErrorMessage))
      ensures !loading && analysis == "" && !loadingAnalysis
      ensures driver1 == old(driver1) && driver2 == old(driver2) && track == old(track)
      ensures year == old(year) && session == old(session)
      ensures currentGraphIndex == old(currentGraphIndex)
    {
      BeginFetch();
      var q1 := Query(d1, track', year', session');
      issued := [q1];
      var response1 := get(q1);
      if response1.Fetched? {
        var q2 := Query(d2, track', year', session');
        issued := issued + [q2];
        var response2 := get(q2);
        if response2.Fetched? {
          telemetry := Some(Merge(response1.data, response2.data, track'));
        } else {
          error := Some(FetchErrorMessage);
        }
      } else {
        error := Some(FetchErrorMessage);
      }
      loading := false;
    }

    /** `handleFetchTelemetry`: copy the form inputs into the displayed
        inputs, then fetch with them. */
    method HandleFetchTelemetry(tempDriver1: string, tempDriver2: string, tempTrack: string,
                                tempYear: string, tempSession: string, get: Query -> FetchOutcome)
      returns (issued: seq<Query>)
      requires Valid()
      modifies this
      ensures Valid()
      ensures driver1 == tempDriver1 && driver2 == tempDriver2 && track == tempTrack
      ensures year == tempYear && session == tempSession
      ensures var q1 := Query(tempDriver1, tempTrack, tempYear, tempSession);
              var q2 := Query(tempDriver2, tempTrack, tempYear, tempSession);
              && issued == (if get(q1).Fetched? then [q1, q2] else [q1])
              && (get(q1).Fetched? && get(q2).Fetched? ==>
                    telemetry == Some(Merge(get(q1).data, get(q2).data, tempTrack)) && error.None?)
              && (!(get(q1).Fetched? && get(q2).Fetched?) ==>
                    telemetry.None? && error == Some(FetchErrorMessage))
      ensures !loading && analysis == "" && !loadingAnalysis
      ensures currentGraphIndex == old(currentGraphIndex)
    {
      driver1, driver2, track, year, session := tempDriver1, tempDriver2, tempTrack, tempYear, tempSession;
      issued := FetchTelemetry(tempDriver1, tempDriver2, tempTrack, tempYear, tempSession, get);
    }

    /** `analyzeData`: nothing without telemetry; otherwise post it, store
        the reply's analysis or raise an alert, and clear the loading flag. */
    method AnalyzeData(post: Merged -> PostOutcome) returns (posted: Option<Merged>, alerted: bool)
      requires Valid()
      modifies this`analysis, this`loadingAnalysis
      ensures Valid()
      ensures posted == telemetry
      ensures telemetry.None? ==>
        !alerted && analysis == old(analysis) && loadingAnalysis == old(loadingAnalysis)
      ensures telemetry.Some? ==> !loadingAnalysis
      ensures telemetry.Some? && post(telemetry.value).Answered? ==>
        !alerted && analysis == post(telemetry.value).analysis
      ensures telemetry.Some? && post(telemetry.value).PostFailed? ==>
        alerted && analysis == old(analysis)
    {
      posted, alerted := None, false;
      if telemetry.None? {
        return;
      }
      loadingAnalysis := true;
      posted := telemetry;
      var response := post(telemetry.value);
      if response.Answered? {
        analysis := response.analysis;
      } else {
        alerted := true;
      }
      loadingAnalysis := false;
    }

    /** The "Next" button of the graph carousel. */
    method ShowNextGraph()
      requires Valid()
      modifies this`currentGraphIndex
      ensures Valid() && currentGraphIndex == NextGraph(old(currentGraphIndex))
    {
      currentGraphIndex := NextGraph(currentGraphIndex);
    }

    /** The "Previous" button of the graph carousel. */
    method ShowPreviousGraph()
      requires Valid()
      modifies this`currentGraphIndex
      ensures Valid() && currentGraphIndex == PreviousGraph(old(currentGraphIndex))
    {
      currentGraphIndex := PreviousGraph(currentGraphIndex);
    }
  }

  /** A session: fetch, then step the carousel forward and back; the
      carousel returns where it was and the fetched state is kept. */
  method FetchAndBrowse(get: Query -> FetchOutcome) returns (app: App)
    ensures fresh(app) && app.Valid() && app.currentGraphIndex == 0
    ensures
      var q1 := Query("VER", "Monaco", "2024", "Q");
      var q2 := Query("LEC", "Monaco", "2024", "Q");
      && (get(q1).Fetched? && get(q2).Fetched? ==>
            app.telemetry.Some? && app.telemetry.value.circuitImage == "/Monaco_Circuit.avif")
      && (!(get(q1).Fetched? && get(q2).Fetched?) ==>
            app.telemetry.None? && app.error == Some(FetchErrorMessage))
  {
    app := new App();
    var issued := app.HandleFetchTelemetry("VER", "LEC", "Monaco", "2024", "Q", get);
    app.ShowNextGraph();
    app.ShowPreviousGraph();
    CarouselCycles(0);
  }

}
