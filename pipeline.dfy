/** Where the viewer and the server meet: the request body the viewer posts
    to the analysis endpoint, what the viewer receives back from it, and
    what the viewer makes of the telemetry endpoint's reply when the script
    reports a failure. */
module Pipeline {
  import opened Optional
  import opened Text
  import opened Telemetry
  import opened Http
  import opened Dashboard
  import opened Viewer
  import opened AnalyzeEndpoint
  import opened TelemetryEndpoint

  /** The body the viewer posts: its merged record as `telemetry`. */
  function ViewerBody(m: Merged): (body: AnalyzeBody)
    ensures HasBothDrivers(body)
  {
    AnalyzeBody(Some(TelemetryField(Some(m.driver1), Some(m.driver2))))
  }

  /** What the viewer posts is never answered 400. */
  lemma ViewerRequestsAreValid(m: Merged, service: ChatRequest -> Completion)
    ensures Analyze(ViewerBody(m), service).status != 400
  {
    AnalyzeStatus(ViewerBody(m), service);
  }

  /** What the viewer posts reaches the service, and the browser gets back
      the trimmed first choice exactly when the prompt builds and the
      service's first choice has content; otherwise the post is rejected
      and the viewer raises its alert. */
  lemma AnalysisReachesViewer(m: Merged, service: ChatRequest -> Completion)
    ensures var o := PostResult(Some(Analyze(ViewerBody(m), service)));
      var prompt := BuildPrompt(m.driver1, m.driver2);
      && (o.Answered? <==> prompt.Some? && ReplyText(service(GenerationRequest(prompt.value))).Some?)
      && (o.Answered? ==>
            o.analysis == Trim(service(GenerationRequest(prompt.value)).choices[0].content.value))
  {
    AnalyzeStatus(ViewerBody(m), service);
  }

  /** A script failure reported as `{"error": ...}` with exit status 0 is
      not an error for the viewer: the reply is delivered as that driver's
      payload. When it is driver 1's, every graph shows "no data"; when it
      is driver 2's, each graph shows driver 1's line alone (or "no data"
      where driver 1 lacks the series). Either way the sector table is
      hidden. */
  lemma ScriptErrorReachesViewer(result: string, message: string, parse: string -> Option<Payload>,
                                 other: Payload, track: string, label1: string, label2: string, g: GraphType)
    requires parse(result) == Some(ErrorPayload(message))
    ensures BrowserOutcome(CloseReply(Some(0), result, parse)) == Fetched(ErrorPayload(message))
    ensures RenderGraph(Some(Merge(ErrorPayload(message), other, track)), label1, label2, g).NoData?
    ensures SectorTable(Merge(ErrorPayload(message), other, track)).None?
    ensures var c := RenderGraph(Some(Merge(other, ErrorPayload(message), track)), label1, label2, g);
      && (c.NoData? <==> Series(other, g.dataKey).None?)
      && (c.Line? ==> c.datasets == [Dataset(label1, Series(other, g.dataKey).value, Some(g.stroke1))])
    ensures SectorTable(Merge(other, ErrorPayload(message), track)).None?
  {
    ScriptErrorIsSuccess(result, message, parse);
    assert Series(ErrorPayload(message), g.dataKey).None?;
  }

}
