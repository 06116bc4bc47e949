/** `POST /api/analyze`: check the body, build the fixed prompt from both
    drivers' payloads, ask the chat-completion service once, and reply with
    the trimmed text of its first choice. */
module AnalyzeEndpoint {
  import opened Optional
  import opened Text
  import opened Telemetry
  import opened Http

  // ---------------------------------------------------------- request body

  /** The `telemetry` member of the request body; a driver entry that is
      absent or falsy is `None` (a truthy non-object behaves like a payload
      with no fields). */
  datatype TelemetryField = TelemetryField(driver1: Option<Payload>, driver2: Option<Payload>)

  /** The request body; `telemetry` absent or falsy is `None`. */
  datatype AnalyzeBody = AnalyzeBody(telemetry: Option<TelemetryField>)

  const InvalidTelemetryMessage := "Invalid telemetry data."
  const AnalyzeFailureMessage := "Failed to analyze data using OpenAI."

  /** The only input check: `telemetry`, `telemetry.driver1` and
      `telemetry.driver2` must be present. */
  predicate HasBothDrivers(body: AnalyzeBody) {
    body.telemetry.Some? && body.telemetry.value.driver1.Some? && body.telemetry.value.driver2.Some?
  }

  // ---------------------------------------------------------------- prompt

  // The fixed lines of the template. Each has type `Line`, so Dafny must
  // prove `'\n' !in` the literal. Dafny does not prove this for these
  // whole literals, which run from 46 to 63 characters. It does prove it
  // for each short piece of a concatenation. So the long lines are written
  // as concatenations of short literals. The text is unchanged.
  const NL := "\n"

  /** A string without a line break. */
  type Line = s: string | '\n' !in s

  const Intro: Line := "Analyze the telemetry data " + "for two drivers and " + "provide insights:"
  const AskSectors: Line := "- Compare sector times and " + "identify strengths and " + "weaknesses."
  const AskInputs: Line := "- Highlight differences in " + "throttle, brake, and " + "speed usage."
  const AskStrategy: Line := "- Suggest possible " + "strategies for improvement."
  const DataHeading: Line := "Telemetry Data:"
  const Truncated := "... (truncated)"

  /** The template up to the line before driver 1's block: a leading line
      break, the instructions, a blank line and the data heading. */
  const PromptHead := NL + Intro + NL + AskSectors + NL + AskInputs + NL + AskStrategy + NL + NL + DataHeading

  /** A value interpolated into a template literal: absent is `undefined`. */
  function Show(v: Option<string>): string {
    if v.Some? then v.value else "undefined"
  }

  /** An array interpolated into a template literal: its comma-joined
      elements; absent is `undefined`. */
  function ShowSeries(v: Option<seq<Sample>>): string {
    if v.Some? then Join(v.value, ',') else "undefined"
  }

  /** `xs.slice(0, 10)`. */
  function FirstTen(xs: seq<Sample>): (r: seq<Sample>)
    ensures |r| == if |xs| < 10 then |xs| else 10
    ensures r == xs[..|r|]
  {
    if |xs| < 10 then xs else xs[..10]
  }

  /** The four template lines of one driver, without their line breaks. */
  function DriverHeader(ordinal: string, p: Payload): string {
    "Driver " + ordinal + " (" + Show(p.driver) + "):"
  }
  function SectorLine(p: Payload): string {
    "- Sector Times: " + ShowSeries(p.sectorTimes)
  }
  function SpeedLine(speed: seq<Sample>): string {
    "- Speed: " + Join(FirstTen(speed), ',') + Truncated
  }
  function ThrottleLine(throttle: seq<Sample>): string {
    "- Throttle: " + Join(FirstTen(throttle), ',') + Truncated
  }

  /** One driver's block of the template. */
  function DriverBlock(ordinal: string, p: Payload, speed: seq<Sample>, throttle: seq<Sample>): string {
    DriverHeader(ordinal, p) + NL + SectorLine(p) + NL + SpeedLine(speed) + NL + ThrottleLine(throttle)
  }

  /** The prompt template, or `None` when evaluating it throws because a
      `speed` or `throttle` array is missing (`undefined.slice`). */
  function BuildPrompt(d1: Payload, d2: Payload): Option<string> {
    if d1.speed.None? || d1.throttle.None? || d2.speed.None? || d2.throttle.None? then None
    else Some(
      PromptHead + NL
      + DriverBlock("1", d1, d1.speed.value, d1.throttle.value) + NL + NL
      + DriverBlock("2", d2, d2.speed.value, d2.throttle.value) + NL)
  }

  /** The prompt fails exactly when one of the four sampled arrays is missing;
      the driver identifiers and sector times may be absent. */
  lemma PromptFailsIff(d1: Payload, d2: Payload)
    ensures BuildPrompt(d1, d2).None? <==>
      d1.speed.None? || d1.throttle.None? || d2.speed.None? || d2.throttle.None?
  {
  }

  /** The lines of the fixed head of the template. */
  const HeadLines: seq<string> := ["", Intro, AskSectors, AskInputs, AskStrategy, "", DataHeading]

  /** The four lines of one driver's block. */
  function DriverLines(ordinal: string, p: Payload): seq<string>
    requires p.speed.Some? && p.throttle.Some?
  {
    [DriverHeader(ordinal, p), SectorLine(p), SpeedLine(p.speed.value), ThrottleLine(p.throttle.value)]
  }

  /** The lines of the prompt when no interpolated value holds a line break:
      the head, driver 1's lines, a blank line, driver 2's lines and the
      empty piece after the final line break. */
  function PromptLines(d1: Payload, d2: Payload): seq<string>
    requires d1.speed.Some? && d1.throttle.Some? && d2.speed.Some? && d2.throttle.Some?
  {
    HeadLines + DriverLines("1", d1) + [""] + DriverLines("2", d2) + [""]
  }

  /** No string the payload contributes to the prompt holds a line break. */
  predicate LineFree(p: Payload) {
    && (p.driver.Some? ==> '\n' !in p.driver.value)
    && (p.sectorTimes.Some? ==> forall k :: 0 <= k < |p.sectorTimes.value| ==> '\n' !in p.sectorTimes.value[k])
    && (p.speed.Some? ==> forall k :: 0 <= k < |p.speed.value| ==> '\n' !in p.speed.value[k])
    && (p.throttle.Some? ==> forall k :: 0 <= k < |p.throttle.value| ==> '\n' !in p.throttle.value[k])
  }

  /** A speed or throttle line has no line break when no sample has one. */
  lemma SampleLinesLineFree(samples: seq<Sample>)
    requires forall k :: 0 <= k < |samples| ==> '\n' !in samples[k]
    ensures '\n' !in SpeedLine(samples) && '\n' !in ThrottleLine(samples)
  {
    var f := FirstTen(samples);
    assert forall k :: 0 <= k < |f| ==> f[k] == samples[k];
    JoinAvoids(f, ',', '\n');
  }

  /** The header and the sector line have no line break. */
  lemma HeaderLinesLineFree(ordinal: string, p: Payload)
    requires LineFree(p) && '\n' !in ordinal
    ensures '\n' !in DriverHeader(ordinal, p) && '\n' !in SectorLine(p)
  {
    if p.sectorTimes.Some? { JoinAvoids(p.sectorTimes.value, ',', '\n'); }
  }

  /** Each of a driver's four lines is free of line breaks. */
  lemma DriverLinesLineFree(ordinal: string, p: Payload)
    requires LineFree(p) && p.speed.Some? && p.throttle.Some?
    requires '\n' !in ordinal
    ensures '\n' !in DriverHeader(ordinal, p) && '\n' !in SectorLine(p)
    ensures '\n' !in SpeedLine(p.speed.value) && '\n' !in ThrottleLine(p.throttle.value)
  {
    HeaderLinesLineFree(ordinal, p);
    SampleLinesLineFree(p.speed.value);
    SampleLinesLineFree(p.throttle.value);
  }

  /** Appending a line break and a line without one adds that line. */
  lemma AppendLine(a: string, line: string)
    requires '\n' !in line
    ensures Split(a + NL + line, '\n') == Split(a, '\n') + [line]
  {
    SplitAppend(a, line, '\n');
    SplitNoSeparator(line, '\n');
  }

  /** A driver block consists of its four lines. */
  lemma DriverBlockLines(ordinal: string, p: Payload)
    requires LineFree(p) && p.speed.Some? && p.throttle.Some? && '\n' !in ordinal
    ensures Split(DriverBlock(ordinal, p, p.speed.value, p.throttle.value), '\n') == DriverLines(ordinal, p)
  {
    DriverLinesLineFree(ordinal, p);
    var h, st, sp := DriverHeader(ordinal, p), SectorLine(p), SpeedLine(p.speed.value);
    SplitNoSeparator(h, '\n');
    AppendLine(h, st);
    AppendLine(h + NL + st, sp);
    AppendLine(h + NL + st + NL + sp, ThrottleLine(p.throttle.value));
  }

  /** The lines of the fixed head of the template. */
  lemma PromptHeadLines()
    ensures Split(PromptHead, '\n') == HeadLines
  {
    assert Split("", '\n') == [""];
    AppendLine("", Intro);
    var x1 := NL + Intro;
    assert "" + NL + Intro == x1;
    var x2 := x1 + NL + AskSectors;
    AppendLine(x1, AskSectors);
    var x3 := x2 + NL + AskInputs;
    AppendLine(x2, AskInputs);
    var x4 := x3 + NL + AskStrategy;
    AppendLine(x3, AskStrategy);
    var x5 := x4 + NL;
    AppendLine(x4, "");
    assert x4 + NL + "" == x5;
    AppendLine(x5, DataHeading);
    assert PromptHead == x5 + NL + DataHeading;
  }

  /** How the lines of the head and of the two driver blocks make up the
      lines of the whole prompt. */
  lemma {:induction false} JoinedBlockLines(head: string, b1: string, b2: string)
    ensures Split(head + NL + b1 + NL + NL + b2 + NL, '\n')
      == Split(head, '\n') + Split(b1, '\n') + [""] + Split(b2, '\n') + [""]
  {
    var x1 := head + NL + b1;
    SplitAppend(head, b1, '\n');
    var x2 := x1 + NL;
    AppendLine(x1, "");
    assert x1 + NL + "" == x2;
    var x3 := x2 + NL + b2;
    SplitAppend(x2, b2, '\n');
    AppendLine(x3, "");
    assert x3 + NL + "" == x3 + NL;
  }

  /** The prompt's line structure: the fixed instructions, then driver 1's
      block (identifier, full sector times, first ten speed and throttle
      samples each followed by the truncation marker), a blank line, then
      driver 2's block. The brake series appears nowhere. */
  lemma PromptLayout(d1: Payload, d2: Payload)
    requires BuildPrompt(d1, d2).Some?
    requires LineFree(d1) && LineFree(d2)
    ensures Split(BuildPrompt(d1, d2).value, '\n') == PromptLines(d1, d2)
  {
    var b1 := DriverBlock("1", d1, d1.speed.value, d1.throttle.value);
    var b2 := DriverBlock("2", d2, d2.speed.value, d2.throttle.value);
    assert BuildPrompt(d1, d2).value == PromptHead + NL + b1 + NL + NL + b2 + NL;
    PromptHeadLines();
    DriverBlockLines("1", d1);
    DriverBlockLines("2", d2);
    JoinedBlockLines(PromptHead, b1, b2);
  }

  /** The samples a speed or throttle line carries are exactly the first
      `min(10, length)` of the series, in order, when the series is not empty
      and no sample holds a comma; with an empty series each line is the
      label followed directly by the marker. */
  lemma SampleLineCarriesFirstTen(samples: seq<Sample>)
    requires forall k :: 0 <= k < |samples| ==> ',' !in samples[k]
    ensures |FirstTen(samples)| == if |samples| < 10 then |samples| else 10
    ensures |samples| > 0 ==> Split(Join(FirstTen(samples), ','), ',') == FirstTen(samples)
    ensures SpeedLine(samples) == "- Speed: " + Join(FirstTen(samples), ',') + Truncated
    ensures ThrottleLine(samples) == "- Throttle: " + Join(FirstTen(samples), ',') + Truncated
    ensures |samples| == 0 ==> SpeedLine(samples) == "- Speed: " + Truncated
    ensures |samples| == 0 ==> ThrottleLine(samples) == "- Throttle: " + Truncated
  {
    var f := FirstTen(samples);
    assert forall k :: 0 <= k < |f| ==> f[k] == samples[k];
    if |samples| > 0 {
      SplitJoin(f, ',');
    }
  }

  /** The prompt ignores the brake series and every speed or throttle sample
      after the tenth. */
  lemma PromptSeesOnlyFirstTen(d1: Payload, d2: Payload, e1: Payload, e2: Payload)
    requires d1.driver == e1.driver && d1.sectorTimes == e1.sectorTimes
    requires d2.driver == e2.driver && d2.sectorTimes == e2.sectorTimes
    requires d1.speed.Some? <==> e1.speed.Some?
    requires d1.throttle.Some? <==> e1.throttle.Some?
    requires d2.speed.Some? <==> e2.speed.Some?
    requires d2.throttle.Some? <==> e2.throttle.Some?
    requires d1.speed.Some? ==> FirstTen(d1.speed.value) == FirstTen(e1.speed.value)
    requires d1.throttle.Some? ==> FirstTen(d1.throttle.value) == FirstTen(e1.throttle.value)
    requires d2.speed.Some? ==> FirstTen(d2.speed.value) == FirstTen(e2.speed.value)
    requires d2.throttle.Some? ==> FirstTen(d2.throttle.value) == FirstTen(e2.throttle.value)
    ensures BuildPrompt(d1, d2) == BuildPrompt(e1, e2)
  {
  }

  // ------------------------------------------------------------ generation

  datatype ChatMessage = ChatMessage(role: string, content: string)

  datatype ChatRequest = ChatRequest(model: string, messages: seq<ChatMessage>, maxTokens: nat, temperature: real)

  /** One completion choice; `content` may be null. */
  datatype Choice = Choice(content: Option<string>)

  /** What the chat-completion call does: throw, or return its choices. */
  datatype Completion = ServiceFailed | Completed(choices: seq<Choice>)

  /** The generation request: a fixed model, token bound and temperature,
      with the prompt as the one system message. */
  function GenerationRequest(prompt: string): (r: ChatRequest)
    ensures r.model == "gpt-3.5-turbo" && r.maxTokens == 500 && r.temperature == 0.7
    ensures r.messages == [ChatMessage("system", prompt)]
  {
    ChatRequest("gpt-3.5-turbo", [ChatMessage("system", prompt)], 500, 0.7)
  }

  /** `response.choices[0].message.content.trim()`, or `None` where that
      expression throws (the call failed, no choice, null content). */
  function ReplyText(c: Completion): (r: Option<string>)
    ensures r.Some? <==> c.Completed? && |c.choices| > 0 && c.choices[0].content.Some?
    ensures r.Some? ==> r.value == Trim(c.choices[0].content.value)
  {
    if c.Completed? && |c.choices| > 0 && c.choices[0].content.Some? then
      Some(Trim(c.choices[0].content.value))
    else None
  }

  /** The handler. `service` stands for the chat-completion client. */
  function Analyze(body: AnalyzeBody, service: ChatRequest -> Completion): Response {
    if !HasBothDrivers(body) then Response(400, JsonError(InvalidTelemetryMessage))
    else
      var t := body.telemetry.value;
      var prompt := BuildPrompt(t.driver1.value, t.driver2.value);
      if prompt.None? then Response(500, JsonError(AnalyzeFailureMessage))
      else
        var reply := ReplyText(service(GenerationRequest(prompt.value)));
        if reply.None? then Response(500, JsonError(AnalyzeFailureMessage))
        else Response(200, JsonAnalysis(reply.value))
  }

  /** The endpoint answers 400 exactly when the body lacks `telemetry` or
      one of its two drivers, 200 with the trimmed first choice exactly when
      the prompt builds and the service yields a usable first choice, and
      500 with the fixed error otherwise. */
  lemma AnalyzeStatus(body: AnalyzeBody, service: ChatRequest -> Completion)
    ensures Analyze(body, service).status in {200, 400, 500}
    ensures Analyze(body, service).status == 400 <==> !HasBothDrivers(body)
    ensures Analyze(body, service).status == 400 ==>
      Analyze(body, service).body == JsonError(InvalidTelemetryMessage)
    ensures Analyze(body, service).status == 500 ==>
      Analyze(body, service).body == JsonError(AnalyzeFailureMessage)
    ensures Analyze(body, service).status == 200 <==>
      HasBothDrivers(body)
      && var t := body.telemetry.value;
         var prompt := BuildPrompt(t.driver1.value, t.driver2.value);
         prompt.Some? && ReplyText(service(GenerationRequest(prompt.value))).Some?
    ensures Analyze(body, service).status == 200 ==>
      var t := body.telemetry.value;
      var c := service(GenerationRequest(BuildPrompt(t.driver1.value, t.driver2.value).value));
      Analyze(body, service).body == JsonAnalysis(Trim(c.choices[0].content.value))
  {
  }

  /** When the check fails or the prompt cannot be built, the service is not
      consulted: any two services give the same response. */
  lemma ServiceNotCalledBeforePrompt(body: AnalyzeBody, s1: ChatRequest -> Completion, s2: ChatRequest -> Completion)
    requires !HasBothDrivers(body)
      || BuildPrompt(body.telemetry.value.driver1.value, body.telemetry.value.driver2.value).None?
    ensures Analyze(body, s1) == Analyze(body, s2)
  {
  }

  /** A payload without its `driver` field is not rejected: the prompt names
      that driver `undefined`. */
  lemma MissingDriverIsUndefined(d1: Payload, d2: Payload)
    requires d1.driver.None? && BuildPrompt(d1, d2).Some?
    ensures DriverHeader("1", d1) == "Driver 1 (undefined):"
    ensures HasBothDrivers(AnalyzeBody(Some(TelemetryField(Some(d1), Some(d2)))))
  {
  }

  /** A payload the telemetry script printed on failure (`{"error": ...}`)
      passes the check but fails inside the prompt: status 500 whatever the
      service would do. */
  lemma ErrorPayloadGives500(d1: Payload, message: string, service: ChatRequest -> Completion)
    ensures Analyze(AnalyzeBody(Some(TelemetryField(Some(d1), Some(ErrorPayload(message))))), service)
      == Response(500, JsonError(AnalyzeFailureMessage))
  {
  }

}
