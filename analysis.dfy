/**
  The outcome logic of `agent_root_cause_analysis` (app.py:58-131) and the
  button guard that calls it (app.py:155-165).  The HTTP exchange is
  abstracted: the backend is a parameter mapping the request that would be
  posted to the response that comes back, and each run records the requests
  it issued, so that "no call is made" can be stated.
 */
module Analysis {
  import opened Wrappers
  import opened Text
  import opened Classifier
  import opened Knowledge
  import opened Prompt

  /** A parsed JSON document, as `json.loads` returns it. */
  datatype Json =
    | JNull
    | JBool(b: bool)
    | JNumber(n: int)
    | JString(s: string)
    | JArray(items: seq<Json>)
    | JObject(fields: map<string, Json>)

  /** `value[key]` on a parsed JSON value; `None` where Python raises. */
  function Field(value: Json, key: string): (r: Option<Json>)
    ensures r.Some? <==> value.JObject? && key in value.fields
  {
    match value
    case JObject(fields) => if key in fields then Some(fields[key]) else None
    case _ => None
  }

  /**
    `value[0]` on a parsed JSON value; `None` where Python raises.  A string
    yields its first character; an object raises, since JSON keys are strings.
   */
  function First(value: Json): (r: Option<Json>)
    ensures r.Some? <==> (value.JArray? && |value.items| > 0) || (value.JString? && |value.s| > 0)
  {
    match value
    case JArray(items) => if |items| > 0 then Some(items[0]) else None
    case JString(s) => if |s| > 0 then Some(JString(s[..1])) else None
    case _ => None
  }

  /**
    `result['candidates'][0]['content']['parts'][0]['text']`.  A value comes
    back only from an object whose `candidates` is a non-empty list.
   */
  function ExtractGeneratedText(result: Json): (r: Option<Json>)
    ensures r.Some? ==> result.JObject? && "candidates" in result.fields
                        && result.fields["candidates"].JArray? && |result.fields["candidates"].items| > 0
  {
    var candidates :- Field(result, "candidates");
    var candidate :- First(candidates);
    var content :- Field(candidate, "content");
    var parts :- Field(content, "parts");
    var part :- First(parts);
    Field(part, "text")
  }

  /** The smallest response body of the shape the service returns. */
  function ReplyWithText(text: Json): Json {
    JObject(map["candidates" := JArray([JObject(map["content" :=
      JObject(map["parts" := JArray([JObject(map["text" := text])])])])])])
  }

  /** Extraction inverts the reply shape. */
  lemma ExtractFromReply(text: Json)
    ensures ExtractGeneratedText(ReplyWithText(text)) == Some(text)
  {
  }

  /**
    Only the first candidate and its first part are read: candidates and
    parts after them, and fields beside them, never change the extracted value.
   */
  lemma ExtractReadsFirstOnly(result: Json, text: Json)
    requires ExtractGeneratedText(result) == Some(text)
    ensures result.JObject? && "candidates" in result.fields
    ensures var c := result.fields["candidates"];
      c.JArray? && |c.items| > 0 && ExtractGeneratedText(JObject(map["candidates" := JArray([c.items[0]])])) == Some(text)
  {
  }

  /**
    Extraction in path terms: it yields `v` exactly when the body is an object
    whose `candidates` is a non-empty list, whose first candidate has a
    `content` object holding a non-empty `parts` list, and whose first part is
    an object with `text` equal to `v`.  Every other field of the body, of the
    candidate, of the content and of the part is ignored, and so are the later
    candidates and parts; indexing into a string never reaches the text.
   */
  lemma ExtractAtPath(result: Json, v: Json)
    ensures ExtractGeneratedText(result) == Some(v) <==>
      result.JObject? && "candidates" in result.fields
      && result.fields["candidates"].JArray? && |result.fields["candidates"].items| > 0
      && var candidate := result.fields["candidates"].items[0];
      candidate.JObject? && "content" in candidate.fields
      && var content := candidate.fields["content"];
      content.JObject? && "parts" in content.fields
      && content.fields["parts"].JArray? && |content.fields["parts"].items| > 0
      && var part := content.fields["parts"].items[0];
      part.JObject? && "text" in part.fields && part.fields["text"] == v
  {
  }

  /**
    A reply as the service sends it, with a role beside the parts, two parts,
    a finish reason and usage metadata, yields the first part's text.
   */
  lemma ExtractFromFullReply(text: string, other: string)
    ensures var part1 := JObject(map["text" := JString(text)]);
      var part2 := JObject(map["text" := JString(other)]);
      var content := JObject(map["parts" := JArray([part1, part2]), "role" := JString("model")]);
      var candidate := JObject(map["content" := content, "finishReason" := JString("STOP")]);
      var reply := JObject(map["candidates" := JArray([candidate]),
                               "usageMetadata" := JObject(map["totalTokenCount" := JNumber(42)])]);
      ExtractGeneratedText(reply) == Some(JString(text))
  {
  }

  /** A body without a non-empty `candidates` list never yields text. */
  lemma ExtractNeedsCandidates(result: Json)
    requires !(result.JObject? && "candidates" in result.fields
               && result.fields["candidates"].JArray? && |result.fields["candidates"].items| > 0)
    ensures ExtractGeneratedText(result) == None
  {
  }

  // ---------------------------------------------------------------------------
  // The request, the backend's answer and the analysis.

  /** What `requests.post` receives: the API key (carried in the URL) and the JSON body. */
  datatype Request = Request(apiKey: string, body: Json)

  /**
    What comes back: a connection failure, or an HTTP status with the body
    parsed as JSON (`None` when `response.json()` would raise).
   */
  datatype Response = ConnectionError | HttpResponse(status: int, body: Option<Json>)

  /** The body `{"contents": [{"parts": [{"text": prompt}]}]}` of app.py:113-119. */
  function RequestBody(prompt: string): (body: Json)
    ensures Field(body, "contents").Some?
  {
    JObject(map["contents" := JArray([JObject(map["parts" := JArray([JObject(map["text" := JString(prompt)])])])])])
  }

  /** The prompt travels at `contents[0].parts[0].text` of the request body. */
  lemma RequestBodyCarriesPrompt(prompt: string)
    ensures var body := RequestBody(prompt);
      body.JObject? && body.fields["contents"].JArray? && |body.fields["contents"].items| == 1
      && var entry := body.fields["contents"].items[0];
      entry.JObject? && "parts" in entry.fields && entry.fields["parts"].JArray?
      && entry.fields["parts"].items == [JObject(map["text" := JString(prompt)])]
  {
  }

  /** `raise_for_status` raises for client (4xx) and server (5xx) error codes. */
  predicate IsHttpError(status: int) {
    400 <= status < 600
  }

  /** The body of the `try` block: the generated value, or `None` if anything raised. */
  function CallOutcome(response: Response): (r: Option<Json>)
    ensures r.Some? ==> response.HttpResponse? && !IsHttpError(response.status) && response.body.Some?
                        && r == ExtractGeneratedText(response.body.value)
  {
    match response
    case ConnectionError => None
    case HttpResponse(status, body) =>
      if IsHttpError(status) then None
      else match body
        case None => None
        case Some(result) => ExtractGeneratedText(result)
  }

  const MissingKeyMessage := "Unable to perform analysis. API key is missing."
  const FailureMessage := "Unable to perform analysis. Please check your API key and network connection."

  /**
    One run: the value the function returns (a fixed message, or whatever
    JSON value sat at the text path) and the requests it issued.
   */
  datatype Run = Run(report: Json, requests: seq<Request>)

  /** The request the pipeline sends for an incident under a given key. */
  function RequestFor(incident: string, apiKey: string): (req: Request)
    ensures req.apiKey == apiKey
  {
    var incidentType := Label(PredictIncidentType(incident));
    var context := Retrieve(incidentType);
    Request(apiKey, RequestBody(BuildPrompt(incident, context)))
  }

  /** `agent_root_cause_analysis(incident)` against the given backend. */
  function AgentRootCauseAnalysis(incident: string, apiKey: string, backend: Request -> Response): (run: Run)
    ensures |run.requests| <= 1
    ensures apiKey == "" ==> run.report == JString(MissingKeyMessage) && run.requests == []
    ensures apiKey != "" ==> run.requests == [RequestFor(incident, apiKey)]
  {
    if apiKey == "" then
      Run(JString(MissingKeyMessage), [])
    else
      var request := RequestFor(incident, apiKey);
      var report := match CallOutcome(backend(request))
        case Some(text) => text
        case None => JString(FailureMessage);
      Run(report, [request])
  }

  /**
    With a key the report depends on the backend only through its answer to
    the one request: equal answers give equal runs.
   */
  lemma ReportDependsOnlyOnAnswer(incident: string, apiKey: string, b1: Request -> Response, b2: Request -> Response)
    requires apiKey != ""
    requires b1(RequestFor(incident, apiKey)) == b2(RequestFor(incident, apiKey))
    ensures AgentRootCauseAnalysis(incident, apiKey, b1) == AgentRootCauseAnalysis(incident, apiKey, b2)
  {
  }

  /**
    The request sent embeds the incident verbatim together with the knowledge
    record retrieved for the predicted category.
   */
  lemma SentPromptEmbedsIncidentAndKnowledge(incident: string, apiKey: string, backend: Request -> Response)
    requires apiKey != ""
    ensures var run := AgentRootCauseAnalysis(incident, apiKey, backend);
      |run.requests| == 1
      && var context := Retrieve(Label(PredictIncidentType(incident)));
      run.requests[0].body == RequestBody(BuildPrompt(incident, context))
      && Contains(BuildPrompt(incident, context), incident)
      && Contains(BuildPrompt(incident, context), context.title)
      && Contains(BuildPrompt(incident, context), context.content)
      && Contains(BuildPrompt(incident, context), context.actionableIntelligence)
  {
    PromptEmbedsInputs(incident, Retrieve(Label(PredictIncidentType(incident))));
  }

  /**
    Every failure after the key check — connection error, 4xx/5xx status,
    body that is not JSON, or no value at the text path — ends in the one
    fixed failure message.
   */
  lemma FailuresGiveFixedMessage(incident: string, apiKey: string, backend: Request -> Response)
    requires apiKey != ""
    requires var response := backend(RequestFor(incident, apiKey));
      response.ConnectionError?
      || IsHttpError(response.status)
      || response.body.None?
      || ExtractGeneratedText(response.body.value).None?
    ensures AgentRootCauseAnalysis(incident, apiKey, backend).report == JString(FailureMessage)
  {
  }

  /**
    A successful answer is returned unchanged: for any non-error status and
    JSON body with a value at the text path, whatever other fields the body
    carries and whatever kind of JSON value sits there.
   */
  lemma SuccessReturnsGeneratedText(incident: string, apiKey: string, backend: Request -> Response, text: Json)
    requires apiKey != ""
    requires var response := backend(RequestFor(incident, apiKey));
      response.HttpResponse? && !IsHttpError(response.status)
      && response.body.Some? && ExtractGeneratedText(response.body.value) == Some(text)
    ensures AgentRootCauseAnalysis(incident, apiKey, backend).report == text
  {
  }

  /** A worked description is classified as high latency. */
  lemma SlowPageLoadsIsHighLatency()
    ensures PredictIncidentType("users report slow page loads") == HighLatency
  {
    assert Lower("slow") == "slow";
    LatencyKeywordTakesPrecedence("users report ", "slow", " page loads");
    assert "users report " + "slow" + " page loads" == "users report slow page loads";
  }

  /**
    A worked run: for "users report slow page loads" the high-latency record
    goes into the one request sent, and a backend answering "Root cause: X"
    has that text returned.
   */
  lemma SlowPageLoadsExample(apiKey: string, backend: Request -> Response)
    requires apiKey != ""
    requires forall r :: backend(r) == HttpResponse(200, Some(ReplyWithText(JString("Root cause: X"))))
    ensures var incident := "users report slow page loads";
      var run := AgentRootCauseAnalysis(incident, apiKey, backend);
      run.report == JString("Root cause: X")
      && run.requests == [Request(apiKey, RequestBody(BuildPrompt(incident, HighLatencyRecord)))]
  {
    var incident := "users report slow page loads";
    SlowPageLoadsIsHighLatency();
    RetrieveByTag(HighLatency);
    assert RequestFor(incident, apiKey) == Request(apiKey, RequestBody(BuildPrompt(incident, HighLatencyRecord)));
    ExtractFromReply(JString("Root cause: X"));
  }

  /**
    The returned value alone does not tell success from failure: a backend
    whose text is the failure message produces the same report as a dropped
    connection.
   */
  lemma SuccessCanMimicFailure(incident: string, apiKey: string)
    requires apiKey != ""
    ensures var mimic := (r: Request) => HttpResponse(200, Some(ReplyWithText(JString(FailureMessage))));
      var broken := (r: Request) => ConnectionError;
      AgentRootCauseAnalysis(incident, apiKey, mimic).report == AgentRootCauseAnalysis(incident, apiKey, broken).report
  {
    ExtractFromReply(JString(FailureMessage));
  }

  // ---------------------------------------------------------------------------
  // The "Analyze Incident" button handler.

  /** What the page shows after the button is pressed. */
  datatype Screen = BlankInputWarning | MissingKeyError | Report(run: Run)

  /**
    The button branch of app.py:155-165.  The warning is shown exactly for a
    blank description.
   */
  function OnAnalyzeClicked(description: string, apiKey: string, backend: Request -> Response): (screen: Screen)
    ensures screen == BlankInputWarning <==> IsBlank(description)
  {
    StripEmptyIffBlank(description);
    if Strip(description) == [] then BlankInputWarning
    else if apiKey == "" then MissingKeyError
    else Report(AgentRootCauseAnalysis(description, apiKey, backend))
  }

  /**
    A blank description reaches no analysis; with a description and no key the
    page reports the missing key itself; otherwise the analysis runs on the
    description as typed, not stripped, and sends exactly one request, so its
    own missing-key branch is never reached from the page.
   */
  lemma ButtonGuard(description: string, apiKey: string, backend: Request -> Response)
    ensures IsBlank(description) ==> OnAnalyzeClicked(description, apiKey, backend) == BlankInputWarning
    ensures !IsBlank(description) && apiKey == "" ==> OnAnalyzeClicked(description, apiKey, backend) == MissingKeyError
    ensures !IsBlank(description) && apiKey != "" ==>
      OnAnalyzeClicked(description, apiKey, backend) == Report(AgentRootCauseAnalysis(description, apiKey, backend))
    ensures OnAnalyzeClicked(description, apiKey, backend).Report? ==>
      !IsBlank(description) && |OnAnalyzeClicked(description, apiKey, backend).run.requests| == 1
  {
    StripEmptyIffBlank(description);
  }
}
