/**
 * The serverless optimisation endpoint (supabase/functions/ai-optimization/index.ts):
 * the CORS preflight, the API-key check, the prompt sent to the language model,
 * the per-action recommendation records and the success and error responses.
 *
 * The environment variable, the parsed request body, the language model's
 * answer and the clock's ISO timestamp are parameters.
 */
module AIOptimizationFunction {
  import opened Wrappers
  import opened Strings

  datatype DeviceInfo = DeviceInfo(isMobile: bool, connection: Option<string>, memory: Option<int>)

  /** The JSON `deviceInfo` member: absent, `null`, or an object. */
  datatype DeviceInfoField = Absent | Null | Given(info: DeviceInfo)

  /**
   * The request's `userBehavior`; every part of it may be absent from the JSON.
   * For the optional parts `null` behaves as absence, as `?.` and `||` treat both alike.
   */
  datatype UserBehavior = UserBehavior(
    scrollPattern: Option<seq<int>>,
    timeOnPage: Option<int>,
    deviceInfo: DeviceInfoField)

  datatype OptimizationRequest = OptimizationRequest(action: string, userBehavior: Option<UserBehavior>)

  /** `await req.json()`: a parsed body, or the parser's error message. */
  datatype RequestBody = Parsed(request: OptimizationRequest) | Malformed(message: string)

  /** The language model call: generated text, a non-ok HTTP answer, or a thrown error. */
  datatype Upstream = Generated(text: string) | NotOk(statusText: string) | Failed(message: string)

  /** The record the `switch` assigns to `optimizationResult`, one shape per known action. */
  datatype Optimization =
    | Prerender(shouldPrerender: bool, priority: seq<string>, cacheStrategy: string, lazyLoadThreshold: real)
    | CacheStrategy(staticAssets: string, dynamicContent: string, criticalCSS: string, fontsStrategy: string)
    | RouteOptimization(prefetchRoutes: seq<string>, bundleSplitting: string, compressionLevel: string)
    | PerformanceAnalysis(recommendations: seq<string>, aiInsights: string)

  /** The body of a successful answer; `optimization` is absent for an unknown action. */
  datatype SuccessData = SuccessData(optimization: Option<Optimization>, aiInsights: string, timestamp: string)

  datatype Body = NoBody | Success(data: SuccessData) | Error(error: string)

  datatype Response = Response(status: int, headers: map<string, string>, body: Body)

  /** What the handler answers, and the prompt it sent to the language model, if it got that far. */
  datatype Handled = Handled(response: Response, upstreamPrompt: Option<string>)

  const CorsHeaders: map<string, string> := map[
    "Access-Control-Allow-Origin" := "*",
    "Access-Control-Allow-Headers" := "authorization, x-client-info, apikey, content-type"
  ]

  const JsonHeaders: map<string, string> := CorsHeaders["Content-Type" := "application/json"]

  const MissingKeyMessage: string := "Gemini API key not configured"
  const DefaultErrorMessage: string := "An error occurred during AI optimization"
  /** The TypeError V8 raises for `userBehavior?.deviceInfo.isMobile` when `deviceInfo` is missing. */
  const MissingDeviceInfoMessage: string := "Cannot read properties of undefined (reading 'isMobile')"
  /** The TypeError V8 raises for `userBehavior?.deviceInfo.isMobile` when `deviceInfo` is `null`. */
  const NullDeviceInfoMessage: string := "Cannot read properties of null (reading 'isMobile')"

  const PerformanceRecommendations: seq<string> := [
    "Enable service worker for offline caching",
    "Implement image lazy loading with intersection observer",
    "Use CSS containment for layout optimization",
    "Enable compression for text assets"
  ]

  // ---------------------------------------------------------------------
  // The prompt

  /** The five values interpolated into the prompt template. */
  datatype PromptFields = PromptFields(device: string, connection: string, time: string, scroll: string, action: string)

  const Intro: string :=
    "\nYou are an AI optimization expert for a portfolio website. Based on the user behavior data:\n- Device: "
  const ConnectionLabel: string := "\n- Connection: "
  const TimeLabel: string := "\n- Time on page: "
  const ScrollLine: string := "\n- Scroll pattern: "
  /** The unit of the time on page, then the scroll line. */
  const ScrollLabel: string := "ms" + ScrollLine
  const ActionLabel: string := "\n\nAction requested: "
  const Outro: string :=
    "\n\nProvide optimization recommendations in JSON format with specific, actionable suggestions.\n"

  /** The template string of lines 36-46. */
  function BuildPrompt(f: PromptFields): (p: string)
    ensures IsPrefix(Intro, p)
    ensures EndsWith(p, f.action + Outro)
  {
    Intro + (f.device + (ConnectionLabel + (f.connection + (TimeLabel + (f.time + (ScrollLabel
      + (f.scroll + (ActionLabel + (f.action + Outro)))))))))
  }

  /** `scrollPattern?.join(',') || 'none'`: an absent or empty pattern reads "none". */
  function ScrollText(pattern: Option<seq<int>>): (r: string)
    ensures |r| > 0
    ensures pattern.Some? && |pattern.value| == 1 ==> r == IntToString(pattern.value[0])
  {
    match pattern
    case None => "none"
    case Some(xs) =>
      var joined := Join(Renderings(xs));
      if joined == "" then "none" else joined
  }

  /**
   * The prompt for a request, or `None` when building it throws: a present
   * `userBehavior` without `deviceInfo` is dereferenced at line 38.
   */
  function PromptFor(request: OptimizationRequest): (r: Option<string>)
    ensures r.Some? <==> request.userBehavior.None? || request.userBehavior.value.deviceInfo.Given?
    ensures r.Some? ==> IsPrefix(Intro, r.value) && EndsWith(r.value, request.action + Outro)
  {
    match request.userBehavior
    case None => Some(BuildPrompt(PromptFields("Desktop", "unknown", "0", "none", request.action)))
    case Some(ub) =>
      match ub.deviceInfo
      case Absent => None
      case Null => None
      case Given(info) =>
        var connection := info.connection.GetOr("");
        Some(BuildPrompt(PromptFields(
          if info.isMobile then "Mobile" else "Desktop",
          if connection == "" then "unknown" else connection,
          IntToString(ub.timeOnPage.GetOr(0)),
          ScrollText(ub.scrollPattern),
          request.action)))
  }

  // Reading a prompt back, to show that it determines the values it was built from.

  /** Splits at the first line break: the text before it and the rest from it on. */
  function TakeLine(s: string): (string, string)
    decreases |s|
  {
    if |s| == 0 || s[0] == '\n' then ("", s)
    else
      var (line, rest) := TakeLine(s[1..]);
      ([s[0]] + line, rest)
  }

  function DropPrefix(p: string, s: string): Option<string> {
    if IsPrefix(p, s) then Some(s[|p|..]) else None
  }

  function DropSuffix(s: string, suffix: string): Option<string> {
    if EndsWith(s, suffix) then Some(s[..|s| - |suffix|]) else None
  }

  /** Strips `heading` and takes the line after it: the value and the rest from the next line break on. */
  function Field(heading: string, p: string): Option<(string, string)> {
    match DropPrefix(heading, p)
    case None => None
    case Some(q) => Some(TakeLine(q))
  }

  /** Recovers the interpolated values from a prompt built by `BuildPrompt`. */
  function ParsePrompt(p: string): Option<PromptFields> {
    match Field(Intro, p)
    case None => None
    case Some((device, p2)) =>
      match ParseAfterDevice(p2)
      case None => None
      case Some((connection, time, scroll, action)) => Some(PromptFields(device, connection, time, scroll, action))
  }

  /** The prompt from the connection line on: connection, time, scroll text and action. */
  function ParseAfterDevice(p2: string): Option<(string, string, string, string)> {
    match Field(ConnectionLabel, p2)
    case None => None
    case Some((connection, p4)) =>
      match ParseAfterConnection(p4)
      case None => None
      case Some((time, scroll, action)) => Some((connection, time, scroll, action))
  }

  /** The prompt from the time line on: time, scroll text and action. */
  function ParseAfterConnection(p4: string): Option<(string, string, string)> {
    match Field(TimeLabel, p4)
    case None => None
    case Some((timeMs, p6)) =>
      match DropSuffix(timeMs, "ms")
      case None => None
      case Some(time) =>
        match ParseAfterTime(p6)
        case None => None
        case Some((scroll, action)) => Some((time, scroll, action))
  }

  /** The prompt from the scroll line on: scroll text and action. */
  function ParseAfterTime(p6: string): Option<(string, string)> {
    match Field(ScrollLine, p6)
    case None => None
    case Some((scroll, p8)) =>
      match DropPrefix(ActionLabel, p8)
      case None => None
      case Some(p9) =>
        match DropSuffix(p9, Outro)
        case None => None
        case Some(action) => Some((scroll, action))
  }

  // ---------------------------------------------------------------------
  // The handler

  /** The `switch (action)` of lines 78-116; no case matches an unknown action. */
  function OptimizationFor(action: string, userBehavior: Option<UserBehavior>, aiResponse: string): (r: Option<Optimization>)
    ensures r.Some? <==> action in {"prerender", "cache-strategy", "route-optimization", "performance-analysis"}
    ensures r.Some? ==>
      && (r.value.Prerender? <==> action == "prerender")
      && (r.value.CacheStrategy? <==> action == "cache-strategy")
      && (r.value.RouteOptimization? <==> action == "route-optimization")
      && (r.value.PerformanceAnalysis? <==> action == "performance-analysis")
    ensures r.Some? && r.value.PerformanceAnalysis? ==> r.value.aiInsights == aiResponse
  {
    if action == "prerender" then
      var mobile := userBehavior.Some? && userBehavior.value.deviceInfo.Given?
                    && userBehavior.value.deviceInfo.info.isMobile;
      Some(Prerender(true, ["about", "skills", "projects"], "aggressive", if mobile then 0.5 else 0.3))
    else if action == "cache-strategy" then
      Some(CacheStrategy("7d", "1h", "inline", "preload"))
    else if action == "route-optimization" then
      Some(RouteOptimization(["/about", "/projects"], "route-based", "high"))
    else if action == "performance-analysis" then
      Some(PerformanceAnalysis(PerformanceRecommendations, aiResponse))
    else None
  }

  /** The message of the TypeError that building the prompt throws, by what `deviceInfo` is. */
  function PromptError(request: OptimizationRequest): string {
    if request.userBehavior.Some? && request.userBehavior.value.deviceInfo.Null? then NullDeviceInfoMessage
    else MissingDeviceInfoMessage
  }

  /** The catch block: status 500 and `error.message`, or the default text when that is empty. */
  function ErrorResponse(message: string): (r: Response)
    ensures r.status == 500 && r.headers == JsonHeaders && r.body.Error?
    ensures r.body.error != ""
    ensures message != "" ==> r.body.error == message
  {
    Response(500, JsonHeaders, Error(if message == "" then DefaultErrorMessage else message))
  }

  /** The request handler of lines 23-136. */
  function Handle(httpMethod: string, apiKey: Option<string>, body: RequestBody, upstream: Upstream, timestamp: string): (h: Handled)
    ensures h.response.status in {200, 500}
    ensures h.response.status == 500 <==> h.response.body.Error?
    ensures h.response.body.Error? ==> h.response.body.error != "" && h.response.headers == JsonHeaders
    ensures h.upstreamPrompt.Some? ==> body.Parsed? && h.upstreamPrompt == PromptFor(body.request)
    ensures h.response.body.Success? ==>
      && h.upstreamPrompt.Some? && upstream.Generated?
      && h.response.body.data.aiInsights == upstream.text && h.response.body.data.timestamp == timestamp
  {
    if httpMethod == "OPTIONS" then
      Handled(Response(200, CorsHeaders, NoBody), None)
    else if apiKey.GetOr("") == "" then
      Handled(ErrorResponse(MissingKeyMessage), None)
    else
      match body
      case Malformed(message) => Handled(ErrorResponse(message), None)
      case Parsed(request) =>
        match PromptFor(request)
        case None => Handled(ErrorResponse(PromptError(request)), None)
        case Some(prompt) =>
          var response := match upstream
            case Failed(message) => ErrorResponse(message)
            case NotOk(statusText) => ErrorResponse("Gemini API error: " + statusText)
            case Generated(aiResponse) =>
              Response(200, JsonHeaders, Success(SuccessData(
                OptimizationFor(request.action, request.userBehavior, aiResponse), aiResponse, timestamp)));
          Handled(response, Some(prompt))
  }

  // ---------------------------------------------------------------------
  // Properties of the prompt

  lemma {:induction false} TakeLineAt(a: string, b: string)
    requires '\n' !in a
    requires b == "" || b[0] == '\n'
    ensures TakeLine(a + b) == (a, b)
    decreases |a|
  {
    if |a| == 0 {
      assert a + b == b;
    } else {
      assert (a + b)[1..] == a[1..] + b;
      TakeLineAt(a[1..], b);
      assert [a[0]] + a[1..] == a;
    }
  }

  lemma DropPrefixOf(p: string, s: string)
    ensures DropPrefix(p, p + s) == Some(s)
  {
    assert (p + s)[..|p|] == p;
    assert (p + s)[|p|..] == s;
  }

  lemma DropSuffixOf(s: string, suffix: string)
    ensures DropSuffix(s + suffix, suffix) == Some(s)
  {
    assert (s + suffix)[|s|..] == suffix;
    assert (s + suffix)[..|s|] == s;
  }

  lemma FieldOf(heading: string, v: string, rest: string)
    requires '\n' !in v
    requires rest == "" || rest[0] == '\n'
    ensures Field(heading, heading + (v + rest)) == Some((v, rest))
  {
    DropPrefixOf(heading, v + rest);
    TakeLineAt(v, rest);
  }

  /** A prompt gives back the values it was built from, when none but the action spans lines. */
  lemma ParseBuildPrompt(f: PromptFields)
    requires '\n' !in f.device && '\n' !in f.connection && '\n' !in f.time && '\n' !in f.scroll
    ensures ParsePrompt(BuildPrompt(f)) == Some(f)
  {
    var r2 := ConnectionLabel + (f.connection + (TimeLabel + (f.time + (ScrollLabel
      + (f.scroll + (ActionLabel + (f.action + Outro)))))));
    assert ConnectionLabel[0] == '\n';
    FieldOf(Intro, f.device, r2);
    ParseAfterDeviceOf(f.connection, f.time, f.scroll, f.action);
  }

  lemma ParseAfterDeviceOf(connection: string, time: string, scroll: string, action: string)
    requires '\n' !in connection && '\n' !in time && '\n' !in scroll
    ensures ParseAfterDevice(ConnectionLabel + (connection + (TimeLabel + (time + (ScrollLabel
      + (scroll + (ActionLabel + (action + Outro)))))))) == Some((connection, time, scroll, action))
  {
    var r4 := TimeLabel + (time + (ScrollLabel + (scroll + (ActionLabel + (action + Outro)))));
    assert TimeLabel[0] == '\n';
    FieldOf(ConnectionLabel, connection, r4);
    ParseAfterConnectionOf(time, scroll, action);
  }

  lemma ParseAfterConnectionOf(time: string, scroll: string, action: string)
    requires '\n' !in time && '\n' !in scroll
    ensures ParseAfterConnection(TimeLabel + (time + (ScrollLabel + (scroll + (ActionLabel + (action + Outro))))))
      == Some((time, scroll, action))
  {
    var r6 := ScrollLine + (scroll + (ActionLabel + (action + Outro)));
    assert time + (ScrollLabel + (scroll + (ActionLabel + (action + Outro)))) == (time + "ms") + r6;
    assert ScrollLine[0] == '\n';
    assert '\n' !in time + "ms";
    FieldOf(TimeLabel, time + "ms", r6);
    DropSuffixOf(time, "ms");
    ParseAfterTimeOf(scroll, action);
  }

  lemma ParseAfterTimeOf(scroll: string, action: string)
    requires '\n' !in scroll
    ensures ParseAfterTime(ScrollLine + (scroll + (ActionLabel + (action + Outro)))) == Some((scroll, action))
  {
    var r8 := ActionLabel + (action + Outro);
    assert ActionLabel[0] == '\n';
    FieldOf(ScrollLine, scroll, r8);
    DropPrefixOf(ActionLabel, action + Outro);
    DropSuffixOf(action, Outro);
  }

  /** The decimal renderings of a scroll pattern, one per position. */
  function Renderings(xs: seq<int>): (r: seq<string>)
    ensures |r| == |xs|
    ensures forall i :: 0 <= i < |xs| ==> r[i] == IntToString(xs[i])
  {
    seq(|xs|, i requires 0 <= i < |xs| => IntToString(xs[i]))
  }

  /** Reads a comma-joined scroll pattern back into positions. */
  function ParseScroll(s: string): seq<Option<int>> {
    var pieces := Split(s);
    seq(|pieces|, i requires 0 <= i < |pieces| => ParseInt(pieces[i]))
  }

  /**
   * An absent or empty scroll pattern reads "none"; any other pattern is
   * comma-joined, never reads "none", and gives back its positions in order.
   */
  lemma ScrollTextReadsBack(pattern: Option<seq<int>>)
    ensures pattern.None? || pattern.value == [] ==> ScrollText(pattern) == "none"
    ensures pattern.Some? && pattern.value != [] ==>
      && ScrollText(pattern) != "none"
      && '\n' !in ScrollText(pattern)
      && ParseScroll(ScrollText(pattern)) == seq(|pattern.value|, i requires 0 <= i < |pattern.value| => Some(pattern.value[i]))
  {
    if pattern.Some? && pattern.value != [] {
      var xs := pattern.value;
      var strs := Renderings(xs);
      forall i | 0 <= i < |strs| ensures ',' !in strs[i] && '\n' !in strs[i] && 'n' !in strs[i] {
      }
      JoinFacts(strs);
      SplitJoin(strs);
      assert 'n' in "none";
      forall i | 0 <= i < |xs| ensures ParseInt(strs[i]) == Some(xs[i]) {
        IntToStringRoundTrip(xs[i]);
      }
    }
  }

  /** A join of non-empty pieces is non-empty and has only the pieces' characters and commas. */
  lemma {:induction false} JoinFacts(strs: seq<string>)
    requires |strs| >= 1
    requires forall i :: 0 <= i < |strs| ==> |strs[i]| > 0 && '\n' !in strs[i] && 'n' !in strs[i]
    ensures Join(strs) != "" && '\n' !in Join(strs) && 'n' !in Join(strs)
    decreases |strs|
  {
    if |strs| > 1 {
      JoinFacts(strs[1..]);
    }
  }

  /** Without `userBehavior` the prompt reads back as a desktop with no data. */
  lemma DefaultFieldsReadBack(action: string)
    ensures var f := PromptFields("Desktop", "unknown", "0", "none", action);
      ParsePrompt(BuildPrompt(f)) == Some(f) && ParseInt(f.time) == Some(0)
  {
    assert '\n' !in "Desktop" && '\n' !in "unknown" && '\n' !in "0" && '\n' !in "none";
    ParseBuildPrompt(PromptFields("Desktop", "unknown", "0", "none", action));
    IntToStringRoundTrip(0);
    assert IntToString(0) == "0";
  }

  /** The fields written for a present `deviceInfo` read back from the prompt. */
  lemma BehaviorFieldsReadBack(info: DeviceInfo, ub: UserBehavior, action: string)
    requires '\n' !in info.connection.GetOr("")
    ensures var connection := info.connection.GetOr("");
      var f := PromptFields(
        if info.isMobile then "Mobile" else "Desktop",
        if connection == "" then "unknown" else connection,
        IntToString(ub.timeOnPage.GetOr(0)), ScrollText(ub.scrollPattern), action);
      && ParsePrompt(BuildPrompt(f)) == Some(f)
      && ParseInt(f.time) == Some(ub.timeOnPage.GetOr(0))
  {
    var connection := info.connection.GetOr("");
    var time := IntToString(ub.timeOnPage.GetOr(0));
    ScrollTextReadsBack(ub.scrollPattern);
    assert '\n' !in time;
    assert '\n' !in "Mobile" && '\n' !in "Desktop" && '\n' !in "unknown" && '\n' !in "none";
    ParseBuildPrompt(PromptFields(
      if info.isMobile then "Mobile" else "Desktop",
      if connection == "" then "unknown" else connection,
      time, ScrollText(ub.scrollPattern), action));
    IntToStringRoundTrip(ub.timeOnPage.GetOr(0));
  }

  /**
   * What the prompt says: "Mobile" exactly for a mobile device, the connection
   * or "unknown", the time on page or 0, and the scroll text.
   */
  lemma PromptReadsBack(request: OptimizationRequest)
    requires request.userBehavior.Some? ==> request.userBehavior.value.deviceInfo.Given?
    requires request.userBehavior.Some? ==> '\n' !in request.userBehavior.value.deviceInfo.info.connection.GetOr("")
    ensures PromptFor(request).Some?
    ensures var f := ParsePrompt(PromptFor(request).value);
      && f.Some?
      && (f.value.device == "Mobile" <==>
            request.userBehavior.Some? && request.userBehavior.value.deviceInfo.info.isMobile)
      && (f.value.device == "Mobile" || f.value.device == "Desktop")
      && f.value.connection == (
          if request.userBehavior.None? || request.userBehavior.value.deviceInfo.info.connection.GetOr("") == ""
          then "unknown" else request.userBehavior.value.deviceInfo.info.connection.value)
      && ParseInt(f.value.time) == Some(if request.userBehavior.None? then 0 else request.userBehavior.value.timeOnPage.GetOr(0))
      && f.value.scroll == ScrollText(if request.userBehavior.None? then None else request.userBehavior.value.scrollPattern)
      && f.value.action == request.action
  {
    match request.userBehavior {
      case None =>
        DefaultFieldsReadBack(request.action);
      case Some(ub) =>
        var info := ub.deviceInfo.info;
        var connection := info.connection.GetOr("");
        assert PromptFor(request) == Some(BuildPrompt(PromptFields(
          if info.isMobile then "Mobile" else "Desktop",
          if connection == "" then "unknown" else connection,
          IntToString(ub.timeOnPage.GetOr(0)), ScrollText(ub.scrollPattern), request.action)));
        BehaviorFieldsReadBack(info, ub, request.action);
    }
  }

  // ---------------------------------------------------------------------
  // Properties of the handler

  /** A preflight gets an empty answer with the CORS headers; no key check, no model call. */
  lemma OptionsPreflight(apiKey: Option<string>, body: RequestBody, upstream: Upstream, timestamp: string)
    ensures Handle("OPTIONS", apiKey, body, upstream, timestamp) == Handled(Response(200, CorsHeaders, NoBody), None)
  {
  }

  /** Without a (non-empty) key every other request fails with 500 before the model is called. */
  lemma MissingKeyFails(httpMethod: string, apiKey: Option<string>, body: RequestBody, upstream: Upstream, timestamp: string)
    requires httpMethod != "OPTIONS" && apiKey.GetOr("") == ""
    ensures Handle(httpMethod, apiKey, body, upstream, timestamp)
      == Handled(Response(500, JsonHeaders, Error(MissingKeyMessage)), None)
  {
  }

  /**
   * A `userBehavior` whose `deviceInfo` is absent or `null` makes the prompt
   * throw: 500 with V8's message for `undefined` or `null`, and no model call.
   */
  lemma DeviceInfoMissingFails(httpMethod: string, key: string, request: OptimizationRequest, upstream: Upstream, timestamp: string)
    requires httpMethod != "OPTIONS" && key != ""
    requires request.userBehavior.Some? && !request.userBehavior.value.deviceInfo.Given?
    ensures Handle(httpMethod, Some(key), Parsed(request), upstream, timestamp) == Handled(Response(500, JsonHeaders, Error(
      if request.userBehavior.value.deviceInfo.Null? then NullDeviceInfoMessage else MissingDeviceInfoMessage)), None)
  {
  }

  /**
   * Once the key is present and the body parsed, the prompt built from the
   * body is sent; a failed or non-ok model call answers 500 with an `error`.
   */
  lemma UpstreamFailureFails(httpMethod: string, key: string, request: OptimizationRequest, upstream: Upstream, timestamp: string)
    requires httpMethod != "OPTIONS" && key != "" && PromptFor(request).Some?
    ensures var h := Handle(httpMethod, Some(key), Parsed(request), upstream, timestamp);
      && h.upstreamPrompt == PromptFor(request)
      && (!upstream.Generated? ==> h.response.status == 500 && h.response.body.Error? && h.response.body.error != "")
      && (upstream.NotOk? ==> h.response.body == Error("Gemini API error: " + upstream.statusText))
  {
  }

  /**
   * With generated text the answer is 200, JSON with CORS, `success` with the
   * action's record, the text as `aiInsights` and the clock's timestamp.
   */
  lemma GeneratedSucceeds(httpMethod: string, key: string, request: OptimizationRequest, text: string, timestamp: string)
    requires httpMethod != "OPTIONS" && key != "" && PromptFor(request).Some?
    ensures Handle(httpMethod, Some(key), Parsed(request), Generated(text), timestamp).response
      == Response(200, JsonHeaders, Success(SuccessData(
           OptimizationFor(request.action, request.userBehavior, text), text, timestamp)))
  {
  }

  /** "prerender": prerender the three sections aggressively; threshold 0.5 on mobile, else 0.3. */
  lemma PrerenderRecord(userBehavior: Option<UserBehavior>, text: string)
    ensures var mobile := userBehavior.Some? && userBehavior.value.deviceInfo.Given?
                          && userBehavior.value.deviceInfo.info.isMobile;
      OptimizationFor("prerender", userBehavior, text)
        == Some(Prerender(true, ["about", "skills", "projects"], "aggressive", if mobile then 0.5 else 0.3))
  {
  }

  /** "cache-strategy" and "route-optimization" give their fixed records, whatever the model said. */
  lemma FixedRecords(userBehavior: Option<UserBehavior>, text: string)
    ensures OptimizationFor("cache-strategy", userBehavior, text) == Some(CacheStrategy("7d", "1h", "inline", "preload"))
    ensures OptimizationFor("route-optimization", userBehavior, text)
      == Some(RouteOptimization(["/about", "/projects"], "route-based", "high"))
  {
  }

  /** "performance-analysis": the four fixed recommendations in order, and the model's text. */
  lemma AnalysisRecord(userBehavior: Option<UserBehavior>, text: string)
    ensures var o := OptimizationFor("performance-analysis", userBehavior, text);
      o.Some? && o.value.PerformanceAnalysis? && o.value.aiInsights == text
      && o.value.recommendations == PerformanceRecommendations
      && |o.value.recommendations| == 4
      && o.value.recommendations[0] == "Enable service worker for offline caching"
      && o.value.recommendations[3] == "Enable compression for text assets"
  {
  }

  /** Any other action still succeeds, without an `optimization` field. */
  lemma UnknownActionHasNoRecord(httpMethod: string, key: string, request: OptimizationRequest, text: string, timestamp: string)
    requires httpMethod != "OPTIONS" && key != "" && PromptFor(request).Some?
    requires request.action !in {"prerender", "cache-strategy", "route-optimization", "performance-analysis"}
    ensures var r := Handle(httpMethod, Some(key), Parsed(request), Generated(text), timestamp).response;
      r.status == 200 && r.body.Success? && r.body.data.optimization.None?
  {
  }

  /** The model is asked exactly when the request got past the preflight, the key, the body and the prompt. */
  lemma UpstreamCalledOnlyWithPrompt(httpMethod: string, apiKey: Option<string>, body: RequestBody, upstream: Upstream, timestamp: string)
    ensures Handle(httpMethod, apiKey, body, upstream, timestamp).upstreamPrompt.Some? <==>
      httpMethod != "OPTIONS" && apiKey.GetOr("") != "" && body.Parsed? && PromptFor(body.request).Some?
    ensures Handle(httpMethod, apiKey, body, upstream, timestamp).response.status in {200, 500}
  {
  }
}
