/**
 * What both `WrapperBase` variants share: the part of `HttpContext` the middleware
 * reads and writes, the helpers of `AutoWrapperMembers` and the libraries whose code
 * is not part of this model (given as inputs), and the `try` block of
 * `InvokeAsyncBase`, which the two variants run alike up to what they record.
 *
 * The response is an `HttpExchange` object whose status code, started flag, body
 * stream and trace of calls the middleware updates in place. Everything the request
 * brings, and everything a helper answers, is a field of a `Host` value.
 */
module Pipeline {
  import opened Wrappers
  import opened WrapperOptions
  import opened JsonMasking

  /** Which stream `Response.Body` currently is. */
  datatype Sink = OriginalStream | MemoryBuffer

  /** The helpers of `AutoWrapperMembers` that act on the response, and the next middleware. */
  datatype Call =
    | Next
    | WrapIgnore
    | HandleSuccessful
    | HandleUnsuccessful
    | HandleProblemDetails
    | HandleProblemDetailsForException
    | HandleException
    | HandleNotApi
    | RevertResponseBody

  /** One observable thing the middleware does: a call, a warning, a run of `LogHttpRequest`. */
  datatype Event<L> = Invoked(call: Call) | Warned(message: string) | Logged(result: L)

  /** What the next middleware leaves behind: status, started flag, buffered text, thrown exception. */
  datatype Downstream = Downstream(status: int, started: bool, written: string, fault: Option<Exception>)

  /**
   * What a `Handle*Async` helper does: the `(statusCode, response)` pair it returns, the
   * status and started flag it leaves, the text the buffer then holds, and the exception
   * it throws, if any (the pair is then not returned).
   */
  datatype HandlerOutcome = HandlerOutcome(
    response: (int, string),
    status: int,
    started: bool,
    buffered: string,
    fault: Option<Exception>)

  /** `GetRequestBodyAsync`: the text (null for no body), or the exception it throws. */
  datatype BodyRead = BodyRead(text: Option<string>) | BodyReadFailed(error: Exception)

  /** The endpoint's metadata the middleware looks for. */
  datatype Endpoint = Endpoint(
    autoWrapIgnore: bool,
    requestDataLogIgnore: bool,
    responseDataLogIgnore: bool,
    ignoreLog: bool,
    customProperties: seq<(string, string)>)

  /** The request line, query and headers (each value a `StringValues`, i.e. a list of strings). */
  datatype Request = Request(
    clientIp: string,
    httpMethod: string,
    scheme: string,
    host: string,
    path: string,
    queryString: string,
    query: seq<(string, seq<string>)>,
    headers: seq<(string, seq<string>)>)

  /** What UAParser reports about a user agent. */
  datatype ClientInfo = ClientInfo(
    browser: string,
    browserMajor: string,
    browserMinor: string,
    os: string,
    osMajor: string,
    osMinor: string,
    device: string,
    deviceModel: string,
    deviceBrand: string)

  /**
   * One request as the middleware meets it, and the answers of every helper whose code
   * is not part of this model. `None` from `maskHeaders`, `parseUserAgent`,
   * `tryGetJToken`, `deserialize` or `parseDocument` means the call failed or threw.
   */
  datatype Host = Host(
    isSwagger: bool,
    isApi: bool,
    isExclude: bool,
    requestBody: BodyRead,
    downstream: Downstream,
    handle: Call -> HandlerOutcome,
    isRequestSuccessful: int -> bool,
    isHtml: string -> bool,
    underWrapPath: bool,
    endpoint: Option<Endpoint>,
    request: Request,
    responseHeaders: seq<(string, seq<string>)>,
    elapsed: nat,
    diagnostics: map<string, string>,
    tryGetJToken: string -> Option<Json>,
    maskToken: (Json, seq<string>, string) -> Json,
    render: Json -> string,
    maskHeaders: (seq<(string, seq<string>)>, seq<string>, string) -> Option<seq<(string, seq<string>)>>,
    parseUserAgent: string -> Option<ClientInfo>,
    deserialize: string -> Option<Json>,
    parseDocument: string -> Option<Json>)

  /** `HttpContext.Response` as the middleware changes it, with the record of what it did. */
  class HttpExchange<L> {
    var statusCode: int
    var hasStarted: bool
    var body: Sink
    var trace: seq<Event<L>>

    /** A response that has not started, writing to the server's stream, nothing done yet. */
    constructor (statusCode: int)
      ensures this.statusCode == statusCode && !hasStarted && body == OriginalStream && trace == []
    {
      this.statusCode := statusCode;
      hasStarted := false;
      body := OriginalStream;
      trace := [];
    }
  }

  /** The options the `try` block reads. */
  datatype WrapSettings = WrapSettings(
    isApiOnly: bool,
    bypassHtmlValidation: bool,
    ignoreWrapForOkRequests: bool,
    useApiProblemDetailsException: bool)

  /** The `return` statements of the `try` block, and falling off its end. */
  datatype TryExit = ResponseStarted | WrapIgnored | NotApiHtml | ProblemDetailsReturned | Completed

  /** How control leaves the `try` block: by a return, or by an exception into `catch`. */
  datatype Flow = Returned(exit: TryExit) | Raised(error: Exception)

  /** The state the `try` block leaves: exchange fields, calls made, and the locals it sets. */
  datatype TryState = TryState(
    flow: Flow,
    status: int,
    started: bool,
    sink: Sink,
    calls: seq<Call>,
    isRequestOk: bool,
    responseText: Option<string>,
    finalResponse: Option<(int, string)>)

  predicate AutoWrapIgnored(e: Option<Endpoint>)
  {
    e.Some? && e.value.autoWrapIgnore
  }

  /** The helpers that wrap a response after the next middleware returned. */
  predicate IsWrapHandler(c: Call)
  {
    c in {WrapIgnore, HandleSuccessful, HandleUnsuccessful, HandleProblemDetails, HandleNotApi}
  }

  /** The helpers that return a `(statusCode, response)` pair. */
  predicate ReturnsResponse(c: Call)
  {
    c in {HandleSuccessful, HandleUnsuccessful, HandleProblemDetails, HandleProblemDetailsForException, HandleException}
  }

  /** The wrap helper chosen once the request's success is known. */
  function WrapCall(isRequestOk: bool, s: WrapSettings): (c: Call)
    ensures c == WrapIgnore <==> isRequestOk && s.ignoreWrapForOkRequests
    ensures c == HandleSuccessful <==> isRequestOk && !s.ignoreWrapForOkRequests
    ensures c == HandleProblemDetails <==> !isRequestOk && s.useApiProblemDetailsException
    ensures c == HandleUnsuccessful <==> !isRequestOk && !s.useApiProblemDetailsException
  {
    if isRequestOk then
      if s.ignoreWrapForOkRequests then WrapIgnore else HandleSuccessful
    else
      if s.useApiProblemDetailsException then HandleProblemDetails else HandleUnsuccessful
  }

  /** The state after calling the helper `call`, which `o` describes. */
  function AfterHandler(o: HandlerOutcome, call: Call, isRequestOk: bool, text: string, exit: TryExit): TryState
  {
    TryState(
      if o.fault.Some? then Raised(o.fault.value) else Returned(exit),
      o.status, o.started, OriginalStream, [Next, call], isRequestOk, Some(text),
      if o.fault.None? && ReturnsResponse(call) then Some(o.response) else None)
  }

  /** True when an HTML body is checked for and found. */
  predicate HtmlBody(h: Host, s: WrapSettings, text: string)
  {
    h.isHtml(text) && !s.bypassHtmlValidation
  }

  /** The status after the HTML rewrite: a 200 HTML response becomes 404 unless the app is API-only. */
  function RewrittenStatus(h: Host, s: WrapSettings): int
  {
    var d := h.downstream;
    if !s.isApiOnly && HtmlBody(h, s, d.written) && d.status == 200 then 404 else d.status
  }

  /** The `try` block of `InvokeAsyncBase`, from the swap to the buffer to its exit. */
  function TryBlock(h: Host, s: WrapSettings): TryState
  {
    var d := h.downstream;
    if d.fault.Some? then
      TryState(Raised(d.fault.value), d.status, d.started, MemoryBuffer, [Next], false, None, None)
    else
      var ok := h.isRequestSuccessful(d.status);
      if d.started then
        TryState(Returned(ResponseStarted), d.status, true, MemoryBuffer, [Next], ok, None, None)
      else if AutoWrapIgnored(h.endpoint) then
        TryState(Returned(WrapIgnored), d.status, false, MemoryBuffer, [Next, RevertResponseBody], ok, None, None)
      else if d.status == 304 || d.status == 204 then
        TryState(Returned(Completed), d.status, false, OriginalStream, [Next], ok, Some(d.written), None)
      else WrapStage(h, s, ok)
  }

  /**
   * Lines 102-148, for a response the next middleware completed normally and that is
   * neither started, marked `AutoWrapIgnore`, 204 nor 304.
   */
  function WrapStage(h: Host, s: WrapSettings, ok: bool): (t: TryState)
    ensures |t.calls| >= 1 && t.calls[0] == Next
  {
    var text := h.downstream.written;
    var status := RewrittenStatus(h, s);
    if !h.underWrapPath && HtmlBody(h, s, text) && status == 200 then
      if |text| > 0 then AfterHandler(h.handle(HandleNotApi), HandleNotApi, ok, text, NotApiHtml)
      else TryState(Returned(NotApiHtml), status, false, OriginalStream, [Next], ok, Some(text), None)
    else
      var ok2 := h.isRequestSuccessful(status);
      var call := WrapCall(ok2, s);
      AfterHandler(h.handle(call), call, ok2, text,
        if call == HandleProblemDetails then ProblemDetailsReturned else Completed)
  }

  /** The trace entries for a sequence of calls. */
  function Invocations<L>(calls: seq<Call>): (r: seq<Event<L>>)
    ensures |r| == |calls|
    ensures forall i :: 0 <= i < |calls| ==> r[i] == Invoked(calls[i])
  {
    if calls == [] then [] else [Invoked(calls[0])] + Invocations(calls[1..])
  }

  /** Concatenation regroups freely; called to spare the solver the regrouping of traces. */
  lemma SeqAssociative<T>(a: seq<T>, b: seq<T>, c: seq<T>)
    ensures (a + b) + c == a + (b + c)
  {
  }

  /** Calls a helper: the exchange takes the status and started flag the helper leaves. */
  method CallHandler<L>(x: HttpExchange<L>, h: Host, call: Call) returns (o: HandlerOutcome)
    modifies x
    ensures o == h.handle(call)
    ensures x.statusCode == o.status && x.hasStarted == o.started && x.body == old(x.body)
    ensures x.trace == old(x.trace) + [Invoked(call)]
  {
    o := h.handle(call);
    x.trace := x.trace + [Invoked(call)];
    x.statusCode := o.status;
    x.hasStarted := o.started;
  }

  /**
   * The `try` block (lines 75-150 of the main variant): swap in a buffer, run the next
   * middleware, and pick the helper that wraps its response.
   */
  method RunTryBlock<L>(x: HttpExchange<L>, h: Host, s: WrapSettings)
    returns (flow: Flow, isRequestOk: bool, responseText: Option<string>, finalResponse: Option<(int, string)>)
    modifies x
    ensures var t := TryBlock(h, s);
      && flow == t.flow && isRequestOk == t.isRequestOk
      && responseText == t.responseText && finalResponse == t.finalResponse
      && x.statusCode == t.status && x.hasStarted == t.started && x.body == t.sink
      && x.trace == old(x.trace) + Invocations(t.calls)
  {
    ghost var t := TryBlock(h, s);
    ghost var start := x.trace;
    isRequestOk, responseText, finalResponse := false, None, None;
    x.body := MemoryBuffer;
    x.trace := x.trace + [Invoked(Next)];
    assert Invocations<L>([Next]) == [Invoked(Next)];
    var d := h.downstream;
    x.statusCode := d.status;
    x.hasStarted := d.started;
    if d.fault.Some? {
      flow := Raised(d.fault.value);
      return;
    }
    isRequestOk := h.isRequestSuccessful(x.statusCode);
    if x.hasStarted {
      flow := Returned(ResponseStarted);
      return;
    }
    if AutoWrapIgnored(h.endpoint) {
      x.trace := x.trace + [Invoked(RevertResponseBody)];
      assert Invocations<L>([Next, RevertResponseBody]) == [Invoked(Next), Invoked(RevertResponseBody)];
      SeqAssociative(start, [Event<L>.Invoked(Next)], [Invoked(RevertResponseBody)]);
      flow := Returned(WrapIgnored);
      return;
    }
    responseText := Some(d.written);
    x.body := OriginalStream;
    if x.statusCode != 304 && x.statusCode != 204 {
      assert t == WrapStage(h, s, isRequestOk);
      flow, isRequestOk, finalResponse := RunWrapStage(x, h, s, isRequestOk);
      assert Invocations<L>(t.calls) == [Invoked(Next)] + Invocations(t.calls[1..]);
      SeqAssociative(start, [Event<L>.Invoked(Next)], Invocations(t.calls[1..]));
    } else {
      flow := Returned(Completed);
    }
  }

  /** Lines 102-148: the HTML rewrite, the non-API return, and the wrap helper. */
  method RunWrapStage<L>(x: HttpExchange<L>, h: Host, s: WrapSettings, ok: bool)
    returns (flow: Flow, isRequestOk: bool, finalResponse: Option<(int, string)>)
    requires x.statusCode == h.downstream.status && !x.hasStarted
    modifies x
    ensures var t := WrapStage(h, s, ok);
      && flow == t.flow && isRequestOk == t.isRequestOk && finalResponse == t.finalResponse
      && x.statusCode == t.status && x.hasStarted == t.started && x.body == old(x.body)
      && x.trace == old(x.trace) + Invocations(t.calls[1..])
  {
    var text := h.downstream.written;
    isRequestOk, finalResponse := ok, None;
    if !s.isApiOnly && HtmlBody(h, s, text) && x.statusCode == 200 {
      x.statusCode := 404;
    }
    if !h.underWrapPath && HtmlBody(h, s, text) && x.statusCode == 200 {
      if |text| > 0 {
        var o := CallHandler(x, h, HandleNotApi);
        if o.fault.Some? {
          flow := Raised(o.fault.value);
          return;
        }
      }
      flow := Returned(NotApiHtml);
      return;
    }
    isRequestOk := h.isRequestSuccessful(x.statusCode);
    var call := WrapCall(isRequestOk, s);
    var o := CallHandler(x, h, call);
    if o.fault.Some? {
      flow := Raised(o.fault.value);
      return;
    }
    if call != WrapIgnore {
      finalResponse := Some(o.response);
    }
    flow := Returned(if call == HandleProblemDetails then ProblemDetailsReturned else Completed);
  }

  /** How many runs of `LogHttpRequest` a trace records. */
  function LogRuns<L>(events: seq<Event<L>>): nat
  {
    if events == [] then 0 else (if events[0].Logged? then 1 else 0) + LogRuns(events[1..])
  }

  lemma {:induction false} LogRunsAppend<L>(a: seq<Event<L>>, b: seq<Event<L>>)
    ensures LogRuns(a + b) == LogRuns(a) + LogRuns(b)
    decreases |a|
  {
    if a == [] {
      assert a + b == b;
    } else {
      assert (a + b)[1..] == a[1..] + b;
      LogRunsAppend(a[1..], b);
    }
  }

  /** A trace of calls and warnings records no run of `LogHttpRequest`. */
  lemma {:induction false} NoLogRuns<L>(events: seq<Event<L>>)
    requires forall i :: 0 <= i < |events| ==> !events[i].Logged?
    ensures LogRuns(events) == 0
    decreases |events|
  {
    if events != [] {
      NoLogRuns(events[1..]);
    }
  }

  // ---------------------------------------------------------------------------
  // Properties of the try block
  // ---------------------------------------------------------------------------

  /** The next middleware runs first, and at most one helper after it. */
  lemma NextThenAtMostOneHelper(h: Host, s: WrapSettings)
    ensures var t := TryBlock(h, s);
      1 <= |t.calls| <= 2 && t.calls[0] == Next
      && (|t.calls| == 2 ==> t.calls[1] != Next && t.calls[1] != HandleException
                             && t.calls[1] != HandleProblemDetailsForException)
  {
  }

  /** A 204 or 304 response from the next middleware is never wrapped. */
  lemma NoContentNeverWrapped(h: Host, s: WrapSettings)
    requires h.downstream.status == 204 || h.downstream.status == 304
    ensures var t := TryBlock(h, s);
      forall i :: 0 <= i < |t.calls| ==> !IsWrapHandler(t.calls[i])
  {
  }

  /**
   * A 200 HTML response of a non-API-only app becomes 404, and success is then judged
   * on 404: the helper is the one `WrapCall` picks for that verdict.
   */
  lemma HtmlBecomesNotFound(h: Host, s: WrapSettings)
    requires h.downstream.fault.None? && !h.downstream.started && !AutoWrapIgnored(h.endpoint)
    requires h.downstream.status == 200 && !s.isApiOnly && HtmlBody(h, s, h.downstream.written)
    ensures var t := TryBlock(h, s);
      && t.isRequestOk == h.isRequestSuccessful(404)
      && t.calls == [Next, WrapCall(h.isRequestSuccessful(404), s)]
  {
  }

  /** The conditions under which the `try` block reaches the wrap helpers (line 123). */
  predicate ReachesWrap(h: Host, s: WrapSettings)
  {
    var d := h.downstream;
    && d.fault.None? && !d.started && !AutoWrapIgnored(h.endpoint)
    && d.status != 304 && d.status != 204
    && !(!h.underWrapPath && HtmlBody(h, s, d.written) && RewrittenStatus(h, s) == 200)
  }

  /**
   * Branch selection: the `try` block calls a wrap helper after the next middleware
   * exactly when it reaches line 123, and then the one `WrapCall` picks for the
   * success of the (possibly rewritten) status; only the problem-details helper
   * returns early.
   */
  lemma WrapBranch(h: Host, s: WrapSettings)
    ensures var t := TryBlock(h, s);
      ReachesWrap(h, s) <==> (|t.calls| == 2 && IsWrapHandler(t.calls[1]) && t.calls[1] != HandleNotApi)
    ensures var t := TryBlock(h, s); var ok := h.isRequestSuccessful(RewrittenStatus(h, s));
      ReachesWrap(h, s) ==>
        && t.calls == [Next, WrapCall(ok, s)] && t.isRequestOk == ok
        && (h.handle(WrapCall(ok, s)).fault.None? ==>
              t.flow == Returned(if !ok && s.useApiProblemDetailsException then ProblemDetailsReturned else Completed))
  {
  }

  /**
   * A 200 HTML response outside the API path prefix is handed to `HandleNotApiRequestAsync`
   * only when the buffer holds something.
   */
  lemma NotApiHtmlResponse(h: Host, s: WrapSettings)
    requires h.downstream.fault.None? && !h.downstream.started && !AutoWrapIgnored(h.endpoint)
    requires h.downstream.status == 200 && s.isApiOnly && !h.underWrapPath
    requires HtmlBody(h, s, h.downstream.written)
    ensures var t := TryBlock(h, s);
      && t.calls == (if |h.downstream.written| > 0 then [Next, HandleNotApi] else [Next])
      && t.finalResponse.None?
  {
  }

  /**
   * The two early returns before line 97 leave `Response.Body` on the buffer; every
   * other return restores the server's stream.
   */
  lemma StartedAndIgnoredKeepBuffer(h: Host, s: WrapSettings)
    ensures var t := TryBlock(h, s);
      t.flow.Returned? ==> (t.sink == MemoryBuffer <==> t.flow.exit == ResponseStarted || t.flow.exit == WrapIgnored)
  {
  }

  /** A pair-returning helper of the `try` block that does not throw leaves its pair and returns. */
  lemma TryHelperPair(h: Host, s: WrapSettings)
    requires var t := TryBlock(h, s); |t.calls| == 2 && ReturnsResponse(t.calls[1])
    requires h.handle(TryBlock(h, s).calls[1]).fault.None?
    ensures var t := TryBlock(h, s);
      t.flow.Returned? && t.finalResponse == Some(h.handle(t.calls[1]).response)
  {
  }

  /** `finalResponse` is set only by a helper that returns a pair and does not throw. */
  lemma FinalResponseFromHelper(h: Host, s: WrapSettings)
    ensures var t := TryBlock(h, s);
      t.finalResponse.Some? ==>
        && |t.calls| == 2 && ReturnsResponse(t.calls[1]) && t.flow.Returned?
        && t.finalResponse.value == h.handle(t.calls[1]).response
  {
  }
}
