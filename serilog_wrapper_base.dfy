/**
 * The Serilog flavour of `WrapperBase` (src/AutoWrapper.Plus.Serilog/Base/WrapperBase.cs).
 *
 * It runs the same `try` block as the main variant (module `Pipeline`), but:
 * only swagger and non-API requests are bypassed; a failure to read the request body
 * escapes; the already-started path logs from inside the `try`/`catch` block as well as
 * from `finally`; the record is gated by two boolean switches and carries anonymous
 * request/response objects; the logged response body is the text captured from the
 * next middleware; and the level depends on the status code alone.
 */
module SerilogWrapperBase {
  import opened Wrappers
  import opened Text
  import opened JsonMasking
  import opened WrapperOptions
  import opened Pipeline
  import WrapperBase

  // ---------------------------------------------------------------------------
  // Options
  // ---------------------------------------------------------------------------

  /**
   * The options this variant reads. The first four come from `OptionBase`, whose code is
   * not part of this model; the rest are declared in the variant's `AutoWrapperOptions`.
   */
  datatype SerilogOptions = SerilogOptions(
    isApiOnly: bool,
    bypassHtmlValidation: bool,
    enableResponseLogging: bool,
    enableExceptionLogging: bool,
    useApiProblemDetailsException: bool,
    swaggerPath: string,
    ignoreWrapForOkRequests: bool,
    logRequestDataOnException: bool,
    logResponseDataOnException: bool,
    shouldLogRequestData: bool,
    shouldLogResponseData: bool,
    maskedProperties: seq<string>,
    maskFormat: string,
    responseBodyTextLengthLogLimit: int,
    requestBodyTextLengthLogLimit: int)

  /** A freshly constructed options object, given the `OptionBase` switches. */
  function DefaultSerilogOptions(isApiOnly: bool, bypassHtmlValidation: bool,
                                 enableResponseLogging: bool, enableExceptionLogging: bool): (o: SerilogOptions)
    ensures o.isApiOnly == isApiOnly && o.bypassHtmlValidation == bypassHtmlValidation
    ensures o.enableResponseLogging == enableResponseLogging && o.enableExceptionLogging == enableExceptionLogging
    ensures !o.useApiProblemDetailsException && !o.ignoreWrapForOkRequests && o.swaggerPath == "/swagger"
    ensures o.logRequestDataOnException && o.logResponseDataOnException
    ensures o.shouldLogRequestData && !o.shouldLogResponseData
    ensures o.maskedProperties ==
      ["*password*", "*token*", "*clientsecret*", "*bearer*", "*authorization*", "*client-secret*", "*otp"]
    ensures o.maskFormat == "*** MASKED ***"
    ensures o.requestBodyTextLengthLogLimit == 4000 && o.responseBodyTextLengthLogLimit == 4000
  {
    SerilogOptions(
      isApiOnly, bypassHtmlValidation, enableResponseLogging, enableExceptionLogging,
      false, "/swagger", false, true, true, true, false,
      ["*password*", "*token*", "*clientsecret*", "*bearer*", "*authorization*", "*client-secret*", "*otp"],
      "*** MASKED ***", 4000, 4000)
  }

  function Settings(o: SerilogOptions): WrapSettings
  {
    WrapSettings(o.isApiOnly, o.bypassHtmlValidation, o.ignoreWrapForOkRequests, o.useApiProblemDetailsException)
  }

  // ---------------------------------------------------------------------------
  // LogHttpRequest (lines 153-252)
  // ---------------------------------------------------------------------------

  /** Lines 153-162. */
  predicate ShouldLogRequestData(o: SerilogOptions, e: Option<Endpoint>)
  {
    o.shouldLogRequestData && !(e.Some? && e.value.requestDataLogIgnore)
  }

  /** Lines 164-173. */
  predicate ShouldLogResponseData(o: SerilogOptions, e: Option<Endpoint>)
  {
    o.shouldLogResponseData && !(e.Some? && e.value.responseDataLogIgnore)
  }

  /** Line 181: a record is written at all. */
  predicate RecordEnabled(o: SerilogOptions, isRequestOk: bool)
  {
    o.enableResponseLogging || (!isRequestOk && o.enableExceptionLogging)
  }

  /** Line 185: the request-body channel; a failure opens it through `LogResponseDataOnException`. */
  predicate RequestBodyGate(o: SerilogOptions, e: Option<Endpoint>, isRequestOk: bool)
  {
    ShouldLogRequestData(o, e) || (!isRequestOk && o.logResponseDataOnException)
  }

  /** Line 215: the response-body channel. */
  predicate ResponseBodyGate(o: SerilogOptions, e: Option<Endpoint>, isRequestOk: bool)
  {
    ShouldLogResponseData(o, e) || (!isRequestOk && o.logResponseDataOnException)
  }

  /** Reading `Length` of a null string. */
  const NullReference := Exception("System.NullReferenceException", "Object reference not set to an instance of an object.")

  /**
   * Lines 188 and 217: `text.MaskFields(MaskedProperties, MaskFormat)` with every
   * exception swallowed; a rewritten document is logged as the JSON library renders it.
   */
  function MaskedText(h: Host, o: SerilogOptions, text: string): string
  {
    match MaskFieldsOutcome(Some(text), Some(o.maskedProperties), o.maskFormat, h.deserialize(text))
    case Rewritten(doc) => h.render(doc)
    case _ => text
  }

  /**
   * Lines 188-192 and 217-221: a body is masked, then either cut to the limit (and given
   * no structured object) or parsed with `JsonDocument.Parse` (a parse failure leaves
   * no object). A null body throws on `.Length`; a negative limit throws in `Substring`.
   */
  function BodyFor(h: Host, o: SerilogOptions, text: Option<string>, limit: int): (r: Result<WrapperBase.BodyLog, Exception>)
    ensures r.Failure? <==> text.None? || limit < 0
    ensures r.Failure? ==> r.error == (if text.None? then NullReference else WrapperBase.ArgumentOutOfRange)
    ensures r.Success? ==>
      var masked := MaskedText(h, o, text.value);
      && r.value.text.Some?
      && |r.value.text.value| == WrapperBase.Min(|masked|, limit)
      && r.value.text.value == masked[..|r.value.text.value|]
      && (r.value.obj.Some? ==> r.value.text.value == masked && r.value.obj == h.parseDocument(masked))
    ensures r.Success? && |MaskedText(h, o, text.value)| <= limit ==>
      r.value.obj == h.parseDocument(MaskedText(h, o, text.value))
  {
    if text.None? then Failure(NullReference)
    else
      var masked := MaskedText(h, o, text.value);
      if |masked| > limit then
        match WrapperBase.Truncate(masked, limit)
        case Failure(e) => Failure(e)
        case Success(cut) => Success(WrapperBase.BodyLog(Some(cut), None))
      else Success(WrapperBase.BodyLog(Some(masked), h.parseDocument(masked)))
  }

  /** The anonymous `requestData` object (lines 199-210). */
  datatype RequestData = RequestData(
    clientIp: string,
    httpMethod: string,
    scheme: string,
    host: string,
    path: string,
    queryString: string,
    query: seq<(string, seq<string>)>,
    bodyString: Option<string>,
    body: Option<Json>)

  /** The anonymous `responseData` object (lines 228-234). */
  datatype ResponseData = ResponseData(
    statusCode: int,
    elapsedMilliseconds: nat,
    bodyString: Option<string>,
    body: Option<Json>)

  /** What one run of `LogHttpRequest` does: nothing, one `Write`, or an exception. */
  datatype LogResult =
    | Skipped
    | Written(level: LogEventLevel, exception: Option<Exception>, template: string,
              request: RequestData, response: ResponseData)
    | Threw(error: Exception)

  /** Lines 254-255. */
  const RequestCompletionTemplate: string := "HTTP Request Completed {@Context}"

  /** Lines 236-244: the level follows the status code only. */
  function SerilogLevel(statusCode: int): (level: LogEventLevel)
    ensures level == Error <==> statusCode >= 500
    ensures level == Warning <==> 400 <= statusCode < 500
    ensures level == Information <==> statusCode < 400
  {
    if statusCode >= 500 then Error
    else if statusCode >= 400 then Warning
    else Information
  }

  /** The arguments of `LogHttpRequest`, which are also the locals `finally` reads. */
  datatype LogArgs = LogArgs(
    requestBody: Option<string>,
    responseBody: Option<string>,
    isRequestOk: bool,
    ex: Option<Exception>)

  /** Lines 183-210: the request object, or the exception building it throws. */
  function RequestDataFor(h: Host, o: SerilogOptions, a: LogArgs): Result<RequestData, Exception>
  {
    var q := h.request;
    var logged :=
      if RequestBodyGate(o, h.endpoint, a.isRequestOk) && !IsNullOrWhiteSpace(a.requestBody)
      then BodyFor(h, o, a.requestBody, o.requestBodyTextLengthLogLimit)
      else Success(WrapperBase.BodyLog(None, None));
    match logged
    case Failure(e) => Failure(e)
    case Success(b) =>
      Success(RequestData(q.clientIp, q.httpMethod, q.scheme, q.host, q.path, q.queryString, q.query, b.text, b.obj))
  }

  /** Lines 213-234: the response object at `status`, or the exception building it throws. */
  function ResponseDataFor(h: Host, o: SerilogOptions, a: LogArgs, status: int): Result<ResponseData, Exception>
  {
    var logged :=
      if ResponseBodyGate(o, h.endpoint, a.isRequestOk)
      then BodyFor(h, o, a.responseBody, o.responseBodyTextLengthLogLimit)
      else Success(WrapperBase.BodyLog(None, None));
    match logged
    case Failure(e) => Failure(e)
    case Success(b) => Success(ResponseData(status, h.elapsed, b.text, b.obj))
  }

  /** Lines 176-252, with the response at `status`. */
  function LogHttpRequest(h: Host, o: SerilogOptions, a: LogArgs, status: int): LogResult
  {
    if !RecordEnabled(o, a.isRequestOk) then Skipped
    else
      match RequestDataFor(h, o, a)
      case Failure(e) => Threw(e)
      case Success(request) =>
        match ResponseDataFor(h, o, a, status)
        case Failure(e) => Threw(e)
        case Success(response) =>
          Written(SerilogLevel(status), a.ex, RequestCompletionTemplate, request, response)
  }

  // ---------------------------------------------------------------------------
  // Properties of LogHttpRequest
  // ---------------------------------------------------------------------------

  /**
   * A record is skipped exactly when neither switch lets it through; one that is
   * written has the status-only level, the exception passed in, the completion
   * template, the request line as received, and the response's status and time.
   */
  lemma RecordShape(h: Host, o: SerilogOptions, a: LogArgs, status: int)
    ensures var r := LogHttpRequest(h, o, a, status);
      r.Skipped? <==> !RecordEnabled(o, a.isRequestOk)
    ensures var r := LogHttpRequest(h, o, a, status);
      r.Written? ==>
        && r.level == SerilogLevel(status) && r.exception == a.ex
        && r.template == RequestCompletionTemplate
        && r.request.httpMethod == h.request.httpMethod && r.request.path == h.request.path
        && r.request.query == h.request.query
        && r.response.statusCode == status && r.response.elapsedMilliseconds == h.elapsed
  {
  }

  /**
   * A written record carries a request body exactly when the request channel is open
   * and the body is not blank, and a response body exactly when the response channel
   * is open.
   */
  lemma BodiesLoggedIff(h: Host, o: SerilogOptions, a: LogArgs, status: int)
    requires LogHttpRequest(h, o, a, status).Written?
    ensures var r := LogHttpRequest(h, o, a, status);
      r.request.bodyString.Some? <==>
        RequestBodyGate(o, h.endpoint, a.isRequestOk) && !IsNullOrWhiteSpace(a.requestBody)
    ensures var r := LogHttpRequest(h, o, a, status);
      r.response.bodyString.Some? <==> ResponseBodyGate(o, h.endpoint, a.isRequestOk)
  {
    var open := RequestBodyGate(o, h.endpoint, a.isRequestOk) && !IsNullOrWhiteSpace(a.requestBody);
    if open {
      var b := BodyFor(h, o, a.requestBody, o.requestBodyTextLengthLogLimit);
      assert b.Success? && b.value.text.Some?;
    }
    if ResponseBodyGate(o, h.endpoint, a.isRequestOk) {
      var b := BodyFor(h, o, a.responseBody, o.responseBodyTextLengthLogLimit);
      assert b.Success? && b.value.text.Some?;
    }
  }

  /**
   * `LogHttpRequest` throws exactly when a record is due and either the request body is
   * logged with a negative limit, or the response body is logged while it is null or its
   * limit is negative. The request object is built first, so its exception wins.
   */
  lemma ThrowsIff(h: Host, o: SerilogOptions, a: LogArgs, status: int)
    ensures var r := LogHttpRequest(h, o, a, status);
      var requestFails := RequestBodyGate(o, h.endpoint, a.isRequestOk) && !IsNullOrWhiteSpace(a.requestBody)
                          && o.requestBodyTextLengthLogLimit < 0;
      var responseFails := ResponseBodyGate(o, h.endpoint, a.isRequestOk)
                           && (a.responseBody.None? || o.responseBodyTextLengthLogLimit < 0);
      && (r.Threw? <==> RecordEnabled(o, a.isRequestOk) && (requestFails || responseFails))
      && (r.Threw? && requestFails ==> r.error == WrapperBase.ArgumentOutOfRange)
      && (r.Threw? && !requestFails && a.responseBody.None? ==> r.error == NullReference)
  {
    if RequestBodyGate(o, h.endpoint, a.isRequestOk) && !IsNullOrWhiteSpace(a.requestBody) {
      assert a.requestBody.Some?;
    }
  }

  /** Throwing does not depend on the exception passed in. */
  lemma ThrowingIgnoresException(h: Host, o: SerilogOptions, a: LogArgs, status: int, ex: Option<Exception>)
    ensures LogHttpRequest(h, o, a.(ex := ex), status).Threw? <==> LogHttpRequest(h, o, a, status).Threw?
    ensures LogHttpRequest(h, o, a, status).Threw? ==>
      LogHttpRequest(h, o, a.(ex := ex), status) == LogHttpRequest(h, o, a, status)
  {
    assert RequestDataFor(h, o, a.(ex := ex)) == RequestDataFor(h, o, a);
    assert ResponseDataFor(h, o, a.(ex := ex), status) == ResponseDataFor(h, o, a, status);
  }

  /**
   * The level is the default level of `AutoWrapperOptions` for a request without an
   * exception, and an exception never raises it above that default.
   */
  lemma LevelBelowDefault(statusCode: int, elapsed: nat, ex: Option<Exception>)
    ensures SerilogLevel(statusCode) == DefaultGetLevel(statusCode, elapsed, None)
    ensures SerilogLevel(statusCode).Rank() <= DefaultGetLevel(statusCode, elapsed, ex).Rank()
    ensures ex.Some? && statusCode < 400 ==> SerilogLevel(statusCode) != DefaultGetLevel(statusCode, elapsed, ex)
  {
  }

  // ---------------------------------------------------------------------------
  // InvokeAsyncBase (lines 39-151)
  // ---------------------------------------------------------------------------

  /** Line 263. */
  const StartedWarning: string :=
    "The response has already started, the AutoWrapper.Plus.Serilog middleware will not be executed."

  /** Line 41: only swagger and non-API requests bypass the middleware. */
  predicate Bypassed(h: Host)
  {
    h.isSwagger || !h.isApi
  }

  /** The exception-handling helper of the `catch` block (lines 135-142). */
  function CatchCall(o: SerilogOptions): Call
  {
    if o.useApiProblemDetailsException then HandleProblemDetailsForException else HandleException
  }

  /** Where an intercepted request stands when `finally` begins; `events` as described where used. */
  datatype Stage = Stage(
    locals: LogArgs,
    status: int,
    started: bool,
    sink: Sink,
    events: seq<Event<LogResult>>,
    pending: Option<Exception>)

  /** Lines 258-265: a warning, then a run of `LogHttpRequest`. */
  function StartedLog(h: Host, o: SerilogOptions, l: LogArgs, status: int): seq<Event<LogResult>>
  {
    [Warned(StartedWarning), Logged(LogHttpRequest(h, o, l, status))]
  }

  /**
   * Lines 125-145, entered with exception `e`: a started response is warned about and
   * logged (and that log's exception escapes); otherwise the exception helper runs and,
   * unless it throws, the buffer is copied out. `events` are the ones the block adds.
   */
  function CatchBlock(h: Host, o: SerilogOptions, l: LogArgs, e: Exception, status: int, started: bool, sink: Sink): Stage
  {
    var l := l.(ex := Some(e));
    if started then
      var r := LogHttpRequest(h, o, l, status);
      Stage(l, status, true, sink, StartedLog(h, o, l, status), if r.Threw? then Some(r.error) else None)
    else
      var call := CatchCall(o);
      var ho := h.handle(call);
      Stage(l, ho.status, ho.started, sink,
            if ho.fault.Some? then [Invoked(call)] else [Invoked(call), Invoked(RevertResponseBody)], ho.fault)
  }

  /**
   * Lines 59-62 and 125-145: what follows the `try` block's own calls once it ended with
   * `flow`. On the already-started return the log runs inside the `try` block, and an
   * exception from it enters `catch`. `events` are the ones added here.
   */
  function AfterTry(h: Host, o: SerilogOptions, l: LogArgs, flow: Flow, status: int, started: bool, sink: Sink): Stage
  {
    match flow
    case Returned(exit) =>
      if exit != ResponseStarted then Stage(l, status, started, sink, [], None)
      else
        var r := LogHttpRequest(h, o, l, status);
        if r.Threw? then
          var c := CatchBlock(h, o, l, r.error, status, started, sink);
          c.(events := StartedLog(h, o, l, status) + c.events)
        else Stage(l, status, started, sink, StartedLog(h, o, l, status), None)
    case Raised(e) => CatchBlock(h, o, l, e, status, started, sink)
  }

  /** The locals as the `try` block leaves them. */
  function LocalsAfterTry(h: Host, o: SerilogOptions): LogArgs
    requires h.requestBody.BodyRead?
  {
    var t := TryBlock(h, Settings(o));
    LogArgs(h.requestBody.text, t.responseText, t.isRequestOk, None)
  }

  /** Lines 45-145 for a request whose body was read: everything up to `finally`. */
  function BeforeFinally(h: Host, o: SerilogOptions): Stage
    requires h.requestBody.BodyRead?
  {
    var t := TryBlock(h, Settings(o));
    var a := AfterTry(h, o, LocalsAfterTry(h, o), t.flow, t.status, t.started, t.sink);
    a.(events := Invocations(t.calls) + a.events)
  }

  /** An exchange as `InvokeAsyncBase` leaves it, and the exception it lets escape. */
  datatype Run = Run(status: int, started: bool, sink: Sink, events: seq<Event<LogResult>>, escaped: Option<Exception>)

  /** `InvokeAsyncBase`, for a response at `entryStatus`/`entryStarted` writing to `entrySink`. */
  function Intercept(h: Host, o: SerilogOptions, entryStatus: int, entryStarted: bool, entrySink: Sink): Run
  {
    var d := h.downstream;
    if Bypassed(h) then Run(d.status, d.started, entrySink, [Invoked(Next)], d.fault)
    else if h.requestBody.BodyReadFailed? then Run(entryStatus, entryStarted, entrySink, [], Some(h.requestBody.error))
    else
      var st := BeforeFinally(h, o);
      var r := LogHttpRequest(h, o, st.locals, st.status);
      Run(st.status, st.started, st.sink, st.events + [Logged(r)], if r.Threw? then Some(r.error) else st.pending)
  }

  /** Lines 258-265. */
  method LogResponseHasStartedError(x: HttpExchange<LogResult>, h: Host, o: SerilogOptions, l: LogArgs)
    returns (r: LogResult)
    modifies x
    ensures r == LogHttpRequest(h, o, l, x.statusCode)
    ensures x.trace == old(x.trace) + StartedLog(h, o, l, x.statusCode)
    ensures x.statusCode == old(x.statusCode) && x.hasStarted == old(x.hasStarted) && x.body == old(x.body)
  {
    x.trace := x.trace + [Warned(StartedWarning)];
    r := LogHttpRequest(h, o, l, x.statusCode);
    x.trace := x.trace + [Logged(r)];
  }

  /** Lines 125-145. */
  method RunCatch(x: HttpExchange<LogResult>, h: Host, o: SerilogOptions, l0: LogArgs, e: Exception)
    returns (l: LogArgs, pending: Option<Exception>)
    modifies x
    ensures var c := CatchBlock(h, o, l0, e, old(x.statusCode), old(x.hasStarted), old(x.body));
      && l == c.locals && pending == c.pending
      && x.statusCode == c.status && x.hasStarted == c.started && x.body == c.sink
      && x.trace == old(x.trace) + c.events
  {
    l, pending := l0.(ex := Some(e)), None;
    if x.hasStarted {
      var r := LogResponseHasStartedError(x, h, o, l);
      if r.Threw? {
        pending := Some(r.error);
      }
      return;
    }
    var handled := CallHandler(x, h, CatchCall(o));
    pending := handled.fault;
    if handled.fault.None? {
      x.trace := x.trace + [Invoked(RevertResponseBody)];
    }
  }

  /** Lines 59-62 and 125-145. */
  method RunAfterTry(x: HttpExchange<LogResult>, h: Host, o: SerilogOptions, l0: LogArgs, flow: Flow)
    returns (l: LogArgs, pending: Option<Exception>)
    modifies x
    ensures var a := AfterTry(h, o, l0, flow, old(x.statusCode), old(x.hasStarted), old(x.body));
      && l == a.locals && pending == a.pending
      && x.statusCode == a.status && x.hasStarted == a.started && x.body == a.sink
      && x.trace == old(x.trace) + a.events
  {
    l, pending := l0, None;
    match flow {
      case Returned(exit) =>
        if exit == ResponseStarted {
          ghost var logged := StartedLog(h, o, l0, x.statusCode);
          var r := LogResponseHasStartedError(x, h, o, l);
          if r.Threw? {
            ghost var before := old(x.trace);
            l, pending := RunCatch(x, h, o, l, r.error);
            SeqAssociative(before, logged, x.trace[|before| + |logged|..]);
          }
        }
      case Raised(e) =>
        l, pending := RunCatch(x, h, o, l, e);
    }
  }

  /** Lines 39-151. */
  method InvokeAsyncBase(x: HttpExchange<LogResult>, h: Host, o: SerilogOptions) returns (escaped: Option<Exception>)
    modifies x
    ensures var run := Intercept(h, o, old(x.statusCode), old(x.hasStarted), old(x.body));
      && x.statusCode == run.status && x.hasStarted == run.started && x.body == run.sink
      && x.trace == old(x.trace) + run.events && escaped == run.escaped
  {
    var d := h.downstream;
    if Bypassed(h) {
      x.trace := x.trace + [Invoked(Next)];
      x.statusCode, x.hasStarted := d.status, d.started;
      return d.fault;
    }
    if h.requestBody.BodyReadFailed? {
      return Some(h.requestBody.error);
    }
    ghost var start := x.trace;
    var flow, isRequestOk, responseText, fr := RunTryBlock(x, h, Settings(o));
    ghost var t := TryBlock(h, Settings(o));
    ghost var invoked := Invocations<LogResult>(t.calls);
    var l := LogArgs(h.requestBody.text, responseText, isRequestOk, None);
    assert l == LocalsAfterTry(h, o);
    var pending;
    l, pending := RunAfterTry(x, h, o, l, flow);
    ghost var st := BeforeFinally(h, o);
    ghost var after := AfterTry(h, o, LocalsAfterTry(h, o), t.flow, t.status, t.started, t.sink).events;
    assert st.events == invoked + after;
    SeqAssociative(start, invoked, after);
    var r := LogHttpRequest(h, o, l, x.statusCode);
    x.trace := x.trace + [Logged(r)];
    SeqAssociative(start, st.events, [Logged(r)]);
    escaped := if r.Threw? then Some(r.error) else pending;
  }

  // ---------------------------------------------------------------------------
  // Properties of InvokeAsyncBase
  // ---------------------------------------------------------------------------

  /** The paths that run `LogResponseHasStartedError`: lines 59-62 and 128-132. */
  predicate StartedPath(h: Host, o: SerilogOptions)
  {
    var t := TryBlock(h, Settings(o));
    t.flow == Returned(ResponseStarted) || (t.flow.Raised? && t.started)
  }

  /** A bypassed request only runs the next middleware: no buffer, no warning, no record. */
  lemma BypassOnlyCallsNext(h: Host, o: SerilogOptions, entryStatus: int, entryStarted: bool, entrySink: Sink)
    requires Bypassed(h)
    ensures var run := Intercept(h, o, entryStatus, entryStarted, entrySink);
      run.events == [Invoked(Next)] && run.sink == entrySink && LogRuns(run.events) == 0
  {
    assert LogRuns<LogResult>([Invoked(Next)]) == 0;
  }

  /** A request body that cannot be read escapes before anything is done or logged. */
  lemma ReadFailureEscapes(h: Host, o: SerilogOptions, entryStatus: int, entryStarted: bool, entrySink: Sink)
    requires !Bypassed(h) && h.requestBody.BodyReadFailed?
    ensures Intercept(h, o, entryStatus, entryStarted, entrySink)
         == Run(entryStatus, entryStarted, entrySink, [], Some(h.requestBody.error))
  {
  }

  lemma LogRunsOfStartedLog(h: Host, o: SerilogOptions, l: LogArgs, status: int)
    ensures LogRuns(StartedLog(h, o, l, status)) == 1
  {
    var events := StartedLog(h, o, l, status);
    assert events[1..][1..] == [];
    assert LogRuns(events[1..]) == 1;
  }

  /** How many runs of `LogHttpRequest` the `catch` block records. */
  lemma LogRunsOfCatch(h: Host, o: SerilogOptions, l: LogArgs, e: Exception, status: int, started: bool, sink: Sink)
    ensures LogRuns(CatchBlock(h, o, l, e, status, started, sink).events) == if started then 1 else 0
  {
    var c := CatchBlock(h, o, l, e, status, started, sink);
    if started {
      LogRunsOfStartedLog(h, o, l.(ex := Some(e)), status);
    } else {
      NoLogRuns(c.events);
    }
  }

  /** How many runs of `LogHttpRequest` happen between the `try` block's calls and `finally`. */
  lemma LogRunsOfAfterTry(h: Host, o: SerilogOptions, l: LogArgs, flow: Flow, status: int, started: bool, sink: Sink)
    ensures LogRuns(AfterTry(h, o, l, flow, status, started, sink).events) ==
      match flow
      case Returned(exit) =>
        if exit != ResponseStarted then 0
        else if LogHttpRequest(h, o, l, status).Threw? && started then 2
        else 1
      case Raised(_) => if started then 1 else 0
  {
    match flow {
      case Returned(exit) =>
        if exit == ResponseStarted {
          LogRunsOfStartedLog(h, o, l, status);
          var first := LogHttpRequest(h, o, l, status);
          if first.Threw? {
            var c := CatchBlock(h, o, l, first.error, status, started, sink);
            LogRunsAppend(StartedLog(h, o, l, status), c.events);
            LogRunsOfCatch(h, o, l, first.error, status, started, sink);
          }
        } else {
          assert LogRuns<LogResult>([]) == 0;
        }
      case Raised(e) =>
        LogRunsOfCatch(h, o, l, e, status, started, sink);
    }
  }

  /** How many runs of `LogHttpRequest` happen before `finally`. */
  lemma LogRunsBeforeFinally(h: Host, o: SerilogOptions)
    requires h.requestBody.BodyRead?
    ensures var t := TryBlock(h, Settings(o));
      var first := LogHttpRequest(h, o, LocalsAfterTry(h, o), t.status);
      LogRuns(BeforeFinally(h, o).events) ==
        if !StartedPath(h, o) then 0
        else if t.flow.Returned? && first.Threw? then 2
        else 1
  {
    var t := TryBlock(h, Settings(o));
    var l := LocalsAfterTry(h, o);
    var a := AfterTry(h, o, l, t.flow, t.status, t.started, t.sink);
    assert BeforeFinally(h, o).events == Invocations<LogResult>(t.calls) + a.events;
    assert t.flow == Returned(ResponseStarted) ==> t.started;
    NoLogRuns(Invocations<LogResult>(t.calls));
    LogRunsAppend(Invocations<LogResult>(t.calls), a.events);
    LogRunsOfAfterTry(h, o, l, t.flow, t.status, t.started, t.sink);
  }

  /**
   * `LogHttpRequest` runs once on every path but the already-started ones, which run it
   * twice, and three times when its run inside the `try` block throws (the `catch`
   * block then runs it again, the response having started).
   */
  lemma LogRunCount(h: Host, o: SerilogOptions, entryStatus: int, entryStarted: bool, entrySink: Sink)
    requires !Bypassed(h) && h.requestBody.BodyRead?
    ensures var run := Intercept(h, o, entryStatus, entryStarted, entrySink);
      var t := TryBlock(h, Settings(o));
      var first := LogHttpRequest(h, o, LocalsAfterTry(h, o), t.status);
      && run.events[|run.events| - 1].Logged?
      && LogRuns(run.events) ==
           if !StartedPath(h, o) then 1
           else if t.flow.Returned? && first.Threw? then 3
           else 2
  {
    var st := BeforeFinally(h, o);
    var r := LogHttpRequest(h, o, st.locals, st.status);
    assert Intercept(h, o, entryStatus, entryStarted, entrySink).events == st.events + [Logged(r)];
    LogRunsAppend(st.events, [Logged(r)]);
    assert LogRuns([Logged(r)]) == 1 by {
      assert [Logged(r)][1..] == [];
    }
    LogRunsBeforeFinally(h, o);
  }

  /**
   * Unlike the main variant, an excluded path is not bypassed: its request is
   * intercepted and logged.
   */
  lemma ExcludedPathIntercepted(h: Host, o: SerilogOptions, entryStatus: int, entryStarted: bool, entrySink: Sink)
    requires h.isExclude && h.isApi && !h.isSwagger && h.requestBody.BodyRead?
    ensures WrapperBase.Bypassed(h) && !Bypassed(h)
    ensures LogRuns(Intercept(h, o, entryStatus, entryStarted, entrySink).events) >= 1
  {
    LogRunCount(h, o, entryStatus, entryStarted, entrySink);
  }

  /**
   * A response wrapped by a helper that does not throw is logged once, with the text
   * captured from the next middleware rather than the wrapped result, and with the
   * status the helper left.
   */
  lemma CapturedResponseLogged(h: Host, o: SerilogOptions, entryStatus: int, entryStarted: bool, entrySink: Sink)
    requires !Bypassed(h) && h.requestBody.BodyRead? && ReachesWrap(h, Settings(o))
    requires h.handle(WrapCall(h.isRequestSuccessful(RewrittenStatus(h, Settings(o))), Settings(o))).fault.None?
    ensures var ok := h.isRequestSuccessful(RewrittenStatus(h, Settings(o)));
      var ho := h.handle(WrapCall(ok, Settings(o)));
      var run := Intercept(h, o, entryStatus, entryStarted, entrySink);
      && run.events[|run.events| - 1] ==
           Logged(LogHttpRequest(h, o, LogArgs(h.requestBody.text, Some(h.downstream.written), ok, None), ho.status))
      && LogRuns(run.events) == 1
  {
    WrapBranch(h, Settings(o));
    LogRunCount(h, o, entryStatus, entryStarted, entrySink);
  }

  /**
   * An exception from the next middleware, before the response started, leaves the
   * captured text null; with a record due and the response channel open, the run in
   * `finally` throws `NullReferenceException`, which escapes in place of anything else.
   */
  lemma DownstreamFaultLogThrows(h: Host, o: SerilogOptions, entryStatus: int, entryStarted: bool, entrySink: Sink)
    requires !Bypassed(h) && h.requestBody.BodyRead?
    requires h.downstream.fault.Some? && !h.downstream.started
    requires RecordEnabled(o, false) && ResponseBodyGate(o, h.endpoint, false)
    requires o.requestBodyTextLengthLogLimit >= 0
    ensures var run := Intercept(h, o, entryStatus, entryStarted, entrySink);
      && run.events[|run.events| - 1].Logged?
      && run.events[|run.events| - 1].result == Threw(NullReference)
      && run.escaped == Some(NullReference)
  {
    var st := BeforeFinally(h, o);
    ThrowsIff(h, o, st.locals, st.status);
  }

  /**
   * With the default options and exception logging on, a request whose next
   * middleware throws before responding escapes with `NullReferenceException`.
   */
  lemma DefaultOptionsDownstreamFault(h: Host, isApiOnly: bool, bypassHtmlValidation: bool,
                                      enableResponseLogging: bool, entryStatus: int, entryStarted: bool, entrySink: Sink)
    requires !Bypassed(h) && h.requestBody.BodyRead?
    requires h.downstream.fault.Some? && !h.downstream.started
    ensures var o := DefaultSerilogOptions(isApiOnly, bypassHtmlValidation, enableResponseLogging, true);
      Intercept(h, o, entryStatus, entryStarted, entrySink).escaped == Some(NullReference)
  {
    var o := DefaultSerilogOptions(isApiOnly, bypassHtmlValidation, enableResponseLogging, true);
    DownstreamFaultLogThrows(h, o, entryStatus, entryStarted, entrySink);
  }

  /**
   * On the already-started return the captured text is still null, so with a record
   * due and the response channel open all three runs throw `NullReferenceException`,
   * which escapes.
   */
  lemma StartedPathLogThrows(h: Host, o: SerilogOptions, entryStatus: int, entryStarted: bool, entrySink: Sink)
    requires !Bypassed(h) && h.requestBody.BodyRead?
    requires h.downstream.fault.None? && h.downstream.started
    requires var ok := h.isRequestSuccessful(h.downstream.status);
      RecordEnabled(o, ok) && ResponseBodyGate(o, h.endpoint, ok)
    requires o.requestBodyTextLengthLogLimit >= 0
    ensures var run := Intercept(h, o, entryStatus, entryStarted, entrySink);
      LogRuns(run.events) == 3 && run.escaped == Some(NullReference)
  {
    var l := LocalsAfterTry(h, o);
    var status := h.downstream.status;
    ThrowsIff(h, o, l, status);
    ThrowsIff(h, o, l.(ex := Some(NullReference)), status);
    LogRunCount(h, o, entryStatus, entryStarted, entrySink);
  }
}
