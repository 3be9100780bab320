# AutoWrapper.Plus middleware core, in Dafny

This project models the request/response middleware of AutoWrapper.Plus, an ASP.NET Core
library, and proves properties of that model. The middleware wraps API responses in a
standard envelope and logs each exchange with Serilog.

It covers four parts of the library:

- **The JSON field masker** (`JsonMaskHelper.cs`, module `JsonMasking`). It blanks out
  every property whose full path matches a wildcard pattern.
- **The options of the main package** (`AutoWrapperOptions.cs`, module `WrapperOptions`).
  These are the defaults, the default severity rule, and the default message template
  with its arguments.
- **`WrapperBase` of the main package** (module `WrapperBase`, with the shared module
  `Pipeline`). It bypasses or intercepts a request, runs the `try` block, and chooses the
  wrap helper. The `catch` block calls an exception helper and `finally` logs. Logging
  means the log-mode gates, body masking and truncation, header and query grouping,
  user-agent parsing and custom properties.
- **`WrapperBase` of the older Serilog package** (module `SerilogWrapperBase`). It runs
  the same `try` block with a different bypass rule, boolean gates, a
  truncate-or-parse rule and a status-only severity.

How the model is built:

- **The response is a class.** `Pipeline.HttpExchange` has fields for the status code,
  the started flag, which stream `Response.Body` is, and a trace of calls, warnings and
  log runs. The `InvokeAsyncBase` methods update it in place.
- **Each method is proved equal to a function.** `Intercept` is a pure function of the
  request and options. The lemmas about paths, log counts and records are stated on
  those functions.
- **`try`/`catch`/`finally` is explicit.** The `try` block ends in a `Flow`: a return or
  a raised exception. The exception a method lets escape is its result.
- **Hidden code is an input.** Everything the request brings, and every helper whose code
  is not part of the model, is a field of `Pipeline.Host`. That covers the
  `AutoWrapperMembers` helpers, `Handle*Async`, `IsHtml`, the JSON parsers and renderer,
  `Headers.Mask`, UAParser and the stopwatch.

## Model

| member | source | states |
|---|---|---|
| JsonMasking.GlobMatchIff | src/AutoWrapper.Plus.Serilog/Helpers/JsonMaskHelper.cs:85-88 | a pattern matches a path exactly when the path is, ignoring case, the pattern with each `*` replaced by some string (the anchored regex with only `*` special) |
| JsonMasking.GlobMatchComplete | src/AutoWrapper.Plus.Serilog/Helpers/JsonMaskHelper.cs:85-88 | every path the pattern denotes is matched |
| JsonMasking.GlobMatchSound | src/AutoWrapper.Plus.Serilog/Helpers/JsonMaskHelper.cs:85-88 | every matched path is denoted by the pattern |
| JsonMasking.GlobMatchLength | src/AutoWrapper.Plus.Serilog/Helpers/JsonMaskHelper.cs:85-88 | every literal character of the pattern must appear, so a match is never shorter than the pattern without its stars |
| JsonMasking.InfixPatternMatches | src/AutoWrapper.Plus.Serilog/Helpers/JsonMaskHelper.cs:60-64 | a default-style pattern `*word*` matches every path that contains the word, ignoring case |
| JsonMasking.InfixPatternNeedsRoom | src/AutoWrapper.Plus.Serilog/Helpers/JsonMaskHelper.cs:60-64 | `*word*` never matches a path shorter than the word |
| JsonMasking.Mask | src/AutoWrapper.Plus.Serilog/Helpers/JsonMaskHelper.cs:47-83 | masking returns scalars unchanged and keeps every array's length and every object's property count and names |
| JsonMasking.MaskProperty | src/AutoWrapper.Plus.Serilog/Helpers/JsonMaskHelper.cs:58-82 | a masked property keeps its name |
| JsonMasking.MaskIdempotent | src/AutoWrapper.Plus.Serilog/Helpers/JsonMaskHelper.cs:58-82 | masking a masked tree again with the same patterns and mask changes nothing |
| JsonMasking.MaskEmptyBlacklist | src/AutoWrapper.Plus.Serilog/Helpers/JsonMaskHelper.cs:60-65 | with no patterns nothing is masked |
| JsonMasking.PasswordExample | src/AutoWrapper.Plus.Serilog/Helpers/JsonMaskHelper.cs:47-83 | `{"password":"abc123","user":"bob"}` under `*password*` masks the password and keeps the user |
| JsonMasking.WalkUnmasked | src/AutoWrapper.Plus.Serilog/Helpers/JsonMaskHelper.cs:55-75 | recursion reaches every child of every container, arrays included: along a path through no matching property, the masked tree holds the original node, masked, at the same path |
| JsonMasking.MaskedWhereMatched | src/AutoWrapper.Plus.Serilog/Helpers/JsonMaskHelper.cs:58-82 | a property whose full path matches ends up holding the mask string under the same name and path, whatever its subtree held |
| JsonMasking.UnmatchedKept | src/AutoWrapper.Plus.Serilog/Helpers/JsonMaskHelper.cs:55-82 | outside matched properties, scalars, property names and order, and array lengths are unchanged |
| JsonMasking.MaskFieldsFromJToken | src/AutoWrapper.Plus.Serilog/Helpers/JsonMaskHelper.cs:47-83 | the two loops (collect matching properties while recursing, then assign the mask) produce the masked tree `Mask` describes |
| JsonMasking.MaskItems | src/AutoWrapper.Plus.Serilog/Helpers/JsonMaskHelper.cs:55-75 | the loop over an array's children yields the array with every element masked at its `[i]` path |
| JsonMasking.CollectProperties | src/AutoWrapper.Plus.Serilog/Helpers/JsonMaskHelper.cs:55-75 | the loop over an object's properties recurses into every value and notes exactly the indices whose full path matches some pattern |
| JsonMasking.ReplaceMatched | src/AutoWrapper.Plus.Serilog/Helpers/JsonMaskHelper.cs:77-82 | the replacement loop gives every noted property the mask string and leaves the rest as recursed, which is `MaskProperty` for each |
| JsonMasking.MaskFields | src/AutoWrapper.Plus.Serilog/Helpers/JsonMaskHelper.cs:14-45 | blank text is returned unchanged even with a null pattern list; otherwise a null list throws `ArgumentNullException` and an empty one returns the text; unparsable text throws, and so does the literal `null` (its `ToString` is called on null); arrays are masked element by element, objects as a whole, scalars not at all |
| WrapperOptions.DefaultGetLevel | src/AutoWrapper/AutoWrapperOptions.cs:102-119 | Error iff status ≥ 500 or (status < 400 and an exception); Warning iff 400–499; Information iff status < 400 without an exception |
| WrapperOptions.ExceptionNeverLowersLevel | src/AutoWrapper/AutoWrapperOptions.cs:102-119 | an exception never lowers the level, and it changes nothing from status 400 upwards |
| WrapperOptions.LevelIgnoresElapsed | src/AutoWrapper/AutoWrapperOptions.cs:102 | the elapsed time never affects the default level |
| WrapperOptions.HolesOfRender | src/AutoWrapper/AutoWrapperOptions.cs:125 | reading the holes back from a well-formed template gives exactly its property names, in order |
| WrapperOptions.DefaultTemplateHoles | src/AutoWrapper/AutoWrapperOptions.cs:125 | the default template has exactly the holes RequestMethod, RequestPath, StatusCode, Elapsed |
| WrapperOptions.DefaultPropertyNames | src/AutoWrapper/AutoWrapperOptions.cs:125 | the default template's tokens name method, path, status and elapsed time, in that order |
| WrapperOptions.DefaultLogMessageAndProperties | src/AutoWrapper/AutoWrapperOptions.cs:121-129 | one positional argument per hole, in the order method, path, status code, elapsed time, and the whole context as the single extra property "Context" |
| WrapperOptions.NewOptions | src/AutoWrapper/AutoWrapperOptions.cs:17-100 | the defaults: all modes LogAll except response body LogFailures, structured bodies on, limits 4000, the mask text, the six patterns `*password*`, `*token*`, `*secret*`, `*bearer*`, `*authorization*`, `*otp` in that order, problem details on; the constructor installs the default level and message functions |
| Pipeline.WrapCall | src/AutoWrapper/Base/WrapperBase.cs:124-147 | WrapIgnore iff success and IgnoreWrapForOkRequests; HandleSuccessful iff success without it; problem details iff failure and UseApiProblemDetailsException; HandleUnsuccessful iff failure without it |
| Pipeline.WrapStage | src/AutoWrapper/Base/WrapperBase.cs:102-148 | past the early returns, the next middleware is always the first call |
| Pipeline.CallHandler | src/AutoWrapper/Base/WrapperBase.cs:132-133 | calling a helper records it and leaves the status and started flag the helper leaves |
| Pipeline.RunTryBlock | src/AutoWrapper/Base/WrapperBase.cs:75-148 | the `try` block's exit, locals, exchange fields and calls are those of `TryBlock` |
| Pipeline.RunWrapStage | src/AutoWrapper/Base/WrapperBase.cs:102-148 | the HTML rewrite, the not-API return and the wrap helper call agree with `WrapStage` |
| Pipeline.NextThenAtMostOneHelper | src/AutoWrapper/Base/WrapperBase.cs:75-148 | the `try` block runs the next middleware first and at most one wrap helper after it, never an exception helper |
| Pipeline.NoContentNeverWrapped | src/AutoWrapper/Base/WrapperBase.cs:99-100 | a 204 or 304 response is never wrapped |
| Pipeline.HtmlBecomesNotFound | src/AutoWrapper/Base/WrapperBase.cs:102-123 | a 200 HTML response of a non-API-only app becomes 404, and success and the helper are judged on 404 |
| Pipeline.WrapBranch | src/AutoWrapper/Base/WrapperBase.cs:123-147 | a wrap helper runs iff the block gets past the early returns, and it is the one `WrapCall` picks for the success of the possibly rewritten status; only problem details returns early |
| Pipeline.NotApiHtmlResponse | src/AutoWrapper/Base/WrapperBase.cs:110-120 | a 200 HTML response outside the API path goes to `HandleNotApiRequestAsync` only when the buffer is not empty |
| Pipeline.StartedAndIgnoredKeepBuffer | src/AutoWrapper/Base/WrapperBase.cs:82-97 | `Response.Body` stays on the buffer exactly on the started and AutoWrapIgnore returns |
| Pipeline.FinalResponseFromHelper | src/AutoWrapper/Base/WrapperBase.cs:124-147 | `finalResponse` is set only by a helper that returns a pair and does not throw, and then it is that pair |
| Pipeline.TryHelperPair | src/AutoWrapper/Base/WrapperBase.cs:124-147 | a pair-returning helper of the `try` block that does not throw makes the block return with its pair as `finalResponse` |
| WrapperBase.LogModeAllowsIsChannelOn | src/AutoWrapper/Base/WrapperBase.cs:204-207 | the master gate admits a record iff its mode is LogAll, or LogFailures and the request failed: the same rule as every channel's |
| WrapperBase.Truncate | src/AutoWrapper/Base/WrapperBase.cs:236-237 | text over the limit is cut to a prefix of exactly the limit; a negative limit throws |
| WrapperBase.LogBody | src/AutoWrapper/Base/WrapperBase.cs:226-238 | a blank body is kept; any other is masked and structured when enabled and parsable, then cut to the limit, and the object survives the cut |
| WrapperBase.LogBodyText | src/AutoWrapper/Base/WrapperBase.cs:226-238 | the body steps, reassigning the text as the source does, give `LogBody` |
| WrapperBase.CollectGroups | src/AutoWrapper/Base/WrapperBase.cs:252-260 | the grouping loop adds one entry per group: an array of value texts when the group has several values, the single text otherwise |
| WrapperBase.KeysDistinct | src/AutoWrapper/Base/WrapperBase.cs:252-260 | no group key repeats, so `Dictionary.Add` never throws in the grouping loops |
| WrapperBase.KeysCover | src/AutoWrapper/Base/WrapperBase.cs:252-253 | every input key has a group, and every group key comes from the input |
| WrapperBase.DistinctKeysGroups | src/AutoWrapper/Base/WrapperBase.cs:252-260 | distinct input keys give one group each, in input order, with one value each |
| WrapperBase.DistinctKeysGiveSingles | src/AutoWrapper/Base/WrapperBase.cs:252-260 | a collection with distinct keys is logged as one string per key, its values joined with "," |
| WrapperBase.HeaderCut | src/AutoWrapper/Base/WrapperBase.cs:368-381 | the response-header loop adds every entry before the first whose `Add` or `First()` throws |
| WrapperBase.CollectResponseHeaders | src/AutoWrapper/Base/WrapperBase.cs:366-381 | the loop stops at the first throwing entry, swallows the exception and keeps what it added |
| WrapperBase.AllResponseHeadersLogged | src/AutoWrapper/Base/WrapperBase.cs:368-376 | with distinct keys and no empty value list every response header is logged: the value list when it has several values, else its first value |
| WrapperBase.UserAgentEntries | src/AutoWrapper/Base/WrapperBase.cs:268-288 | no entries without a User-Agent header; else `_Raw` first, and 8 entries iff the parser succeeds, 1 iff it throws |
| WrapperBase.ToDictionaryContents | src/AutoWrapper/Base/WrapperBase.cs:393-394 | the custom properties convert iff their names are distinct, and then map each name to its value and nothing else |
| WrapperBase.ToDictionaryEntries | src/AutoWrapper/Base/WrapperBase.cs:393-394 | a dictionary that `ToDictionary` returns holds exactly the names, each mapped to its value |
| WrapperBase.LogRequestSection | src/AutoWrapper/Base/WrapperBase.cs:220-310 | the request half (body, headers, user agent, query) as the source assigns it |
| WrapperBase.LogHttpRequest | src/AutoWrapper/Base/WrapperBase.cs:197-416 | the loops and assignments of `LogHttpRequest` produce the record `LogFor` describes |
| WrapperBase.SkippedIff | src/AutoWrapper/Base/WrapperBase.cs:204-213 | no record iff the master mode refuses it or the endpoint has IgnoreLog |
| WrapperBase.RequestChannelOff | src/AutoWrapper/Base/WrapperBase.cs:220-306 | with the request channel off the body is "(Not Logged)" with no object, headers, query or user agent |
| WrapperBase.RequestDataIgnored | src/AutoWrapper/Base/WrapperBase.cs:220-300 | RequestDataLogIgnore withholds only the body: query and user agent are still logged |
| WrapperBase.RequestBodyLogged | src/AutoWrapper/Base/WrapperBase.cs:226-238 | a non-blank request body is cut to the limit with its masked object kept; a negative limit throws |
| WrapperBase.WrittenStatusAndLevel | src/AutoWrapper/Base/WrapperBase.cs:384-415 | the record's status is the one passed in, its level and message come from the option delegates, with the exception passed in and the elapsed time |
| WrapperBase.DefaultOptionsRecord | src/AutoWrapper/Base/WrapperBase.cs:208-415 | under default options the level is the default one and the arguments are method, path, status passed in, elapsed time |
| WrapperBase.DuplicateCustomPropertyThrows | src/AutoWrapper/Base/WrapperBase.cs:393-394 | a repeated LogCustomProperty name makes every non-skipped run throw |
| WrapperBase.LogResponseHasStartedError | src/AutoWrapper/Base/WrapperBase.cs:418-423 | only a warning; nothing else changes |
| WrapperBase.InvokeAsyncBase | src/AutoWrapper/Base/WrapperBase.cs:49-183 | the exchange, trace and escaping exception are those of `Intercept` |
| WrapperBase.RunUntilFinally | src/AutoWrapper/Base/WrapperBase.cs:56-174 | the body read, `try` and `catch` blocks leave the state `BeforeFinally` describes |
| WrapperBase.ReadRequestBody | src/AutoWrapper/Base/WrapperBase.cs:59-67 | a failed body read is only warned about and leaves a null body |
| WrapperBase.RunAfterTry | src/AutoWrapper/Base/WrapperBase.cs:82-174 | after the `try` block: the started warning, or the `catch` block, as `AfterTry` describes |
| WrapperBase.RunCatch | src/AutoWrapper/Base/WrapperBase.cs:151-174 | the `catch` block: warning when started, else the exception helper, its pair, the re-read buffer and the revert, as `CatchBlock` describes |
| WrapperBase.BypassOnlyCallsNext | src/AutoWrapper/Base/WrapperBase.cs:51-53 | swagger, non-API and excluded requests only run the next middleware: no buffer, no log |
| WrapperBase.LoggedExactlyOnce | src/AutoWrapper/Base/WrapperBase.cs:75-181 | every intercepted request runs `LogHttpRequest` exactly once, as its last step, on every return path |
| WrapperBase.LoggedStatus | src/AutoWrapper/Base/WrapperBase.cs:56-179 | the logged status is the entry status unless a pair-returning helper ran without throwing; every such helper, in `try` or in `catch`, is the one whose pair is logged |
| WrapperBase.PairHelperLogged | src/AutoWrapper/Base/WrapperBase.cs:56-179 | any pair-returning helper recorded before `finally` that did not throw is the one whose pair reaches `finally` |
| WrapperBase.WrappedResponseLogged | src/AutoWrapper/Base/WrapperBase.cs:124-179 | a wrapped response is logged with the helper's status and text, or the captured downstream text when that is blank |
| WrapperBase.WrappedLocals | src/AutoWrapper/Base/WrapperBase.cs:124-148 | a wrapped response reaches `finally` with the helper's pair and status, the captured text and the recomputed success |
| WrapperBase.ExceptionHandled | src/AutoWrapper/Base/WrapperBase.cs:151-169 | an exception before the response started goes to problem details iff UseApiProblemDetailsException, else HandleExceptionAsync, and is logged with the record; when that helper does not throw, its pair is the one logged |
| WrapperBase.StartedResponseKeepsBuffer | src/AutoWrapper/Base/WrapperBase.cs:82-87 | on the started return the middleware warns, leaves `Response.Body` on the buffer and logs once |
| SerilogWrapperBase.DefaultSerilogOptions | src/AutoWrapper.Plus.Serilog/AutoWrapperOptions.cs:14-25 | the Serilog package's defaults: request data on, response data off, data on exception on, the seven patterns `*password*`, `*token*`, `*clientsecret*`, `*bearer*`, `*authorization*`, `*client-secret*`, `*otp` in that order, the mask text, limits 4000 |
| SerilogWrapperBase.BodyFor | src/AutoWrapper.Plus.Serilog/Base/WrapperBase.cs:188-192 | a body is masked, then cut to exactly the limit with no object, or parsed when it fits; a null body or negative limit throws |
| SerilogWrapperBase.SerilogLevel | src/AutoWrapper.Plus.Serilog/Base/WrapperBase.cs:236-244 | Error iff status ≥ 500, Warning iff 400–499, Information iff below 400 |
| SerilogWrapperBase.RecordShape | src/AutoWrapper.Plus.Serilog/Base/WrapperBase.cs:176-252 | no record iff neither EnableResponseLogging nor (failure and EnableExceptionLogging); a record has the status-only level, the exception passed in, the completion template, the request line and the response status and time |
| SerilogWrapperBase.BodiesLoggedIff | src/AutoWrapper.Plus.Serilog/Base/WrapperBase.cs:183-226 | the request body is logged iff (ShouldLogRequestData and no ignore marker, or failure and LogResponseDataOnException) and it is not blank; the response body iff its own gate is open |
| SerilogWrapperBase.ThrowsIff | src/AutoWrapper.Plus.Serilog/Base/WrapperBase.cs:185-222 | the log throws iff a record is due and a logged request body has a negative limit, or a logged response body is null or has a negative limit |
| SerilogWrapperBase.ThrowingIgnoresException | src/AutoWrapper.Plus.Serilog/Base/WrapperBase.cs:176-252 | whether the log throws does not depend on the exception passed in |
| SerilogWrapperBase.LevelBelowDefault | src/AutoWrapper.Plus.Serilog/Base/WrapperBase.cs:236-244 | the level equals the main package's default level for a request without an exception; with an exception the default level is never lower, and differs below status 400 |
| SerilogWrapperBase.LogResponseHasStartedError | src/AutoWrapper.Plus.Serilog/Base/WrapperBase.cs:258-265 | a warning followed by a run of `LogHttpRequest` |
| SerilogWrapperBase.RunCatch | src/AutoWrapper.Plus.Serilog/Base/WrapperBase.cs:125-145 | the `catch` block: warn and log when started, else the exception helper and, unless it throws, the revert |
| SerilogWrapperBase.RunAfterTry | src/AutoWrapper.Plus.Serilog/Base/WrapperBase.cs:59-145 | the started return logs inside `try`, and an exception from that log enters `catch` |
| SerilogWrapperBase.InvokeAsyncBase | src/AutoWrapper.Plus.Serilog/Base/WrapperBase.cs:39-151 | the exchange, trace and escaping exception are those of `Intercept` |
| SerilogWrapperBase.BypassOnlyCallsNext | src/AutoWrapper.Plus.Serilog/Base/WrapperBase.cs:41-42 | swagger and non-API requests only run the next middleware |
| SerilogWrapperBase.ReadFailureEscapes | src/AutoWrapper.Plus.Serilog/Base/WrapperBase.cs:46 | a failing request-body read escapes before anything is done or logged |
| SerilogWrapperBase.LogRunsOfAfterTry | src/AutoWrapper.Plus.Serilog/Base/WrapperBase.cs:59-145 | the log runs between the `try` block's calls and `finally`: none, one, or two when the started path's first log throws |
| SerilogWrapperBase.LogRunsBeforeFinally | src/AutoWrapper.Plus.Serilog/Base/WrapperBase.cs:53-145 | before `finally`: no log run off the started paths, two when the first started-path log throws, else one |
| SerilogWrapperBase.LogRunCount | src/AutoWrapper.Plus.Serilog/Base/WrapperBase.cs:53-149 | `LogHttpRequest` runs once off the already-started paths, twice on them, three times when the first started-path log throws; `finally` runs last |
| SerilogWrapperBase.ExcludedPathIntercepted | src/AutoWrapper.Plus.Serilog/Base/WrapperBase.cs:41-42 | an excluded API path, which the main package bypasses, is intercepted and logged here |
| SerilogWrapperBase.CapturedResponseLogged | src/AutoWrapper.Plus.Serilog/Base/WrapperBase.cs:50-148 | a wrapped response is logged once, with the text captured from the next middleware, not the wrapped result |
| SerilogWrapperBase.DownstreamFaultLogThrows | src/AutoWrapper.Plus.Serilog/Base/WrapperBase.cs:125-222 | after a downstream exception the captured text is null, so with a record due and the response channel open `finally` throws NullReferenceException, which escapes |
| SerilogWrapperBase.DefaultOptionsDownstreamFault | src/AutoWrapper.Plus.Serilog/Base/WrapperBase.cs:146-219 | under the default options with exception logging on, a downstream exception escapes as NullReferenceException |
| SerilogWrapperBase.StartedPathLogThrows | src/AutoWrapper.Plus.Serilog/Base/WrapperBase.cs:59-264 | on the started return with a record due and the response channel open, all three log runs throw NullReferenceException, which escapes |

## Left out

- **Streams and `async`.** `MemoryStream`, stream copying and `await` are not modelled. The
  model tracks only which stream `Response.Body` is.
- **Stream helpers.** `ReadResponseBodyStreamAsync` and `RevertResponseBodyStreamAsync`
  are taken not to throw.
- **`memoryStream.Length > 0`.** It is modelled as "the captured text is non-empty".
- **Helpers without shown code.** These are inputs of `Pipeline.Host`:
  `IsSwagger`, `IsApi`, `IsExclude` (and so the `ExcludePaths` semantics),
  `IsRequestSuccessful`, `IsHtml`, `GetRequestBodyAsync`, the `Handle*Async` helpers,
  `WrapWhenApiPathStartsWith` matching, `GetClientIp`, `Headers.Mask`, `TryGetJToken`,
  the `JToken.MaskFields` overload and UAParser.
- **JSON libraries.** Newtonsoft and System.Text.Json parsing and `ToString()` rendering
  are inputs. JSON numbers are integers.
- **Regex details.** Masking uses a direct glob matcher with ASCII case folding. .NET's
  `.*` stops at a newline, `$` accepts one trailing newline, and Unicode case-insensitivity
  is richer. None of these are modelled. Neither is Newtonsoft's bracket-quoted path form
  for property names with special characters.
- **Serilog plumbing.** `DiagnosticContext` collection is an input map. `ForContext`
  enrichment and sinks are not modelled. `SelfLog` messages are dropped, since they
  change nothing. Stopwatch time is an input.
- **`OptionBase` settings.** `IsApiOnly`, `BypassHTMLValidation`, `EnableResponseLogging`
  and `EnableExceptionLogging` are parameters, because their defaults are not shown.
- **Options no core code reads.** `UseCustomSchema`, `ReferenceLoopHandling`,
  `UseCustomExceptionFormat`, `Logger`, and in the Serilog package
  `LogRequestDataOnException`.
- `WrapperOptions.Options.getLevel`: a custom `GetLevel` receives only the response status, the
  elapsed milliseconds and the exception, not the whole `HttpContext`. The request, headers
  and endpoint are declared in `Pipeline`, which builds on the options module, so a
  user-supplied level function that reads the path, headers or endpoint cannot be expressed.
  `DefaultGetLevel` reads only the status, so the default is modelled exactly.
- `WrapperBase.Truncate`, `WrapperBase.LogBody`, `SerilogWrapperBase.BodyFor`: lengths and cuts
  count characters (Unicode scalar values), not .NET's UTF-16 code units. Text outside the
  Basic Multilingual Plane is therefore cut later than .NET would cut it, and a surrogate
  pair is never split. In the Serilog package such a body may keep its parsed object where
  .NET would have cut it.
- **`RemoteIpAddress`.** A null address in the Serilog package is not modelled: the client
  IP is an input string.
- **`LogHttpRequest` outside `finally`.** An exception thrown while building a record is
  modelled as escaping the run. The main package's `LogHttpRequest` is not called anywhere
  else.
