/**
 * `WrapperBase` of the main package: `InvokeAsyncBase`, which buffers the response,
 * wraps it through the `AutoWrapperMembers` helpers and, in `finally`, hands what it
 * saw to `LogHttpRequest`, which gates, masks, truncates and groups the parts of the
 * exchange into one log record.
 */
module WrapperBase {
  import opened Wrappers
  import opened Text
  import opened JsonMasking
  import opened WrapperOptions
  import opened Pipeline

  // ---------------------------------------------------------------------------
  // Gates
  // ---------------------------------------------------------------------------

  /** Lines 204-207: the master mode lets a record through. */
  predicate LogModeAllows(mode: LogMode, isRequestOk: bool)
  {
    mode != LogNone && !(isRequestOk && mode != LogAll)
  }

  /** A channel is logged when its mode is LogAll, or LogFailures and the request failed. */
  predicate ChannelOn(mode: LogMode, isRequestOk: bool)
  {
    mode == LogAll || (!isRequestOk && mode == LogFailures)
  }

  /** The master gate is the same rule as every channel's. */
  lemma LogModeAllowsIsChannelOn(mode: LogMode, isRequestOk: bool)
    ensures LogModeAllows(mode, isRequestOk) <==> ChannelOn(mode, isRequestOk)
  {
  }

  /** Line 185: no `RequestDataLogIgnore` on the endpoint. */
  predicate ShouldLogRequestData(e: Option<Endpoint>)
  {
    !(e.Some? && e.value.requestDataLogIgnore)
  }

  /** Line 191: no `ResponseDataLogIgnore` on the endpoint. */
  predicate ShouldLogResponseData(e: Option<Endpoint>)
  {
    !(e.Some? && e.value.responseDataLogIgnore)
  }

  /** Line 211: no `IgnoreLog` on the endpoint. */
  predicate ShouldLogHttpRequest(e: Option<Endpoint>)
  {
    !(e.Some? && e.value.ignoreLog)
  }

  // ---------------------------------------------------------------------------
  // Bodies
  // ---------------------------------------------------------------------------

  const NotLogged: string := "(Not Logged)"

  /** `Substring` with a negative length. */
  const ArgumentOutOfRange := Exception("System.ArgumentOutOfRangeException", "length")

  /** `Dictionary.Add` or `ToDictionary` with a key already present. */
  const DuplicateKey := Exception("System.ArgumentException", "An item with the same key has already been added.")

  function Min(a: int, b: int): int
  {
    if a <= b then a else b
  }

  /** `if (text.Length > limit) text = text.Substring(0, limit)`. */
  function Truncate(text: string, limit: int): (r: Result<string, Exception>)
    ensures r.Failure? <==> limit < 0
    ensures r.Failure? ==> r.error == ArgumentOutOfRange
    ensures r.Success? ==> |r.value| == Min(|text|, limit) && r.value == text[..|r.value|]
  {
    if |text| > limit then
      if limit < 0 then Failure(ArgumentOutOfRange) else Success(text[..limit])
    else Success(text)
  }

  /** A body as logged: the text (`BodyString`) and the structured object (`Body`). */
  datatype BodyLog = BodyLog(text: Option<string>, obj: Option<Json>)

  const NotLoggedBody := BodyLog(Some(NotLogged), None)

  /**
   * Lines 229-235: when structured logging is on and the text parses, the masked token
   * replaces the text (rendered) and becomes the object.
   */
  function Structure(h: Host, o: Options, text: string, structured: bool): (string, Option<Json>)
  {
    if structured && h.tryGetJToken(text).Some? then
      var token := h.maskToken(h.tryGetJToken(text).value, o.maskedProperties, o.maskFormat);
      (h.render(token), Some(token))
    else (text, None)
  }

  /**
   * Lines 226-238 (and 334-347 for the response): a blank body is kept as it is; any
   * other is structured, then cut to the limit, and the object survives the cut.
   */
  function LogBody(h: Host, o: Options, body: Option<string>, structured: bool, limit: int): (r: Result<BodyLog, Exception>)
    ensures IsNullOrWhiteSpace(body) ==> r == Success(BodyLog(body, None))
    ensures !IsNullOrWhiteSpace(body) ==> (r.Failure? <==> limit < 0)
    ensures !IsNullOrWhiteSpace(body) && r.Success? ==>
      var (full, obj) := Structure(h, o, body.value, structured);
      && r.value.obj == obj
      && r.value.text.Some? && |r.value.text.value| == Min(|full|, limit)
      && r.value.text.value == full[..|r.value.text.value|]
  {
    if IsNullOrWhiteSpace(body) then Success(BodyLog(body, None))
    else
      var (full, obj) := Structure(h, o, body.value, structured);
      match Truncate(full, limit)
      case Success(t) => Success(BodyLog(Some(t), obj))
      case Failure(e) => Failure(e)
  }

  /** The body steps of `LogHttpRequest`, reassigning the text as the source does. */
  method LogBodyText(h: Host, o: Options, body: Option<string>, structured: bool, limit: int)
    returns (r: Result<BodyLog, Exception>)
    ensures r == LogBody(h, o, body, structured, limit)
  {
    var text := body;
    var obj: Option<Json> := None;
    if !IsNullOrWhiteSpace(text) {
      var token := h.tryGetJToken(text.value);
      if structured && token.Some? {
        var masked := h.maskToken(token.value, o.maskedProperties, o.maskFormat);
        text := Some(h.render(masked));
        obj := Some(masked);
      }
      if |text.value| > limit {
        if limit < 0 {
          return Failure(ArgumentOutOfRange);
        }
        text := Some(text.value[..limit]);
      }
    }
    r := Success(BodyLog(text, obj));
  }

  // ---------------------------------------------------------------------------
  // Grouping of query and request-header values (`GroupBy(x => x.Key)`)
  // ---------------------------------------------------------------------------

  /** The values of `key` in `pairs`, in order. */
  function ValuesOf(pairs: seq<(string, seq<string>)>, key: string): seq<seq<string>>
  {
    if pairs == [] then []
    else ValuesOf(pairs[..|pairs| - 1], key) + (if pairs[|pairs| - 1].0 == key then [pairs[|pairs| - 1].1] else [])
  }

  /** The distinct keys of `pairs` in order of first appearance: the groups of `GroupBy`. */
  function Keys(pairs: seq<(string, seq<string>)>): (ks: seq<string>)
    ensures forall j :: 0 <= j < |ks| ==> ValuesOf(pairs, ks[j]) != []
  {
    if pairs == [] then []
    else
      var rest := Keys(pairs[..|pairs| - 1]);
      var k := pairs[|pairs| - 1].0;
      if k in rest then rest else rest + [k]
  }

  /** `GroupBy(x => x.Key)`: each distinct key with its values. */
  function GroupBy(pairs: seq<(string, seq<string>)>): (g: seq<(string, seq<seq<string>>)>)
    ensures |g| == |Keys(pairs)|
    ensures forall j :: 0 <= j < |g| ==> g[j] == (Keys(pairs)[j], ValuesOf(pairs, Keys(pairs)[j])) && g[j].1 != []
  {
    var ks := Keys(pairs);
    seq(|ks|, j requires 0 <= j < |ks| => (ks[j], ValuesOf(pairs, ks[j])))
  }

  /** A group as logged: an array of its values' texts, or the one value's text. */
  function Entry(values: seq<seq<string>>): FieldValue
    requires values != []
  {
    if |values| > 1 then Many(seq(|values|, i requires 0 <= i < |values| => Join(",", values[i])))
    else Single(Join(",", values[0]))
  }

  /** The dictionary the grouping loop builds. */
  function Grouped(pairs: seq<(string, seq<string>)>): seq<(string, FieldValue)>
  {
    var g := GroupBy(pairs);
    seq(|g|, j requires 0 <= j < |g| => (g[j].0, Entry(g[j].1)))
  }

  /** Lines 252-260 and 292-299: add one entry per group. */
  method CollectGroups(pairs: seq<(string, seq<string>)>) returns (d: seq<(string, FieldValue)>)
    ensures d == Grouped(pairs)
  {
    var groups := GroupBy(pairs);
    d := [];
    for i := 0 to |groups|
      invariant |d| == i
      invariant forall j :: 0 <= j < i ==> d[j] == (groups[j].0, Entry(groups[j].1))
    {
      var (key, values) := groups[i];
      if |values| > 1 {
        d := d + [(key, Many(seq(|values|, k requires 0 <= k < |values| => Join(",", values[k]))))];
      } else {
        d := d + [(key, Single(Join(",", values[0])))];
      }
    }
  }

  /** No key is added twice, so `Dictionary.Add` never throws in the grouping loops. */
  lemma {:induction false} KeysDistinct(pairs: seq<(string, seq<string>)>)
    ensures forall i, j :: 0 <= i < j < |Keys(pairs)| ==> Keys(pairs)[i] != Keys(pairs)[j]
    decreases |pairs|
  {
    if pairs != [] {
      var init := pairs[..|pairs| - 1];
      var k := pairs[|pairs| - 1].0;
      var rest := Keys(init);
      KeysDistinct(init);
      if k !in rest {
        var ks := rest + [k];
        forall i, j | 0 <= i < j < |ks| ensures ks[i] != ks[j] {
          if j == |rest| {
            assert ks[i] == rest[i] && rest[i] in rest;
          } else {
            assert ks[i] == rest[i] && ks[j] == rest[j];
            assert rest[i] != rest[j];
          }
        }
        assert Keys(pairs) == ks;
      }
    }
  }

  /** Every key of the input has its group, and every group's key comes from the input. */
  lemma {:induction false} KeysCover(pairs: seq<(string, seq<string>)>)
    ensures forall i :: 0 <= i < |pairs| ==> pairs[i].0 in Keys(pairs)
    ensures forall k :: k in Keys(pairs) ==> exists i :: 0 <= i < |pairs| && pairs[i].0 == k
    decreases |pairs|
  {
    if pairs != [] {
      var init := pairs[..|pairs| - 1];
      KeysCover(init);
      forall i | 0 <= i < |pairs| - 1 ensures pairs[i].0 in Keys(pairs) {
        assert init[i] == pairs[i];
      }
      forall k | k in Keys(pairs) ensures exists i :: 0 <= i < |pairs| && pairs[i].0 == k {
        if k in Keys(init) {
          var i :| 0 <= i < |init| && init[i].0 == k;
          assert pairs[i] == init[i];
        }
      }
    }
  }

  /** Keys that are already distinct each form a group of one value, in input order. */
  lemma DistinctKeysGroups(pairs: seq<(string, seq<string>)>)
    requires forall i, j :: 0 <= i < j < |pairs| ==> pairs[i].0 != pairs[j].0
    ensures Keys(pairs) == seq(|pairs|, i requires 0 <= i < |pairs| => pairs[i].0)
    ensures forall i :: 0 <= i < |pairs| ==> ValuesOf(pairs, pairs[i].0) == [pairs[i].1]
  {
    DistinctKeysInOrder(pairs);
    DistinctKeysSingleValues(pairs);
  }

  /** The last key of a collection with distinct keys is new to the ones before it. */
  lemma LastKeyNew(pairs: seq<(string, seq<string>)>)
    requires pairs != []
    requires forall i, j :: 0 <= i < j < |pairs| ==> pairs[i].0 != pairs[j].0
    ensures var init := pairs[..|pairs| - 1];
      && (forall i, j :: 0 <= i < j < |init| ==> init[i].0 != init[j].0)
      && (forall i :: 0 <= i < |init| ==> init[i].0 != pairs[|pairs| - 1].0)
  {
    var init := pairs[..|pairs| - 1];
    assert forall i :: 0 <= i < |init| ==> init[i] == pairs[i];
  }

  lemma {:induction false} DistinctKeysInOrder(pairs: seq<(string, seq<string>)>)
    requires forall i, j :: 0 <= i < j < |pairs| ==> pairs[i].0 != pairs[j].0
    ensures Keys(pairs) == seq(|pairs|, i requires 0 <= i < |pairs| => pairs[i].0)
    decreases |pairs|
  {
    if pairs != [] {
      var init := pairs[..|pairs| - 1];
      var last := pairs[|pairs| - 1];
      LastKeyNew(pairs);
      DistinctKeysInOrder(init);
      assert last.0 !in Keys(init);
      assert Keys(pairs) == Keys(init) + [last.0];
    }
  }

  lemma {:induction false} DistinctKeysSingleValues(pairs: seq<(string, seq<string>)>)
    requires forall i, j :: 0 <= i < j < |pairs| ==> pairs[i].0 != pairs[j].0
    ensures forall i :: 0 <= i < |pairs| ==> ValuesOf(pairs, pairs[i].0) == [pairs[i].1]
    decreases |pairs|
  {
    if pairs != [] {
      var init := pairs[..|pairs| - 1];
      var last := pairs[|pairs| - 1];
      LastKeyNew(pairs);
      DistinctKeysSingleValues(init);
      assert ValuesOf(init, last.0) == [] by {
        if ValuesOf(init, last.0) != [] {
          ValuesOfHasKey(init, last.0);
        }
      }
      forall i | 0 <= i < |pairs| ensures ValuesOf(pairs, pairs[i].0) == [pairs[i].1] {
        if i < |pairs| - 1 {
          assert init[i] == pairs[i];
        }
      }
    }
  }

  lemma {:induction false} ValuesOfHasKey(pairs: seq<(string, seq<string>)>, key: string)
    requires ValuesOf(pairs, key) != []
    ensures exists i :: 0 <= i < |pairs| && pairs[i].0 == key
    decreases |pairs|
  {
    var init := pairs[..|pairs| - 1];
    if pairs[|pairs| - 1].0 != key {
      ValuesOfHasKey(init, key);
      var i :| 0 <= i < |init| && init[i].0 == key;
      assert pairs[i] == init[i];
    }
  }

  /**
   * A header or query collection with distinct keys (as ASP.NET Core's are) is logged
   * as one string per key, the values joined with ",", in the collection's order.
   */
  lemma DistinctKeysGiveSingles(pairs: seq<(string, seq<string>)>)
    requires forall i, j :: 0 <= i < j < |pairs| ==> pairs[i].0 != pairs[j].0
    ensures Grouped(pairs) == seq(|pairs|, i requires 0 <= i < |pairs| => (pairs[i].0, Single(Join(",", pairs[i].1))))
  {
    DistinctKeysGroups(pairs);
  }

  // ---------------------------------------------------------------------------
  // Response headers
  // ---------------------------------------------------------------------------

  /** Adding entry `i` throws: its value list is empty (`First()`) or its key is taken (`Add`). */
  predicate AddFails(pairs: seq<(string, seq<string>)>, i: nat)
    requires i < |pairs|
  {
    pairs[i].1 == [] || exists j :: 0 <= j < i && pairs[j].0 == pairs[i].0
  }

  function CutFrom(pairs: seq<(string, seq<string>)>, i: nat): (n: nat)
    requires i <= |pairs|
    requires forall j :: 0 <= j < i ==> !AddFails(pairs, j) && pairs[j].1 != []
    ensures i <= n <= |pairs|
    ensures forall j :: 0 <= j < n ==> !AddFails(pairs, j) && pairs[j].1 != []
    ensures n < |pairs| ==> AddFails(pairs, n)
    decreases |pairs| - i
  {
    if i == |pairs| || AddFails(pairs, i) then i else CutFrom(pairs, i + 1)
  }

  /** How many entries the response-header loop adds before it throws or ends. */
  function HeaderCut(pairs: seq<(string, seq<string>)>): (n: nat)
    ensures n <= |pairs|
    ensures forall j :: 0 <= j < n ==> !AddFails(pairs, j)
    ensures forall j :: 0 <= j < n ==> pairs[j].1 != []
    ensures n < |pairs| ==> AddFails(pairs, n)
  {
    CutFrom(pairs, 0)
  }

  /** A response header as logged: the `StringValues` when several, else its first value. */
  function HeaderValue(values: seq<string>): FieldValue
    requires values != []
  {
    if |values| > 1 then Many(values) else Single(values[0])
  }

  /** The response-header dictionary: the entries added before the first failing `Add`. */
  function HeaderEntries(pairs: seq<(string, seq<string>)>): seq<(string, FieldValue)>
  {
    var n := HeaderCut(pairs);
    seq(n, i requires 0 <= i < n => (pairs[i].0, HeaderValue(pairs[i].1)))
  }

  /** Lines 368-381: add each masked header; an exception ends the loop and is swallowed. */
  method CollectResponseHeaders(pairs: seq<(string, seq<string>)>) returns (d: seq<(string, FieldValue)>)
    ensures d == HeaderEntries(pairs)
  {
    d := [];
    var i := 0;
    while i < |pairs|
      invariant i <= HeaderCut(pairs)
      invariant |d| == i
      invariant forall j :: 0 <= j < i ==> d[j] == (pairs[j].0, HeaderValue(pairs[j].1))
    {
      var (key, values) := pairs[i];
      if values == [] || exists j :: 0 <= j < |d| && d[j].0 == key {
        assert AddFails(pairs, i);
        break;
      }
      d := d + [(key, HeaderValue(values))];
      i := i + 1;
    }
    assert i == HeaderCut(pairs);
  }

  /** With distinct keys and no empty value list, every response header is logged. */
  lemma AllResponseHeadersLogged(pairs: seq<(string, seq<string>)>)
    requires forall i, j :: 0 <= i < j < |pairs| ==> pairs[i].0 != pairs[j].0
    requires forall i :: 0 <= i < |pairs| ==> pairs[i].1 != []
    ensures |HeaderEntries(pairs)| == |pairs|
    ensures forall i :: 0 <= i < |pairs| ==>
      HeaderEntries(pairs)[i] == (pairs[i].0, if |pairs[i].1| > 1 then Many(pairs[i].1) else Single(pairs[i].1[0]))
  {
  }

  // ---------------------------------------------------------------------------
  // User agent
  // ---------------------------------------------------------------------------

  /** `Headers["User-Agent"]`: the first header named so, ignoring case. */
  function UserAgentValues(headers: seq<(string, seq<string>)>): Option<seq<string>>
  {
    if headers == [] then None
    else if EqualIgnoringCase(headers[0].0, "User-Agent") then Some(headers[0].1)
    else UserAgentValues(headers[1..])
  }

  /** Lines 268-288: the raw user agent, then what the parser reports, if it does not throw. */
  function UserAgentEntries(h: Host): (d: seq<(string, string)>)
    ensures UserAgentValues(h.request.headers).None? <==> d == []
    ensures UserAgentValues(h.request.headers).Some? ==>
      && d[0] == ("_Raw", Join(",", UserAgentValues(h.request.headers).value))
      && (|d| == 8 <==> h.parseUserAgent(d[0].1).Some?)
      && (|d| == 1 <==> h.parseUserAgent(d[0].1).None?)
  {
    match UserAgentValues(h.request.headers)
    case None => []
    case Some(values) =>
      var raw := Join(",", values);
      [("_Raw", raw)] +
      match h.parseUserAgent(raw)
      case None => []
      case Some(c) =>
        [("Browser", c.browser), ("BrowserVersion", c.browserMajor + "." + c.browserMinor),
         ("OperatingSystem", c.os), ("OperatingSystemVersion", c.osMajor + "." + c.osMinor),
         ("Device", c.device), ("DeviceModel", c.deviceModel), ("DeviceManufacturer", c.deviceBrand)]
  }

  // ---------------------------------------------------------------------------
  // Custom properties
  // ---------------------------------------------------------------------------

  /** The names of `pairs` are pairwise distinct. */
  predicate DistinctNames(pairs: seq<(string, string)>)
  {
    forall i, j :: 0 <= i < j < |pairs| ==> pairs[i].0 != pairs[j].0
  }

  /** `ToDictionary(x => x.Name, x => x.Value)`: `None` when a name repeats (it throws). */
  function ToDictionary(pairs: seq<(string, string)>): Option<map<string, string>>
  {
    if pairs == [] then Some(map[])
    else
      var last := pairs[|pairs| - 1];
      match ToDictionary(pairs[..|pairs| - 1])
      case None => None
      case Some(m) => if last.0 in m then None else Some(m[last.0 := last.1])
  }

  /** A dictionary `ToDictionary` returns holds exactly the names, each with its value. */
  lemma {:induction false} ToDictionaryEntries(pairs: seq<(string, string)>)
    requires ToDictionary(pairs).Some?
    ensures forall k :: k in ToDictionary(pairs).value <==> exists i :: 0 <= i < |pairs| && pairs[i].0 == k
    ensures forall i :: 0 <= i < |pairs| ==> ToDictionary(pairs).value[pairs[i].0] == pairs[i].1
    decreases |pairs|
  {
    if pairs != [] {
      var init, last := pairs[..|pairs| - 1], pairs[|pairs| - 1];
      ToDictionaryEntries(init);
      var m0 := ToDictionary(init).value;
      assert ToDictionary(pairs).value == m0[last.0 := last.1];
      forall k ensures k in ToDictionary(pairs).value <==> exists i :: 0 <= i < |pairs| && pairs[i].0 == k {
        if k in m0 {
          var i :| 0 <= i < |init| && init[i].0 == k;
          assert pairs[i] == init[i];
        }
        if exists i :: 0 <= i < |pairs| && pairs[i].0 == k {
          var i :| 0 <= i < |pairs| && pairs[i].0 == k;
          if i < |init| {
            assert init[i] == pairs[i];
          }
        }
      }
      forall i | 0 <= i < |init| ensures ToDictionary(pairs).value[pairs[i].0] == pairs[i].1 {
        assert init[i] == pairs[i];
        assert pairs[i].0 in m0;
      }
    }
  }

  /**
   * `ToDictionary` succeeds exactly when the names are distinct, and then maps each
   * name to its value and nothing else.
   */
  lemma {:induction false} ToDictionaryContents(pairs: seq<(string, string)>)
    ensures ToDictionary(pairs).Some? <==> DistinctNames(pairs)
    ensures ToDictionary(pairs).Some? ==>
      && (forall k :: k in ToDictionary(pairs).value <==> exists i :: 0 <= i < |pairs| && pairs[i].0 == k)
      && (forall i :: 0 <= i < |pairs| ==> ToDictionary(pairs).value[pairs[i].0] == pairs[i].1)
    decreases |pairs|
  {
    if pairs != [] {
      var init, last := pairs[..|pairs| - 1], pairs[|pairs| - 1];
      ToDictionaryContents(init);
      if DistinctNames(pairs) {
        assert DistinctNames(init) by {
          forall i, j | 0 <= i < j < |init| ensures init[i].0 != init[j].0 {
            assert init[i] == pairs[i] && init[j] == pairs[j];
          }
        }
        ToDictionaryEntries(init);
        assert last.0 !in ToDictionary(init).value by {
          forall i | 0 <= i < |init| ensures init[i].0 != last.0 {
            assert init[i] == pairs[i];
          }
        }
      } else if DistinctNames(init) {
        var i, j :| 0 <= i < j < |pairs| && pairs[i].0 == pairs[j].0;
        assert j == |init|;
        ToDictionaryEntries(init);
        assert init[i] == pairs[i];
        assert last.0 in ToDictionary(init).value;
      }
      if ToDictionary(pairs).Some? {
        ToDictionaryEntries(pairs);
      }
    }
  }

  /** Lines 393-394: the endpoint's `LogCustomProperty` values, or null without an endpoint. */
  function CustomProperties(e: Option<Endpoint>): Result<Option<map<string, string>>, Exception>
  {
    match e
    case None => Success(None)
    case Some(ep) =>
      match ToDictionary(ep.customProperties)
      case None => Failure(DuplicateKey)
      case Some(m) => Success(Some(m))
  }

  // ---------------------------------------------------------------------------
  // LogHttpRequest
  // ---------------------------------------------------------------------------

  /** What `InvokeAsyncBase` passes to `LogHttpRequest`. */
  datatype LogArgs = LogArgs(
    requestBody: Option<string>,
    finalResponseBody: Option<string>,
    finalStatusCode: int,
    isRequestOk: bool,
    ex: Option<Exception>)

  /** A run of `LogHttpRequest`: no record, one record written, or an exception thrown. */
  datatype LogResult =
    | Skipped
    | Written(level: LogEventLevel, exception: Option<Exception>, context: HttpContextInfo, entry: LogEntryParameters)
    | Threw(error: Exception)

  /** The request half of a record before the request line is added. */
  datatype RequestSection = RequestSection(
    body: BodyLog,
    headers: seq<(string, FieldValue)>,
    query: seq<(string, FieldValue)>,
    userAgent: seq<(string, string)>)

  /** Lines 247-266: the masked request headers, grouped, when their channel is on. */
  function RequestHeaderLog(h: Host, o: Options, isRequestOk: bool): seq<(string, FieldValue)>
  {
    if !ChannelOn(o.requestHeaderLogMode, isRequestOk) then []
    else
      match h.maskHeaders(h.request.headers, o.maskedProperties, o.maskFormat)
      case None => []
      case Some(masked) => Grouped(masked)
  }

  /** Lines 220-310: body, headers, user agent and query, all inside the request-body gate. */
  function RequestSectionFor(h: Host, o: Options, requestBody: Option<string>, isRequestOk: bool)
    : Result<RequestSection, Exception>
  {
    if !ChannelOn(o.requestBodyLogMode, isRequestOk) then Success(RequestSection(NotLoggedBody, [], [], []))
    else
      var body :=
        if ShouldLogRequestData(h.endpoint) then
          LogBody(h, o, requestBody, o.logRequestBodyAsStructuredObject, o.requestBodyLogTextLengthLimit)
        else Success(NotLoggedBody);
      match body
      case Failure(e) => Failure(e)
      case Success(b) =>
        Success(RequestSection(b, RequestHeaderLog(h, o, isRequestOk), Grouped(h.request.query), UserAgentEntries(h)))
  }

  /** The request half of `LogHttpRequest`, as the source assigns it. */
  method LogRequestSection(h: Host, o: Options, requestBody: Option<string>, isRequestOk: bool)
    returns (r: Result<RequestSection, Exception>)
    ensures r == RequestSectionFor(h, o, requestBody, isRequestOk)
  {
    var body := NotLoggedBody;
    var requestHeader: seq<(string, FieldValue)> := [];
    var requestQuery: seq<(string, FieldValue)> := [];
    var userAgent: seq<(string, string)> := [];
    if ChannelOn(o.requestBodyLogMode, isRequestOk) {
      if ShouldLogRequestData(h.endpoint) {
        var b := LogBodyText(h, o, requestBody, o.logRequestBodyAsStructuredObject, o.requestBodyLogTextLengthLimit);
        if b.Failure? {
          return Failure(b.error);
        }
        body := b.value;
      }
      if ChannelOn(o.requestHeaderLogMode, isRequestOk) {
        var masked := h.maskHeaders(h.request.headers, o.maskedProperties, o.maskFormat);
        if masked.Some? {
          requestHeader := CollectGroups(masked.value);
        }
      }
      userAgent := UserAgentEntries(h);
      requestQuery := CollectGroups(h.request.query);
    }
    r := Success(RequestSection(body, requestHeader, requestQuery, userAgent));
  }

  /** Lines 362-382: the masked response headers, when their channel is on. */
  function ResponseHeaderLog(h: Host, o: Options, isRequestOk: bool): seq<(string, FieldValue)>
  {
    if !ChannelOn(o.responseHeaderLogMode, isRequestOk) then []
    else
      match h.maskHeaders(h.responseHeaders, o.maskedProperties, o.maskFormat)
      case None => []
      case Some(masked) => HeaderEntries(masked)
  }

  /** Lines 327-360: the response body, when its channel is on and the endpoint allows it. */
  function ResponseBodyFor(h: Host, o: Options, finalResponseBody: Option<string>, isRequestOk: bool)
    : Result<BodyLog, Exception>
  {
    if ChannelOn(o.responseBodyLogMode, isRequestOk) && ShouldLogResponseData(h.endpoint) then
      LogBody(h, o, finalResponseBody, o.logResponseBodyAsStructuredObject, o.responseBodyLogTextLengthLimit)
    else Success(NotLoggedBody)
  }

  /** Lines 312-325 and 384-404: the context the record describes. */
  function ContextInfo(h: Host, a: LogArgs, rq: RequestSection, body: BodyLog,
                       headers: seq<(string, FieldValue)>, props: Option<map<string, string>>): HttpContextInfo
  {
    var r := h.request;
    HttpContextInfo(
      HttpRequestInfo(r.clientIp, r.httpMethod, r.scheme, r.host, r.path, r.queryString, rq.query,
                      rq.body.text.GetOr(""), rq.body.obj, rq.headers, rq.userAgent),
      HttpResponseInfo(a.finalStatusCode, h.elapsed, body.text.GetOr(""), body.obj, headers),
      props,
      h.diagnostics)
  }

  /**
   * `LogHttpRequest`: the record written for one exchange, whose level comes from the
   * status the response has when logging (`contextStatus`).
   */
  function LogFor(h: Host, o: Options, a: LogArgs, contextStatus: int): LogResult
  {
    if !LogModeAllows(o.logMode, a.isRequestOk) || !ShouldLogHttpRequest(h.endpoint) then Skipped
    else
      match RequestSectionFor(h, o, a.requestBody, a.isRequestOk)
      case Failure(e) => Threw(e)
      case Success(rq) =>
        match ResponseBodyFor(h, o, a.finalResponseBody, a.isRequestOk)
        case Failure(e) => Threw(e)
        case Success(body) =>
          match CustomProperties(h.endpoint)
          case Failure(e) => Threw(e)
          case Success(props) =>
            var info := ContextInfo(h, a, rq, body, ResponseHeaderLog(h, o, a.isRequestOk), props);
            Written(o.getLevel(contextStatus, h.elapsed, a.ex), a.ex, info, o.getLogMessageAndProperties(info))
  }

  /** Lines 197-416. */
  method LogHttpRequest(h: Host, o: Options, a: LogArgs, contextStatus: int) returns (r: LogResult)
    ensures r == LogFor(h, o, a, contextStatus)
  {
    if o.logMode == LogNone {
      return Skipped;
    }
    if a.isRequestOk && o.logMode != LogAll {
      return Skipped;
    }
    var level := o.getLevel(contextStatus, h.elapsed, a.ex);
    if !ShouldLogHttpRequest(h.endpoint) {
      return Skipped;
    }
    var rq := LogRequestSection(h, o, a.requestBody, a.isRequestOk);
    if rq.Failure? {
      return Threw(rq.error);
    }
    var body := NotLoggedBody;
    if ChannelOn(o.responseBodyLogMode, a.isRequestOk) && ShouldLogResponseData(h.endpoint) {
      var b := LogBodyText(h, o, a.finalResponseBody, o.logResponseBodyAsStructuredObject, o.responseBodyLogTextLengthLimit);
      if b.Failure? {
        return Threw(b.error);
      }
      body := b.value;
    }
    var responseHeader: seq<(string, FieldValue)> := [];
    if ChannelOn(o.responseHeaderLogMode, a.isRequestOk) {
      var masked := h.maskHeaders(h.responseHeaders, o.maskedProperties, o.maskFormat);
      if masked.Some? {
        responseHeader := CollectResponseHeaders(masked.value);
      }
    }
    var props := CustomProperties(h.endpoint);
    if props.Failure? {
      return Threw(props.error);
    }
    var info := ContextInfo(h, a, rq.value, body, responseHeader, props.value);
    r := Written(level, a.ex, info, o.getLogMessageAndProperties(info));
  }

  // ---------------------------------------------------------------------------
  // Properties of LogHttpRequest
  // ---------------------------------------------------------------------------

  /** No record exactly when the master mode or the endpoint's `IgnoreLog` says so. */
  lemma SkippedIff(h: Host, o: Options, a: LogArgs, contextStatus: int)
    ensures LogFor(h, o, a, contextStatus) == Skipped <==>
      !ChannelOn(o.logMode, a.isRequestOk) || !ShouldLogHttpRequest(h.endpoint)
  {
  }

  /**
   * With the request channel off, the request is logged as "(Not Logged)" with no
   * object, headers, query or user agent.
   */
  lemma RequestChannelOff(h: Host, o: Options, a: LogArgs, contextStatus: int)
    requires !ChannelOn(o.requestBodyLogMode, a.isRequestOk)
    ensures var r := LogFor(h, o, a, contextStatus);
      r.Written? ==>
        var q := r.context.request;
        q.bodyString == NotLogged && q.body.None? && q.headers == [] && q.query == [] && q.userAgent == []
  {
  }

  /**
   * With the request channel on but `RequestDataLogIgnore` on the endpoint, only the
   * body is withheld: the query and user agent are still logged.
   */
  lemma RequestDataIgnored(h: Host, o: Options, a: LogArgs, contextStatus: int)
    requires ChannelOn(o.requestBodyLogMode, a.isRequestOk) && !ShouldLogRequestData(h.endpoint)
    ensures var r := LogFor(h, o, a, contextStatus);
      r.Written? ==>
        var q := r.context.request;
        && q.bodyString == NotLogged && q.body.None?
        && q.query == Grouped(h.request.query) && q.userAgent == UserAgentEntries(h)
  {
  }

  /**
   * A non-blank request body, with the request channel on, is cut to the limit, and its
   * masked object is kept whether or not the text was cut; a negative limit throws.
   */
  lemma RequestBodyLogged(h: Host, o: Options, a: LogArgs, contextStatus: int)
    requires LogModeAllows(o.logMode, a.isRequestOk) && ShouldLogHttpRequest(h.endpoint)
    requires ChannelOn(o.requestBodyLogMode, a.isRequestOk) && ShouldLogRequestData(h.endpoint)
    requires !IsNullOrWhiteSpace(a.requestBody)
    ensures var r := LogFor(h, o, a, contextStatus);
      o.requestBodyLogTextLengthLimit < 0 ==> r == Threw(ArgumentOutOfRange)
    ensures var r := LogFor(h, o, a, contextStatus);
      r.Written? ==>
        var (full, obj) := Structure(h, o, a.requestBody.value, o.logRequestBodyAsStructuredObject);
        var q := r.context.request;
        && q.body == obj
        && |q.bodyString| == Min(|full|, o.requestBodyLogTextLengthLimit)
        && q.bodyString == full[..|q.bodyString|]
  {
  }

  /** The record's status is the one `InvokeAsyncBase` passes, its level the option's verdict. */
  lemma WrittenStatusAndLevel(h: Host, o: Options, a: LogArgs, contextStatus: int)
    ensures var r := LogFor(h, o, a, contextStatus);
      r.Written? ==>
        && r.context.response.statusCode == a.finalStatusCode
        && r.context.response.elapsedMilliseconds == h.elapsed
        && r.level == o.getLevel(contextStatus, h.elapsed, a.ex)
        && r.exception == a.ex
        && r.entry == o.getLogMessageAndProperties(r.context)
  {
  }

  /**
   * Under the default options a written record has the default level, and its message
   * arguments are method, path, the status passed in, and the elapsed time.
   */
  lemma DefaultOptionsRecord(h: Host, isApiOnly: bool, bypass: bool, a: LogArgs, contextStatus: int)
    ensures var r := LogFor(h, NewOptions(isApiOnly, bypass), a, contextStatus);
      r.Written? ==>
        && r.level == DefaultGetLevel(contextStatus, h.elapsed, a.ex)
        && r.entry.messageParameters ==
             [TextValue(h.request.httpMethod), TextValue(h.request.path),
              IntValue(a.finalStatusCode), IntValue(h.elapsed)]
  {
  }

  /**
   * A repeated `LogCustomProperty` name makes `LogHttpRequest` throw once everything
   * before it has passed.
   */
  lemma DuplicateCustomPropertyThrows(h: Host, o: Options, a: LogArgs, contextStatus: int, i: nat, j: nat)
    requires h.endpoint.Some? && i < j < |h.endpoint.value.customProperties|
    requires h.endpoint.value.customProperties[i].0 == h.endpoint.value.customProperties[j].0
    ensures var r := LogFor(h, o, a, contextStatus);
      !r.Skipped? ==> r.Threw?
  {
    ToDictionaryContents(h.endpoint.value.customProperties);
  }

  // ---------------------------------------------------------------------------
  // InvokeAsyncBase
  // ---------------------------------------------------------------------------

  const ReadWarning: string := "AutoWrapper cannot read request body due to exception"
  const StartedWarning: string := "The response has already started, the AutoWrapper.Plus middleware will not be executed."

  /** Lines 51-52: swagger, non-API and excluded requests go straight to the next middleware. */
  predicate Bypassed(h: Host)
  {
    h.isSwagger || !h.isApi || h.isExclude
  }

  function Settings(o: Options): WrapSettings
  {
    WrapSettings(o.isApiOnly, o.bypassHtmlValidation, o.ignoreWrapForOkRequests, o.useApiProblemDetailsException)
  }

  /** The locals `finally` reads. */
  datatype Locals = Locals(
    requestBody: Option<string>,
    finalResponse: (int, string),
    responseText: Option<string>,
    isRequestOk: bool,
    ex: Option<Exception>)

  /** Where an intercepted request stands when `finally` begins. */
  datatype Stage = Stage(
    locals: Locals,
    status: int,
    started: bool,
    sink: Sink,
    events: seq<Event<LogResult>>,
    pending: Option<Exception>)

  /** The exception-handling helper of the `catch` block (lines 161-169). */
  function CatchCall(o: Options): Call
  {
    if o.useApiProblemDetailsException then HandleProblemDetailsForException else HandleException
  }

  /**
   * Lines 151-174, entered with exception `e` and the exchange at `status`/`started`:
   * a started response only warns; otherwise the exception helper runs, and when it
   * does not throw its pair and the buffer's text replace the locals and the buffer is
   * copied out. Its `events` are the ones the block adds.
   */
  function CatchBlock(h: Host, o: Options, l: Locals, e: Exception, status: int, started: bool, sink: Sink): Stage
  {
    var l := l.(ex := Some(e));
    if started then Stage(l, status, true, sink, [Warned(StartedWarning)], None)
    else
      var call := CatchCall(o);
      var ho := h.handle(call);
      if ho.fault.Some? then Stage(l, ho.status, ho.started, sink, [Invoked(call)], ho.fault)
      else
        Stage(l.(finalResponse := ho.response, responseText := Some(ho.buffered)), ho.status, ho.started, sink,
              [Invoked(call), Invoked(RevertResponseBody)], None)
  }

  /** Lines 58-68: the request body as read before the `try` block; null when reading failed. */
  function RequestBodyOf(h: Host): Option<string>
  {
    if h.requestBody.BodyRead? then h.requestBody.text else None
  }

  /** Lines 64-67: a failed read of the request body is only warned about. */
  function ReadEvents(h: Host): seq<Event<LogResult>>
  {
    if h.requestBody.BodyReadFailed? then [Warned(ReadWarning)] else []
  }

  /** The locals as the `try` block leaves them. */
  function LocalsAfterTry(h: Host, o: Options, entryStatus: int): Locals
  {
    var t := TryBlock(h, Settings(o));
    Locals(RequestBodyOf(h), t.finalResponse.GetOr((entryStatus, "")), t.responseText, t.isRequestOk, None)
  }

  /**
   * Lines 148-174: what follows the `try` block once it ended with `flow` and left the
   * exchange at `status`/`started`/`sink`; `events` are the ones added here.
   */
  function AfterTry(h: Host, o: Options, l: Locals, flow: Flow, status: int, started: bool, sink: Sink): Stage
  {
    match flow
    case Returned(exit) =>
      Stage(l, status, started, sink, if exit == ResponseStarted then [Warned(StartedWarning)] else [], None)
    case Raised(e) => CatchBlock(h, o, l, e, status, started, sink)
  }

  /** Lines 56-174: everything up to `finally`, for a request that is not bypassed. */
  function BeforeFinally(h: Host, o: Options, entryStatus: int): Stage
  {
    var t := TryBlock(h, Settings(o));
    var a := AfterTry(h, o, LocalsAfterTry(h, o, entryStatus), t.flow, t.status, t.started, t.sink);
    a.(events := ReadEvents(h) + Invocations(t.calls) + a.events)
  }


  /** Lines 177-180: a blank handler response falls back to the captured text. */
  function FinallyArgs(l: Locals): LogArgs
  {
    var body := if IsNullOrWhiteSpace(Some(l.finalResponse.1)) then l.responseText else Some(l.finalResponse.1);
    LogArgs(l.requestBody, body, l.finalResponse.0, l.isRequestOk, l.ex)
  }

  /** An exchange as `InvokeAsyncBase` leaves it, and the exception it lets escape. */
  datatype Run = Run(status: int, started: bool, sink: Sink, events: seq<Event<LogResult>>, escaped: Option<Exception>)

  /** `InvokeAsyncBase`, for a response at `entryStatus` writing to `entrySink`. */
  function Intercept(h: Host, o: Options, entryStatus: int, entrySink: Sink): Run
  {
    var d := h.downstream;
    if Bypassed(h) then Run(d.status, d.started, entrySink, [Invoked(Next)], d.fault)
    else
      var st := BeforeFinally(h, o, entryStatus);
      var r := LogFor(h, o, FinallyArgs(st.locals), st.status);
      Run(st.status, st.started, st.sink, st.events + [Logged(r)], if r.Threw? then Some(r.error) else st.pending)
  }

  /** Lines 418-423: only a warning. */
  method LogResponseHasStartedError(x: HttpExchange<LogResult>)
    modifies x
    ensures x.trace == old(x.trace) + [Warned(StartedWarning)]
    ensures x.statusCode == old(x.statusCode) && x.hasStarted == old(x.hasStarted) && x.body == old(x.body)
  {
    x.trace := x.trace + [Warned(StartedWarning)];
  }

  /** Lines 49-183. */
  method InvokeAsyncBase(x: HttpExchange<LogResult>, h: Host, o: Options) returns (escaped: Option<Exception>)
    modifies x
    ensures var run := Intercept(h, o, old(x.statusCode), old(x.body));
      && x.statusCode == run.status && x.hasStarted == run.started && x.body == run.sink
      && x.trace == old(x.trace) + run.events && escaped == run.escaped
  {
    var d := h.downstream;
    if Bypassed(h) {
      x.trace := x.trace + [Invoked(Next)];
      x.statusCode, x.hasStarted := d.status, d.started;
      return d.fault;
    }
    var l, pending := RunUntilFinally(x, h, o);
    var r := LogHttpRequest(h, o, FinallyArgs(l), x.statusCode);
    x.trace := x.trace + [Logged(r)];
    escaped := if r.Threw? then Some(r.error) else pending;
  }

  /** Lines 56-174: the request-body read, the `try` block and the `catch` block. */
  method RunUntilFinally(x: HttpExchange<LogResult>, h: Host, o: Options) returns (l: Locals, pending: Option<Exception>)
    modifies x
    ensures var st := BeforeFinally(h, o, old(x.statusCode));
      && l == st.locals && pending == st.pending
      && x.statusCode == st.status && x.hasStarted == st.started && x.body == st.sink
      && x.trace == old(x.trace) + st.events
  {
    var entryStatus := x.statusCode;
    ghost var start := x.trace;
    var requestBody := ReadRequestBody(x, h);
    var flow, isRequestOk, responseText, fr := RunTryBlock(x, h, Settings(o));
    ghost var t := TryBlock(h, Settings(o));
    ghost var invoked := Invocations<LogResult>(t.calls);
    ghost var tried := x.trace;
    l := Locals(requestBody, fr.GetOr((entryStatus, "")), responseText, isRequestOk, None);
    l, pending := RunAfterTry(x, h, o, l, flow);
    ghost var after := AfterTry(h, o, LocalsAfterTry(h, o, entryStatus), t.flow, t.status, t.started, t.sink).events;
    SeqAssociative(start, ReadEvents(h), invoked);
    SeqAssociative(start, ReadEvents(h) + invoked, after);
  }

  /** Lines 58-68. */
  method ReadRequestBody(x: HttpExchange<LogResult>, h: Host) returns (requestBody: Option<string>)
    modifies x
    ensures requestBody == RequestBodyOf(h)
    ensures x.statusCode == old(x.statusCode) && x.hasStarted == old(x.hasStarted) && x.body == old(x.body)
    ensures x.trace == old(x.trace) + ReadEvents(h)
  {
    requestBody := None;
    match h.requestBody {
      case BodyRead(text) => requestBody := text;
      case BodyReadFailed(_) => x.trace := x.trace + [Warned(ReadWarning)];
    }
  }

  /** Lines 148-174. */
  method RunAfterTry(x: HttpExchange<LogResult>, h: Host, o: Options, l0: Locals, flow: Flow)
    returns (l: Locals, pending: Option<Exception>)
    modifies x
    ensures var a := AfterTry(h, o, l0, flow, old(x.statusCode), old(x.hasStarted), old(x.body));
      && l == a.locals && pending == a.pending
      && x.statusCode == a.status && x.hasStarted == a.started && x.body == a.sink
      && x.trace == old(x.trace) + a.events
  {
    l, pending := l0, None;
    match flow {
      case Returned(exit) =>
        if exit == ResponseStarted {
          LogResponseHasStartedError(x);
        }
      case Raised(e) =>
        l, pending := RunCatch(x, h, o, l, e);
    }
  }

  /** Lines 151-174. */
  method RunCatch(x: HttpExchange<LogResult>, h: Host, o: Options, l0: Locals, e: Exception)
    returns (l: Locals, pending: Option<Exception>)
    modifies x
    ensures var c := CatchBlock(h, o, l0, e, old(x.statusCode), old(x.hasStarted), old(x.body));
      && l == c.locals && pending == c.pending
      && x.statusCode == c.status && x.hasStarted == c.started && x.body == c.sink
      && x.trace == old(x.trace) + c.events
  {
    l, pending := l0.(ex := Some(e)), None;
    if x.hasStarted {
      LogResponseHasStartedError(x);
      return;
    }
    var handled := CallHandler(x, h, CatchCall(o));
    if handled.fault.Some? {
      pending := handled.fault;
    } else {
      l := l.(finalResponse := handled.response, responseText := Some(handled.buffered));
      x.trace := x.trace + [Invoked(RevertResponseBody)];
    }
  }

  // ---------------------------------------------------------------------------
  // Properties of InvokeAsyncBase
  // ---------------------------------------------------------------------------

  /** A bypassed request only runs the next middleware: no buffer, no warning, no record. */
  lemma BypassOnlyCallsNext(h: Host, o: Options, entryStatus: int, entrySink: Sink)
    requires Bypassed(h)
    ensures var run := Intercept(h, o, entryStatus, entrySink);
      run.events == [Invoked(Next)] && run.sink == entrySink && LogRuns(run.events) == 0
  {
    assert LogRuns<LogResult>([Invoked(Next)]) == 0;
  }

  /** Every intercepted request runs `LogHttpRequest` exactly once, as its last step. */
  lemma LoggedExactlyOnce(h: Host, o: Options, entryStatus: int, entrySink: Sink)
    requires !Bypassed(h)
    ensures var run := Intercept(h, o, entryStatus, entrySink);
      LogRuns(run.events) == 1 && run.events[|run.events| - 1].Logged?
  {
    var st := BeforeFinally(h, o, entryStatus);
    var r := LogFor(h, o, FinallyArgs(st.locals), st.status);
    assert forall i :: 0 <= i < |st.events| ==> !st.events[i].Logged?;
    NoLogRuns(st.events);
    LogRunsAppend(st.events, [Logged(r)]);
    assert LogRuns([Logged(r)]) == 1 by {
      assert [Logged(r)][1..] == [];
    }
  }

  /**
   * The status logged is the entry status unless a helper returned a pair without
   * throwing, and then it is that helper's: in the `try` block or in `catch`.
   */
  lemma LoggedStatus(h: Host, o: Options, entryStatus: int)
    ensures var st := BeforeFinally(h, o, entryStatus);
      || st.locals.finalResponse == (entryStatus, "")
      || exists c :: ReturnsResponse(c) && Invoked(c) in st.events && h.handle(c).fault.None?
                     && st.locals.finalResponse == h.handle(c).response
    ensures var st := BeforeFinally(h, o, entryStatus);
      forall c :: ReturnsResponse(c) && Invoked(c) in st.events && h.handle(c).fault.None? ==>
        st.locals.finalResponse == h.handle(c).response
  {
    var st := BeforeFinally(h, o, entryStatus);
    forall c | ReturnsResponse(c) && Invoked(c) in st.events && h.handle(c).fault.None?
      ensures st.locals.finalResponse == h.handle(c).response
    {
      PairHelperLogged(h, o, entryStatus, c);
    }
    var t := TryBlock(h, Settings(o));
    var a := AfterTry(h, o, LocalsAfterTry(h, o, entryStatus), t.flow, t.status, t.started, t.sink);
    var calls := Invocations<LogResult>(t.calls);
    assert st.events == ReadEvents(h) + calls + a.events && st.locals == a.locals;
    FinalResponseFromHelper(h, Settings(o));
    if t.finalResponse.Some? {
      var c := t.calls[1];
      assert calls[1] == Invoked(c) && Invoked(c) in calls;
      assert a.locals.finalResponse == h.handle(c).response;
    } else if t.flow.Raised? && !t.started && h.handle(CatchCall(o)).fault.None? {
      var c := CatchCall(o);
      assert a.events[0] == Invoked(c) && Invoked(c) in a.events;
    } else {
      assert a.locals.finalResponse == (entryStatus, "");
    }
  }

  /** A helper that returned a pair without throwing is the one whose pair reaches `finally`. */
  lemma PairHelperLogged(h: Host, o: Options, entryStatus: int, c: Call)
    requires ReturnsResponse(c) && h.handle(c).fault.None?
    requires Invoked(c) in BeforeFinally(h, o, entryStatus).events
    ensures BeforeFinally(h, o, entryStatus).locals.finalResponse == h.handle(c).response
  {
    var st := BeforeFinally(h, o, entryStatus);
    var t := TryBlock(h, Settings(o));
    var a := AfterTry(h, o, LocalsAfterTry(h, o, entryStatus), t.flow, t.status, t.started, t.sink);
    var calls := Invocations<LogResult>(t.calls);
    assert st.events == ReadEvents(h) + calls + a.events && st.locals == a.locals;
    NextThenAtMostOneHelper(h, Settings(o));
    if Invoked(c) in calls {
      var i :| 0 <= i < |calls| && calls[i] == Invoked(c);
      assert i == 1 && t.calls[1] == c;
      TryHelperPair(h, Settings(o));
    } else {
      assert Invoked(c) in a.events;
      assert a.events[0] == Invoked(c);
    }
  }

  /**
   * A request whose next middleware completes and is wrapped by a helper returning a
   * pair is logged with that pair's status, and with its text unless blank, when the
   * captured downstream text is logged instead.
   */
  lemma WrappedResponseLogged(h: Host, o: Options, entryStatus: int, entrySink: Sink)
    requires !Bypassed(h) && ReachesWrap(h, Settings(o))
    requires var c := WrapCall(h.isRequestSuccessful(RewrittenStatus(h, Settings(o))), Settings(o));
      c != WrapIgnore && h.handle(c).fault.None?
    ensures var ok := h.isRequestSuccessful(RewrittenStatus(h, Settings(o)));
      var ho := h.handle(WrapCall(ok, Settings(o)));
      var text := if IsNullOrWhiteSpace(Some(ho.response.1)) then h.downstream.written else ho.response.1;
      var requestBody := if h.requestBody.BodyRead? then h.requestBody.text else None;
      var run := Intercept(h, o, entryStatus, entrySink);
      run.events[|run.events| - 1] ==
        Logged(LogFor(h, o, LogArgs(requestBody, Some(text), ho.response.0, ok, None), ho.status))
  {
    WrappedLocals(h, o, entryStatus);
  }

  /** The locals and status a wrapped response reaches `finally` with. */
  lemma WrappedLocals(h: Host, o: Options, entryStatus: int)
    requires ReachesWrap(h, Settings(o))
    requires var c := WrapCall(h.isRequestSuccessful(RewrittenStatus(h, Settings(o))), Settings(o));
      c != WrapIgnore && h.handle(c).fault.None?
    ensures var ok := h.isRequestSuccessful(RewrittenStatus(h, Settings(o)));
      var ho := h.handle(WrapCall(ok, Settings(o)));
      var st := BeforeFinally(h, o, entryStatus);
      && st.locals == Locals(RequestBodyOf(h), ho.response, Some(h.downstream.written), ok, None)
      && st.status == ho.status
  {
    var s := Settings(o);
    WrapBranch(h, s);
    var t := TryBlock(h, s);
    var ok := h.isRequestSuccessful(RewrittenStatus(h, s));
    var ho := h.handle(WrapCall(ok, s));
    assert t.flow.Returned? && t.flow.exit != ResponseStarted;
    assert t.finalResponse == Some(ho.response) && t.responseText == Some(h.downstream.written);
    assert t.status == ho.status && t.isRequestOk == ok;
  }

  /**
   * An exception from the next middleware, before the response started, goes to the
   * problem-details helper or `HandleExceptionAsync` and is logged with the record.
   */
  lemma ExceptionHandled(h: Host, o: Options, entryStatus: int, entrySink: Sink)
    requires !Bypassed(h) && h.downstream.fault.Some? && !h.downstream.started
    ensures var run := Intercept(h, o, entryStatus, entrySink);
      var st := BeforeFinally(h, o, entryStatus);
      && Invoked(CatchCall(o)) in run.events
      && (CatchCall(o) == HandleProblemDetailsForException <==> o.useApiProblemDetailsException)
      && st.locals.ex == h.downstream.fault
      && !st.locals.isRequestOk
      && (h.handle(CatchCall(o)).fault.None? ==> st.locals.finalResponse == h.handle(CatchCall(o)).response)
  {
    var st := BeforeFinally(h, o, entryStatus);
    var run := Intercept(h, o, entryStatus, entrySink);
    if h.handle(CatchCall(o)).fault.Some? {
      assert st.events[|st.events| - 1] == Invoked(CatchCall(o));
    } else {
      assert st.events[|st.events| - 2] == Invoked(CatchCall(o));
    }
    assert run.events[..|st.events|] == st.events;
  }

  /**
   * When the response has already started after the next middleware, the middleware
   * warns, leaves `Response.Body` on the buffer, and logs once.
   */
  lemma StartedResponseKeepsBuffer(h: Host, o: Options, entryStatus: int, entrySink: Sink)
    requires !Bypassed(h) && h.downstream.fault.None? && h.downstream.started
    ensures var run := Intercept(h, o, entryStatus, entrySink);
      var read := if h.requestBody.BodyReadFailed? then [Warned(ReadWarning)] else [];
      && run.sink == MemoryBuffer
      && run.events[..|run.events| - 1] == read + [Invoked(Next), Warned(StartedWarning)]
  {
  }
}
