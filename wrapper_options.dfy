/**
 * `AutoWrapperOptions` of the main package: the settings the middleware reads per
 * request, their defaults, and the two pluggable policies it installs by default --
 * the severity of a record (`DefaultGetLevel`) and its message template, positional
 * arguments and extra properties (`DefaultLogMessageAndProperties`).
 */
module WrapperOptions {
  import opened Wrappers
  import opened JsonMasking

  /** When a channel (or the whole record) is logged. */
  datatype LogMode = LogNone | LogFailures | LogAll

  /** Serilog's `LogEventLevel`, least to most severe. */
  datatype LogEventLevel = Verbose | Debug | Information | Warning | Error | Fatal
  {
    function Rank(): nat
    {
      match this
      case Verbose => 0
      case Debug => 1
      case Information => 2
      case Warning => 3
      case Error => 4
      case Fatal => 5
    }
  }

  /** A thrown .NET exception, by type name and message. */
  datatype Exception = Exception(typeName: string, message: string)

  /** A header or query value as it is logged: one string, or an array of strings. */
  datatype FieldValue = Single(text: string) | Many(texts: seq<string>)

  /** `HttpRequestInfo`: the request half of the logged context. */
  datatype HttpRequestInfo = HttpRequestInfo(
    clientIp: string,
    httpMethod: string,
    scheme: string,
    host: string,
    path: string,
    queryString: string,
    query: seq<(string, FieldValue)>,
    bodyString: string,
    body: Option<Json>,
    headers: seq<(string, FieldValue)>,
    userAgent: seq<(string, string)>)

  /** `HttpResponseInfo`: the response half of the logged context. */
  datatype HttpResponseInfo = HttpResponseInfo(
    statusCode: int,
    elapsedMilliseconds: nat,
    bodyString: string,
    body: Option<Json>,
    headers: seq<(string, FieldValue)>)

  /** `HttpContextInfo`: everything one record describes. */
  datatype HttpContextInfo = HttpContextInfo(
    request: HttpRequestInfo,
    response: HttpResponseInfo,
    properties: Option<map<string, string>>,
    diagnostics: map<string, string>)

  /** A value handed to the logger as a template argument or an extra property. */
  datatype LogValue = TextValue(text: string) | IntValue(number: int) | ContextValue(context: HttpContextInfo)

  /** `LogEntryParameters`: template, positional arguments, named extra properties. */
  datatype LogEntryParameters = LogEntryParameters(
    messageTemplate: string,
    messageParameters: seq<LogValue>,
    additionalProperties: map<string, LogValue>)

  /** The settings of `AutoWrapperOptions` (and of `OptionBase`) that the core reads. */
  datatype Options = Options(
    useApiProblemDetailsException: bool,
    swaggerPath: string,
    ignoreWrapForOkRequests: bool,
    logMode: LogMode,
    requestHeaderLogMode: LogMode,
    requestBodyLogMode: LogMode,
    logRequestBodyAsStructuredObject: bool,
    responseHeaderLogMode: LogMode,
    responseBodyLogMode: LogMode,
    logResponseBodyAsStructuredObject: bool,
    maskedProperties: seq<string>,
    maskFormat: string,
    responseBodyLogTextLengthLimit: int,
    requestBodyLogTextLengthLimit: int,
    isApiOnly: bool,
    bypassHtmlValidation: bool,
    getLevel: (int, nat, Option<Exception>) -> LogEventLevel,
    getLogMessageAndProperties: HttpContextInfo -> LogEntryParameters)

  // ---------------------------------------------------------------------------
  // Default severity
  // ---------------------------------------------------------------------------

  /**
   * `DefaultGetLevel`: the response status code decides first (5xx Error, 4xx Warning);
   * below 400 an exception makes the record an Error, otherwise it is Information.
   * The elapsed time is not consulted.
   */
  function DefaultGetLevel(statusCode: int, elapsed: nat, ex: Option<Exception>): (level: LogEventLevel)
    ensures level == Error <==> statusCode >= 500 || (statusCode < 400 && ex.Some?)
    ensures level == Warning <==> 400 <= statusCode < 500
    ensures level == Information <==> statusCode < 400 && ex.None?
  {
    if statusCode >= 500 then Error
    else if statusCode >= 400 then Warning
    else if ex.Some? then Error
    else Information
  }

  /** An exception never lowers the default level, and never changes it at 400 and above. */
  lemma ExceptionNeverLowersLevel(statusCode: int, elapsed: nat, ex: Exception)
    ensures DefaultGetLevel(statusCode, elapsed, Some(ex)).Rank() >= DefaultGetLevel(statusCode, elapsed, None).Rank()
    ensures statusCode >= 400 ==> DefaultGetLevel(statusCode, elapsed, Some(ex)) == DefaultGetLevel(statusCode, elapsed, None)
  {
  }

  /** The default level never depends on the elapsed time. */
  lemma LevelIgnoresElapsed(statusCode: int, e1: nat, e2: nat, ex: Option<Exception>)
    ensures DefaultGetLevel(statusCode, e1, ex) == DefaultGetLevel(statusCode, e2, ex)
  {
  }

  // ---------------------------------------------------------------------------
  // Message templates
  // ---------------------------------------------------------------------------

  /** The first index at or after `from` where `s` holds `c`. */
  function IndexOf(s: string, c: char, from: nat): (r: Option<nat>)
    ensures r.Some? ==> from <= r.value < |s| && s[r.value] == c
    ensures r.Some? ==> forall j :: from <= j < r.value ==> s[j] != c
    ensures r.None? ==> forall j :: from <= j < |s| ==> s[j] != c
    decreases |s| - from
  {
    if from >= |s| then None
    else if s[from] == c then Some(from)
    else IndexOf(s, c, from + 1)
  }

  /** The property name of a hole's text: what precedes a `:` format or `,` alignment. */
  function HoleName(hole: string): string
  {
    if hole == [] || hole[0] == ':' || hole[0] == ',' then []
    else [hole[0]] + HoleName(hole[1..])
  }

  /** The property names of the `{...}` holes of a message template, in order. */
  function Holes(template: string): seq<string>
    decreases |template|
  {
    if template == [] then []
    else if template[0] != '{' then Holes(template[1..])
    else match IndexOf(template, '}', 1)
      case None => []
      case Some(k) => [HoleName(template[1..k])] + Holes(template[k + 1..])
  }

  lemma {:induction false} HolesSkipText(text: string, rest: string)
    requires '{' !in text
    ensures Holes(text + rest) == Holes(rest)
    decreases |text|
  {
    if text == [] {
      assert text + rest == rest;
    } else {
      assert (text + rest)[0] == text[0] && text[0] in text;
      assert (text + rest)[1..] == text[1..] + rest;
      HolesSkipText(text[1..], rest);
    }
  }

  lemma {:induction false} HoleNamePlain(name: string, format: string)
    requires ':' !in name && ',' !in name
    ensures HoleName(name) == name
    ensures HoleName(name + ":" + format) == name
    decreases |name|
  {
    if name == [] {
      assert name + ":" + format == ":" + format;
    } else {
      assert name[0] in name;
      assert (name + ":" + format)[0] == name[0];
      assert (name + ":" + format)[1..] == name[1..] + ":" + format;
      HoleNamePlain(name[1..], format);
    }
  }

  lemma HolesTakeHole(hole: string, rest: string)
    requires '}' !in hole
    ensures Holes("{" + hole + "}" + rest) == [HoleName(hole)] + Holes(rest)
  {
    var t := "{" + hole + "}" + rest;
    var k := |hole| + 1;
    assert t[k] == '}';
    forall j | 1 <= j < k ensures t[j] != '}' {
      assert t[j] == hole[j - 1];
    }
    assert IndexOf(t, '}', 1) == Some(k);
    assert t[1..k] == hole;
    assert t[k + 1..] == rest;
  }

  /** A piece of a message template: literal text, or a `{name}` / `{name:format}` hole. */
  datatype TemplateToken = TextToken(text: string) | PropertyToken(name: string, format: string)

  /** The template text of a token sequence. */
  function Render(tokens: seq<TemplateToken>): string
  {
    if tokens == [] then []
    else
      var head := match tokens[0]
        case TextToken(t) => t
        case PropertyToken(n, f) => "{" + HoleText(n, f) + "}";
      head + Render(tokens[1..])
  }

  /** The hole names of a token sequence, in order. */
  function PropertyNames(tokens: seq<TemplateToken>): seq<string>
  {
    if tokens == [] then []
    else (if tokens[0].PropertyToken? then [tokens[0].name] else []) + PropertyNames(tokens[1..])
  }

  /** Literal text has no braces; names have no `:`, `,` or `}`; formats have no `}`. */
  predicate WellFormedToken(token: TemplateToken)
  {
    match token
    case TextToken(t) => '{' !in t && '}' !in t
    case PropertyToken(n, f) => ':' !in n && ',' !in n && '}' !in n && '}' !in f
  }

  predicate WellFormedTokens(tokens: seq<TemplateToken>)
  {
    forall i :: 0 <= i < |tokens| ==> WellFormedToken(tokens[i])
  }

  /** Reading back a well-formed template finds exactly its holes, in order. */
  lemma {:induction false} HolesOfRender(tokens: seq<TemplateToken>)
    requires WellFormedTokens(tokens)
    ensures Holes(Render(tokens)) == PropertyNames(tokens)
    decreases |tokens|
  {
    if tokens != [] {
      var rest := Render(tokens[1..]);
      assert WellFormedTokens(tokens[1..]) by {
        forall i | 0 <= i < |tokens| - 1 ensures tokens[1..][i] == tokens[i + 1] { }
      }
      HolesOfRender(tokens[1..]);
      match tokens[0] {
        case TextToken(t) =>
          assert Render(tokens) == t + rest;
          HolesSkipText(t, rest);
        case PropertyToken(n, f) =>
          assert Render(tokens) == "{" + HoleText(n, f) + "}" + rest;
          HolesOfHole(n, f, rest);
          assert PropertyNames(tokens) == [n] + PropertyNames(tokens[1..]);
      }
    }
  }

  /** The text between the braces of a `{name}` or `{name:format}` hole. */
  function HoleText(n: string, f: string): string
  {
    n + (if f == [] then "" else ":" + f)
  }

  /** A well-formed hole is read back as its name. */
  lemma HolesOfHole(n: string, f: string, rest: string)
    requires WellFormedToken(PropertyToken(n, f))
    ensures Holes("{" + HoleText(n, f) + "}" + rest) == [n] + Holes(rest)
  {
    var hole := HoleText(n, f);
    assert '}' !in hole by {
      forall j | 0 <= j < |hole| ensures hole[j] != '}' {
        if j < |n| {
          assert hole[j] == n[j];
        } else if j > |n| {
          assert hole[j] == f[j - |n| - 1];
        }
      }
    }
    HolesTakeHole(hole, rest);
    HoleNamePlain(n, f);
    assert HoleName(hole) == n by {
      if f == [] { assert hole == n; } else { assert hole == n + ":" + f; }
    }
  }

  /** The tokens of the default template, one constant each. */
  const LeadText := TextToken("HTTP Request ")
  const MethodHole := PropertyToken("RequestMethod", "")
  const SpaceText := TextToken(" ")
  const PathHole := PropertyToken("RequestPath", "")
  const RespondedText := TextToken(" responded ")
  const StatusHole := PropertyToken("StatusCode", "")
  const InText := TextToken(" in ")
  const ElapsedHole := PropertyToken("Elapsed", "0.0000")
  const MsText := TextToken(" ms")

  /** The default template, token by token. */
  const DefaultTemplateTokens: seq<TemplateToken> := [
    LeadText, MethodHole, SpaceText, PathHole, RespondedText, StatusHole, InText, ElapsedHole, MsText]

  /** "HTTP Request {RequestMethod} {RequestPath} responded {StatusCode} in {Elapsed:0.0000} ms" */
  const DefaultMessageTemplate: string := Render(DefaultTemplateTokens)

  /** The default template has exactly the four holes method, path, status, elapsed. */
  lemma DefaultTemplateHoles()
    ensures Holes(DefaultMessageTemplate) == ["RequestMethod", "RequestPath", "StatusCode", "Elapsed"]
  {
    DefaultTextsWellFormed();
    MethodHoleWellFormed();
    PathHoleWellFormed();
    StatusHoleWellFormed();
    ElapsedHoleWellFormed();
    HolesOfRender(DefaultTemplateTokens);
    DefaultPropertyNames();
  }

  lemma DefaultTextsWellFormed()
    ensures WellFormedToken(LeadText) && WellFormedToken(SpaceText) && WellFormedToken(RespondedText)
    ensures WellFormedToken(InText) && WellFormedToken(MsText)
  {
  }

  lemma MethodHoleWellFormed() ensures WellFormedToken(MethodHole) { }
  lemma PathHoleWellFormed() ensures WellFormedToken(PathHole) { }
  lemma StatusHoleWellFormed() ensures WellFormedToken(StatusHole) { }
  lemma ElapsedHoleWellFormed() ensures WellFormedToken(ElapsedHole) { }

  /** The holes of the default tokens are method, path, status and elapsed time, in order. */
  lemma DefaultPropertyNames()
    ensures PropertyNames(DefaultTemplateTokens) == ["RequestMethod", "RequestPath", "StatusCode", "Elapsed"]
  {
    var t := DefaultTemplateTokens;
    assert PropertyNames(t[8..]) == [];
    assert PropertyNames(t[7..]) == ["Elapsed"];
    assert PropertyNames(t[5..]) == ["StatusCode", "Elapsed"];
    assert PropertyNames(t[3..]) == ["RequestPath", "StatusCode", "Elapsed"];
    assert PropertyNames(t[1..]) == ["RequestMethod", "RequestPath", "StatusCode", "Elapsed"];
  }

  /**
   * `DefaultLogMessageAndProperties`: one argument per hole of the default template, in
   * the order method, path, status code, elapsed time, and the whole context attached as
   * the single extra property "Context".
   */
  function DefaultLogMessageAndProperties(h: HttpContextInfo): (e: LogEntryParameters)
    ensures Holes(e.messageTemplate) == ["RequestMethod", "RequestPath", "StatusCode", "Elapsed"]
    ensures |e.messageParameters| == |Holes(e.messageTemplate)|
    ensures e.messageParameters == [TextValue(h.request.httpMethod), TextValue(h.request.path),
                                    IntValue(h.response.statusCode), IntValue(h.response.elapsedMilliseconds)]
    ensures e.additionalProperties.Keys == {"Context"} && e.additionalProperties["Context"] == ContextValue(h)
  {
    DefaultTemplateHoles();
    LogEntryParameters(
      DefaultMessageTemplate,
      [TextValue(h.request.httpMethod), TextValue(h.request.path),
       IntValue(h.response.statusCode), IntValue(h.response.elapsedMilliseconds)],
      map["Context" := ContextValue(h)])
  }

  // ---------------------------------------------------------------------------
  // Defaults
  // ---------------------------------------------------------------------------

  /** The default blacklist of `MaskedProperties`. */
  const DefaultMaskedProperties: seq<string> :=
    ["*password*", "*token*", "*secret*", "*bearer*", "*authorization*", "*otp"]

  const DefaultMaskFormat: string := "*** MASKED ***"

  /**
   * `new AutoWrapperOptions()`: the property initialisers and the constructor, which
   * installs the default level and message functions. The three `OptionBase` settings
   * have defaults that are not part of this model and are given as parameters.
   */
  function NewOptions(isApiOnly: bool, bypassHtmlValidation: bool): (o: Options)
    ensures o.logMode == LogAll && o.requestHeaderLogMode == LogAll && o.requestBodyLogMode == LogAll
    ensures o.responseHeaderLogMode == LogAll && o.responseBodyLogMode == LogFailures
    ensures o.logRequestBodyAsStructuredObject && o.logResponseBodyAsStructuredObject
    ensures o.requestBodyLogTextLengthLimit == 4000 && o.responseBodyLogTextLengthLimit == 4000
    ensures o.maskFormat == "*** MASKED ***"
    ensures o.maskedProperties == ["*password*", "*token*", "*secret*", "*bearer*", "*authorization*", "*otp"]
    ensures o.useApiProblemDetailsException && !o.ignoreWrapForOkRequests && o.swaggerPath == "/swagger"
    ensures forall s, e, x :: o.getLevel(s, e, x) == DefaultGetLevel(s, e, x)
    ensures forall h :: o.getLogMessageAndProperties(h) == DefaultLogMessageAndProperties(h)
  {
    Options(
      useApiProblemDetailsException := true,
      swaggerPath := "/swagger",
      ignoreWrapForOkRequests := false,
      logMode := LogAll,
      requestHeaderLogMode := LogAll,
      requestBodyLogMode := LogAll,
      logRequestBodyAsStructuredObject := true,
      responseHeaderLogMode := LogAll,
      responseBodyLogMode := LogFailures,
      logResponseBodyAsStructuredObject := true,
      maskedProperties := DefaultMaskedProperties,
      maskFormat := DefaultMaskFormat,
      responseBodyLogTextLengthLimit := 4000,
      requestBodyLogTextLengthLimit := 4000,
      isApiOnly := isApiOnly,
      bypassHtmlValidation := bypassHtmlValidation,
      getLevel := DefaultGetLevel,
      getLogMessageAndProperties := DefaultLogMessageAndProperties)
  }
}
