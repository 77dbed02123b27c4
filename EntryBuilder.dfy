/**
  What `CreateEntry` produces, as a function of its inputs: the entry's
  level, exception text and property bag, or the exception that aborts the
  build. The logger's `CreateEntry` method is proved to build exactly this;
  the lemmas below state the field-inclusion policy it implements.

  The request counter's new value, the wall-clock timestamp and the host's
  service name are parameters.
*/
module EntryBuilder {
  import opened Wrappers
  import opened Host
  import Text
  import opened RequestLogEntry
  import DictionaryExtensions

  const HttpMessageTemplate := "HTTP {HttpMethod} {PathInfo} responded {StatusCode} in {ElapsedMilliseconds}ms"
  const SourceContext := "ServiceStack.CloudTrail.RequestLogsFeature"
  const WarningLevel := "Warning"
  const ErrorLevel := "Error"
  const HeaderPrefix := "Header-"

  /** The logger settings the builder consults. */
  datatype BuildConfig = BuildConfig(
    sessionTracking: bool,
    requestBodyTracking: bool,
    responseTracking: bool,
    errorTracking: bool,
    hideRequestBodyFor: Option<seq<TypeId>>,
    appendProperties: Option<PropertyAppender>)

  /** An entry under construction: level, property bag, exception text. */
  datatype Partial = Partial(level: string, properties: map<string, Value>, exception: Option<string>)

  /** The properties every entry starts with. */
  function FixedProperties(duration: real, count: int, serviceName: Option<string>): map<string, Value> {
    map[
      "IsRequestLog" := Str("True"),
      "SourceContext" := Str(SourceContext),
      "ElapsedMilliseconds" := Millis(duration),
      "RequestCount" := Str(Text.IntToString(count)),
      "ServiceName" := Nullable(serviceName)]
  }

  /** The properties read off a non-null request. */
  function RequestProperties(sessionTracking: bool, req: Request): map<string, Value> {
    map[
      "HttpMethod" := Str(req.verb),
      "AbsoluteUri" := Str(req.absoluteUri),
      "PathInfo" := Str(req.pathInfo),
      "IpAddress" := Nullable(req.userHostAddress),
      "ForwardedFor" := Nullable(HeaderValue(req.headers, XForwardedFor)),
      "Referer" := Nullable(HeaderValue(req.headers, RefererHeader)),
      "Session" := (if sessionTracking then NullableRef(req.session) else Null),
      "Items" := Items(req.items),
      "StatusCode" := (if req.response.Some? then Int(req.response.value.statusCode) else Null),
      "StatusDescription" := (if req.response.Some? then Nullable(req.response.value.statusDescription) else Null),
      "ResponseStatus" := (if req.response.Some? then NullableRef(req.response.value.responseStatus) else Null)]
  }

  /** The properties only read while the response is still open. */
  function OpenResponseProperties(req: Request, isClosed: bool): map<string, Value> {
    if isClosed then map[]
    else map["UserAuthId" := Nullable(req.userAuthId), "SessionId" := Nullable(req.sessionId)]
  }

  /**
    The body gate: the hide list is non-null, there is a request DTO, and
    its type is not on the list. A null hide list therefore hides every body.
  */
  predicate ShowsBody(hideRequestBodyFor: Option<seq<TypeId>>, requestType: Option<TypeId>) {
    hideRequestBodyFor.Some? && requestType.Some? && requestType.value !in hideRequestBodyFor.value
  }

  function BodyProperties(cfg: BuildConfig, req: Request, dto: Option<Dto>, isClosed: bool): map<string, Value> {
    if !ShowsBody(cfg.hideRequestBodyFor, TypeOf(dto)) then map[]
    else
      map["RequestDto" := Boxed(dto.value.obj)]
      + (if isClosed then map[] else map["FormData" := Ref(req.formData)])
      + (if cfg.requestBodyTracking then map["RequestBody" := Nullable(req.rawBody)] else map[])
  }

  /** The response is an error that error tracking records. */
  predicate TrackedError(cfg: BuildConfig, response: Option<Response>) {
    cfg.errorTracking && IsErrorResponse(response)
  }

  /** The level of an HTTP error: Warning for a 4xx status, Error for anything else. */
  function LevelFor(statusCode: int): string {
    if 400 <= statusCode < 500 then WarningLevel else ErrorLevel
  }

  /** The entry's level once the response has been examined. */
  function ResponseLevel(cfg: BuildConfig, response: Option<Response>): string {
    if TrackedError(cfg, response) && response.value.httpError.Some? then LevelFor(response.value.httpError.value.statusCode)
    else DefaultLevel
  }

  /** The entry's exception text once the response has been examined: the inner exception wins. */
  function ResponseException(cfg: BuildConfig, response: Option<Response>): Option<string> {
    if TrackedError(cfg, response) && response.value.exception.Some? then
      var ex := response.value.exception.value;
      Some(if ex.inner.Some? then ex.inner.value.text else ex.text)
    else None
  }

  /** The HTTP error's properties; its StatusCode is written with the indexer, replacing the request's. */
  function HttpErrorProperties(e: Option<HttpErrorView>): map<string, Value> {
    if e.None? then map[]
    else map[
      "StatusCode" := Int(e.value.statusCode),
      "ErrorCode" := Nullable(e.value.errorCode),
      "ErrorMessage" := Nullable(e.value.message),
      "StackTrace" := Nullable(e.value.stackTrace)]
  }

  function ExceptionProperties(ex: Option<ExceptionView>): map<string, Value> {
    if ex.Some? && ex.value.inner.Some? then
      map["ExceptionSource" := Nullable(ex.value.inner.value.source), "ExceptionData" := Ref(ex.value.inner.value.data)]
    else map[]
  }

  function ResponseProperties(cfg: BuildConfig, response: Option<Response>): map<string, Value> {
    if !IsErrorResponse(response) then
      if cfg.responseTracking then map["ResponseDto" := if response.Some? then Boxed(response.value.obj) else Null]
      else map[]
    else if cfg.errorTracking then
      HttpErrorProperties(response.value.httpError) + ExceptionProperties(response.value.exception)
    else map[]
  }

  /**
    Everything the builder records before the custom appender runs. Each
    stage adds keys no earlier stage wrote (`KeyApart`), except the
    HTTP error's StatusCode, which overwrites; so the stages' union, later
    stages winning, is the bag the successive writes produce.
  */
  function PreAppend(cfg: BuildConfig, req: Request, dto: Option<Dto>, response: Option<Response>,
                     duration: real, count: int, serviceName: Option<string>): Partial
    requires req.response.Some?
  {
    var isClosed := req.response.value.isClosed;
    Partial(
      ResponseLevel(cfg, response),
      FixedProperties(duration, count, serviceName)
        + RequestProperties(cfg.sessionTracking, req)
        + OpenResponseProperties(req, isClosed)
        + BodyProperties(cfg, req, dto, isClosed)
        + ResponseProperties(cfg, response),
      ResponseException(cfg, response))
  }

  /** The appender's pairs; a null dictionary counts as empty. */
  function AppendedPairs(cfg: BuildConfig, request: Option<Request>, dto: Option<Dto>,
                         response: Option<Response>, duration: real): Invocation<seq<(string, Value)>>
  {
    if cfg.appendProperties.None? then Returned([])
    else
      match cfg.appendProperties.value(request, dto, response, duration)
      case Threw => Threw
      case Returned(d) => Returned(d.GetOr([]))
  }

  /** Each appended pair goes in through GetOrAdd, in order. */
  function Merged(m: map<string, Value>, pairs: seq<(string, Value)>): map<string, Value>
    decreases |pairs|
  {
    if pairs == [] then m
    else
      var v := pairs[0].1;
      Merged(DictionaryExtensions.GetOrAdded(m, pairs[0].0, _ => v).0, pairs[1..])
  }

  function HeaderKey(name: string): string {
    HeaderPrefix + name
  }

  /** One header: skipped when its value is already recorded, otherwise added with `Add`. */
  function HeaderStep(m: map<string, Value>, header: (string, string)): Result<map<string, Value>, Fault> {
    if Str(header.1) in m.Values then Success(m)
    else if HeaderKey(header.0) in m then Failure(DuplicateKey(HeaderKey(header.0)))
    else Success(m[HeaderKey(header.0) := Str(header.1)])
  }

  function WithHeaders(m: map<string, Value>, headers: seq<(string, string)>): Result<map<string, Value>, Fault>
    decreases |headers|
  {
    if headers == [] then Success(m)
    else
      match HeaderStep(m, headers[0])
      case Failure(e) => Failure(e)
      case Success(m1) => WithHeaders(m1, headers[1..])
  }

  /**
    What one `CreateEntry` call reads besides the logger's settings: its
    three arguments, the measured duration, the request counter's new value,
    the wall-clock timestamp and the host's service name.
  */
  datatype Inputs = Inputs(
    request: Option<Request>,
    dto: Option<Dto>,
    response: Option<Response>,
    duration: real,
    count: int,
    timestamp: string,
    serviceName: Option<string>)

  /** The request is non-null and has a response, so the builder gets past its first dereference. */
  predicate HasResponse(inp: Inputs) {
    inp.request.Some? && inp.request.value.response.Some?
  }

  /** The properties recorded before the appender runs, for inputs with a response. */
  function Before(cfg: BuildConfig, inp: Inputs): Partial
    requires HasResponse(inp)
  {
    PreAppend(cfg, inp.request.value, inp.dto, inp.response, inp.duration, inp.count, inp.serviceName)
  }

  /**
    The entry `CreateEntry` returns, or the exception it throws: a null
    request (or a request without a response) is dereferenced when the
    builder asks whether the response is closed, before anything else.
  */
  function BuildEntry(cfg: BuildConfig, inp: Inputs): Result<EntryRecord, Fault> {
    if !HasResponse(inp) then Failure(NullReference)
    else
      var p := Before(cfg, inp);
      match AppendedPairs(cfg, inp.request, inp.dto, inp.response, inp.duration)
      case Threw => Failure(HookThrew)
      case Returned(pairs) =>
        match WithHeaders(Merged(p.properties, pairs), inp.request.value.headers)
        case Failure(e) => Failure(e)
        case Success(props) => Success(EntryRecord(Some(inp.timestamp), p.level, props, HttpMessageTemplate, p.exception))
  }

  // ---------------------------------------------------------------------
  // Appended pairs: first write wins

  /** Merging never overwrites: every existing key keeps its value. */
  lemma {:induction false} MergedNeverOverwrites(m: map<string, Value>, pairs: seq<(string, Value)>)
    ensures forall k :: k in m ==> k in Merged(m, pairs) && Merged(m, pairs)[k] == m[k]
    decreases |pairs|
  {
    if pairs != [] {
      var v := pairs[0].1;
      MergedNeverOverwrites(DictionaryExtensions.GetOrAdded(m, pairs[0].0, _ => v).0, pairs[1..]);
    }
  }

  /** The merged bag holds exactly the old keys and the appended ones. */
  lemma {:induction false} MergedKeys(m: map<string, Value>, pairs: seq<(string, Value)>)
    ensures Merged(m, pairs).Keys == m.Keys + (set i | 0 <= i < |pairs| :: pairs[i].0)
    decreases |pairs|
  {
    if pairs != [] {
      var v := pairs[0].1;
      var m1 := DictionaryExtensions.GetOrAdded(m, pairs[0].0, _ => v).0;
      var rest := pairs[1..];
      MergedKeys(m1, rest);
      assert (set i | 0 <= i < |pairs| :: pairs[i].0) == {pairs[0].0} + (set i | 0 <= i < |rest| :: rest[i].0) by {
        forall i | 0 <= i < |pairs|
          ensures pairs[i].0 in {pairs[0].0} + (set i | 0 <= i < |rest| :: rest[i].0)
        {
          if i > 0 {
            assert rest[i - 1].0 == pairs[i].0;
          }
        }
        forall i | 0 <= i < |rest|
          ensures rest[i].0 in (set i | 0 <= i < |pairs| :: pairs[i].0)
        {
          assert pairs[i + 1] == rest[i];
        }
      }
    }
  }

  /** A key new to the bag takes the value of its first occurrence among the appended pairs. */
  lemma {:induction false} MergedFirstWins(m: map<string, Value>, pairs: seq<(string, Value)>)
    ensures forall i :: 0 <= i < |pairs| && pairs[i].0 !in m && (forall j :: 0 <= j < i ==> pairs[j].0 != pairs[i].0)
                        ==> pairs[i].0 in Merged(m, pairs) && Merged(m, pairs)[pairs[i].0] == pairs[i].1
    decreases |pairs|
  {
    if pairs != [] {
      var v := pairs[0].1;
      var m1 := DictionaryExtensions.GetOrAdded(m, pairs[0].0, _ => v).0;
      var rest := pairs[1..];
      MergedFirstWins(m1, rest);
      MergedNeverOverwrites(m1, rest);
      forall i | 0 <= i < |pairs| && pairs[i].0 !in m && (forall j :: 0 <= j < i ==> pairs[j].0 != pairs[i].0)
        ensures pairs[i].0 in Merged(m, pairs) && Merged(m, pairs)[pairs[i].0] == pairs[i].1
      {
        if i > 0 {
          assert rest[i - 1] == pairs[i];
          assert forall j :: 0 <= j < i - 1 ==> rest[j] == pairs[j + 1];
        }
      }
    }
  }

  // ---------------------------------------------------------------------
  // Header augmentation: de-duplication by value

  /**
    After header augmentation: every earlier property is kept as it was;
    every new property is `Header-{name}` of some header and holds that
    header's value; every header's value is recorded somewhere; and no value
    recorded under a new key is recorded under any other key.
  */
  lemma {:induction false} HeadersDeduplicated(m: map<string, Value>, headers: seq<(string, string)>)
    requires WithHeaders(m, headers).Success?
    ensures var r := WithHeaders(m, headers).value;
            && (forall k :: k in m ==> k in r && r[k] == m[k])
            && (forall k :: k in r && k !in m ==>
                  exists i :: 0 <= i < |headers| && k == HeaderKey(headers[i].0) && r[k] == Str(headers[i].1))
            && (forall i :: 0 <= i < |headers| ==> Str(headers[i].1) in r.Values)
            && (forall k1, k2 :: k1 in r && k2 in r && k1 !in m && k1 != k2 ==> r[k1] != r[k2])
    decreases |headers|
  {
    if headers != [] {
      var m1 := HeaderStep(m, headers[0]).value;
      var rest := headers[1..];
      HeadersDeduplicated(m1, rest);
      var r := WithHeaders(m, headers).value;
      assert r == WithHeaders(m1, rest).value;
      if Str(headers[0].1) !in m.Values {
        assert m1[HeaderKey(headers[0].0)] == Str(headers[0].1);
      }
      assert Str(headers[0].1) in m1.Values;
      forall k | k in r && k !in m
        ensures exists i :: 0 <= i < |headers| && k == HeaderKey(headers[i].0) && r[k] == Str(headers[i].1)
      {
        if k in m1 {
          assert k == HeaderKey(headers[0].0) && r[k] == m1[k] == Str(headers[0].1);
        } else {
          var j :| 0 <= j < |rest| && k == HeaderKey(rest[j].0) && r[k] == Str(rest[j].1);
          assert rest[j] == headers[j + 1];
        }
      }
      forall i | 0 <= i < |headers|
        ensures Str(headers[i].1) in r.Values
      {
        if i == 0 {
          var k :| k in m1 && m1[k] == Str(headers[0].1);
          assert r[k] == m1[k];
        } else {
          assert headers[i] == rest[i - 1];
        }
      }
    }
  }

  /** A single header fails exactly when its value is new but its `Header-` key is taken. */
  lemma HeaderCollisionThrows(m: map<string, Value>, name: string, value: string)
    ensures WithHeaders(m, [(name, value)]).Failure?
        <==> Str(value) !in m.Values && HeaderKey(name) in m
  {
    assert [(name, value)][1..] == [];
  }

  /** A failure on some header aborts the whole augmentation with that failure. */
  lemma {:induction false} HeaderFailureAborts(m: map<string, Value>, before: seq<(string, string)>,
                                               header: (string, string), after: seq<(string, string)>)
    requires WithHeaders(m, before).Success?
    requires HeaderStep(WithHeaders(m, before).value, header).Failure?
    ensures WithHeaders(m, before + [header] + after) == Failure(HeaderStep(WithHeaders(m, before).value, header).error)
    decreases |before|
  {
    var hs := before + [header] + after;
    if before == [] {
      assert hs[0] == header && hs[1..] == after;
    } else {
      assert hs[0] == before[0];
      assert hs[1..] == before[1..] + [header] + after;
      HeaderFailureAborts(HeaderStep(m, before[0]).value, before[1..], header, after);
    }
  }

  /** Different names give different `Header-` keys. */
  lemma HeaderKeyInjective(a: string, b: string)
    ensures HeaderKey(a) == HeaderKey(b) ==> a == b
  {
    if HeaderKey(a) == HeaderKey(b) {
      assert a == HeaderKey(a)[|HeaderPrefix|..];
      assert b == HeaderKey(b)[|HeaderPrefix|..];
    }
  }

  /**
    Headers with distinct names never collide with one another: when none
    of their `Header-` keys is taken beforehand, every header goes in.
  */
  lemma {:induction false} DistinctHeadersFit(m: map<string, Value>, headers: seq<(string, string)>)
    requires DistinctNames(headers)
    requires forall i :: 0 <= i < |headers| ==> HeaderKey(headers[i].0) !in m
    ensures WithHeaders(m, headers).Success?
    decreases |headers|
  {
    if headers != [] {
      var m1 := HeaderStep(m, headers[0]).value;
      var rest := headers[1..];
      forall i | 0 <= i < |rest|
        ensures HeaderKey(rest[i].0) !in m1
      {
        assert rest[i] == headers[i + 1];
        HeaderKeyInjective(rest[i].0, headers[0].0);
      }
      DistinctHeadersFit(m1, rest);
    }
  }

  // ---------------------------------------------------------------------
  // The stages before the appender

  const FixedKeys: set<string> := {"IsRequestLog", "SourceContext", "ElapsedMilliseconds", "RequestCount", "ServiceName"}
  const RequestKeys: set<string> := {"HttpMethod", "AbsoluteUri", "PathInfo", "IpAddress", "ForwardedFor", "Referer",
                                     "Session", "Items", "StatusCode", "StatusDescription", "ResponseStatus"}
  const OpenKeys: set<string> := {"UserAuthId", "SessionId"}
  const BodyKeys: set<string> := {"RequestDto", "FormData", "RequestBody"}
  const ResponseKeys: set<string> := {"ResponseDto", "StatusCode", "ErrorCode", "ErrorMessage", "StackTrace",
                                      "ExceptionSource", "ExceptionData"}

  lemma FixedWrites(duration: real, count: int, serviceName: Option<string>, k: string)
    ensures k in FixedProperties(duration, count, serviceName) <==> k in FixedKeys
  {
  }

  lemma RequestWrites(sessionTracking: bool, req: Request, k: string)
    ensures k in RequestProperties(sessionTracking, req) <==> k in RequestKeys
  {
  }

  lemma OpenWrites(req: Request, isClosed: bool, k: string)
    ensures k in OpenResponseProperties(req, isClosed) <==> !isClosed && k in OpenKeys
  {
  }

  lemma BodyWrites(cfg: BuildConfig, req: Request, dto: Option<Dto>, isClosed: bool, k: string)
    ensures var open := ShowsBody(cfg.hideRequestBodyFor, TypeOf(dto));
            k in BodyProperties(cfg, req, dto, isClosed)
            <==> || (k == "RequestDto" && open)
                 || (k == "FormData" && open && !isClosed)
                 || (k == "RequestBody" && open && cfg.requestBodyTracking)
  {
  }

  lemma ResponseWrites(cfg: BuildConfig, response: Option<Response>, k: string)
    ensures k in ResponseProperties(cfg, response) ==> k in ResponseKeys
  {
  }

  /** What the body stage writes, key by key. */
  lemma BodyStage(cfg: BuildConfig, req: Request, dto: Option<Dto>, isClosed: bool)
    ensures var b := BodyProperties(cfg, req, dto, isClosed);
            var open := ShowsBody(cfg.hideRequestBodyFor, TypeOf(dto));
            && ("RequestDto" in b <==> open)
            && ("FormData" in b <==> open && !isClosed)
            && ("RequestBody" in b <==> open && cfg.requestBodyTracking)
            && (open ==> b["RequestDto"] == Boxed(dto.value.obj))
            && (open && !isClosed ==> b["FormData"] == Ref(req.formData))
            && (open && cfg.requestBodyTracking ==> b["RequestBody"] == Nullable(req.rawBody))
  {
  }

  /** What the response stage writes for the keys the entry lemmas inspect. */
  lemma ResponseStage(cfg: BuildConfig, response: Option<Response>)
    ensures var e := ResponseProperties(cfg, response);
            var tracked := !IsErrorResponse(response) && cfg.responseTracking;
            && ("ResponseDto" in e <==> tracked)
            && (tracked ==> e["ResponseDto"] == (if response.Some? then Boxed(response.value.obj) else Null))
            && (TrackedError(cfg, response) && response.value.httpError.Some? ==>
                  "StatusCode" in e && e["StatusCode"] == Int(response.value.httpError.value.statusCode))
            && (TrackedError(cfg, response) && response.value.exception.Some? && response.value.exception.value.inner.Some? ==>
                  var inner := response.value.exception.value.inner.value;
                  && "ExceptionSource" in e && e["ExceptionSource"] == Nullable(inner.source)
                  && "ExceptionData" in e && e["ExceptionData"] == Ref(inner.data))
  {
  }

  /**
    The level: Warning exactly for a tracked HTTP error with a 4xx status,
    Error exactly for a tracked HTTP error with any other status, and Debug
    otherwise.
  */
  lemma LevelOf(cfg: BuildConfig, response: Option<Response>)
    ensures var level := ResponseLevel(cfg, response);
            var httpError := TrackedError(cfg, response) && response.value.httpError.Some?;
            && (level == WarningLevel <==> httpError && 400 <= response.value.httpError.value.statusCode < 500)
            && (level == ErrorLevel <==> httpError && !(400 <= response.value.httpError.value.statusCode < 500))
            && (level == DefaultLevel <==> !httpError)
  {
  }

  /** The exception text prefers the inner exception, and exists only for a tracked exception. */
  lemma ExceptionOf(cfg: BuildConfig, response: Option<Response>)
    ensures var text := ResponseException(cfg, response);
            var tracked := TrackedError(cfg, response) && response.value.exception.Some?;
            && (text.Some? <==> tracked)
            && (tracked && response.value.exception.value.inner.None? ==> text == Some(response.value.exception.value.text))
            && (tracked && response.value.exception.value.inner.Some? ==> text == Some(response.value.exception.value.inner.value.text))
  {
  }

  /** A key of one stage is none of the other stages' keys (StatusCode aside). */
  lemma KeyApart(k: string)
    ensures k in FixedKeys ==> k !in RequestKeys && k !in OpenKeys && k !in BodyKeys && k !in ResponseKeys
    ensures k in RequestKeys && k != "StatusCode" ==> k !in FixedKeys && k !in OpenKeys && k !in BodyKeys && k !in ResponseKeys
    ensures k in OpenKeys ==> k !in FixedKeys && k !in RequestKeys && k !in BodyKeys && k !in ResponseKeys
    ensures k in BodyKeys ==> k !in FixedKeys && k !in RequestKeys && k !in OpenKeys && k !in ResponseKeys
    ensures k in ResponseKeys && k != "StatusCode" ==> k !in FixedKeys && k !in RequestKeys && k !in OpenKeys && k !in BodyKeys
  {
  }

  /** How a key of the pre-appender bag is found: later stages win. */
  lemma BeforeLookup(cfg: BuildConfig, inp: Inputs, k: string)
    requires HasResponse(inp)
    ensures var req := inp.request.value;
            var closed := req.response.value.isClosed;
            var f := FixedProperties(inp.duration, inp.count, inp.serviceName);
            var r := RequestProperties(cfg.sessionTracking, req);
            var o := OpenResponseProperties(req, closed);
            var b := BodyProperties(cfg, req, inp.dto, closed);
            var e := ResponseProperties(cfg, inp.response);
            var p := Before(cfg, inp).properties;
            && (k in p <==> k in f || k in r || k in o || k in b || k in e)
            && (k in p ==> p[k] == if k in e then e[k] else if k in b then b[k] else if k in o then o[k] else if k in r then r[k] else f[k])
  {
  }

  /** A fixed property is never overwritten by a later stage. */
  lemma FixedKey(cfg: BuildConfig, inp: Inputs, k: string)
    requires HasResponse(inp) && k in FixedKeys
    ensures var p := Before(cfg, inp).properties;
            k in p && p[k] == FixedProperties(inp.duration, inp.count, inp.serviceName)[k]
  {
    var req := inp.request.value;
    var closed := req.response.value.isClosed;
    FixedWrites(inp.duration, inp.count, inp.serviceName, k);
    RequestWrites(cfg.sessionTracking, req, k);
    OpenWrites(req, closed, k);
    BodyWrites(cfg, req, inp.dto, closed, k);
    ResponseWrites(cfg, inp.response, k);
    BeforeLookup(cfg, inp, k);
    KeyApart(k);
  }

  /** A request property other than StatusCode is never overwritten by a later stage. */
  lemma RequestKey(cfg: BuildConfig, inp: Inputs, k: string)
    requires HasResponse(inp) && k in RequestKeys && k != "StatusCode"
    ensures var p := Before(cfg, inp).properties;
            k in p && p[k] == RequestProperties(cfg.sessionTracking, inp.request.value)[k]
  {
    var req := inp.request.value;
    var closed := req.response.value.isClosed;
    FixedWrites(inp.duration, inp.count, inp.serviceName, k);
    RequestWrites(cfg.sessionTracking, req, k);
    OpenWrites(req, closed, k);
    BodyWrites(cfg, req, inp.dto, closed, k);
    ResponseWrites(cfg, inp.response, k);
    BeforeLookup(cfg, inp, k);
    KeyApart(k);
  }

  /** An open-response property is present exactly when the response is open. */
  lemma OpenKey(cfg: BuildConfig, inp: Inputs, k: string)
    requires HasResponse(inp) && k in OpenKeys
    ensures var p := Before(cfg, inp).properties;
            var req := inp.request.value;
            var closed := req.response.value.isClosed;
            (k in p <==> !closed) && (!closed ==> p[k] == OpenResponseProperties(req, closed)[k])
  {
    var req := inp.request.value;
    var closed := req.response.value.isClosed;
    FixedWrites(inp.duration, inp.count, inp.serviceName, k);
    RequestWrites(cfg.sessionTracking, req, k);
    OpenWrites(req, closed, k);
    BodyWrites(cfg, req, inp.dto, closed, k);
    ResponseWrites(cfg, inp.response, k);
    BeforeLookup(cfg, inp, k);
    KeyApart(k);
  }

  /** A body property is present exactly when the body stage wrote it. */
  lemma BodyKey(cfg: BuildConfig, inp: Inputs, k: string)
    requires HasResponse(inp) && k in BodyKeys
    ensures var p := Before(cfg, inp).properties;
            var req := inp.request.value;
            var b := BodyProperties(cfg, req, inp.dto, req.response.value.isClosed);
            (k in p <==> k in b) && (k in b ==> p[k] == b[k])
  {
    var req := inp.request.value;
    var closed := req.response.value.isClosed;
    FixedWrites(inp.duration, inp.count, inp.serviceName, k);
    RequestWrites(cfg.sessionTracking, req, k);
    OpenWrites(req, closed, k);
    BodyWrites(cfg, req, inp.dto, closed, k);
    ResponseWrites(cfg, inp.response, k);
    BeforeLookup(cfg, inp, k);
    KeyApart(k);
    assert k !in ResponseProperties(cfg, inp.response);
  }

  /** A response property other than StatusCode is present exactly when the response stage wrote it. */
  lemma ResponseKey(cfg: BuildConfig, inp: Inputs, k: string)
    requires HasResponse(inp) && k in ResponseKeys && k != "StatusCode"
    ensures var p := Before(cfg, inp).properties;
            var e := ResponseProperties(cfg, inp.response);
            (k in p <==> k in e) && (k in e ==> p[k] == e[k])
  {
    var req := inp.request.value;
    var closed := req.response.value.isClosed;
    FixedWrites(inp.duration, inp.count, inp.serviceName, k);
    RequestWrites(cfg.sessionTracking, req, k);
    OpenWrites(req, closed, k);
    BodyWrites(cfg, req, inp.dto, closed, k);
    ResponseWrites(cfg, inp.response, k);
    BeforeLookup(cfg, inp, k);
    KeyApart(k);
  }

  /** StatusCode is always present; the error stage's value replaces the request stage's. */
  lemma StatusCodeKey(cfg: BuildConfig, inp: Inputs)
    requires HasResponse(inp)
    ensures var p := Before(cfg, inp).properties;
            var e := ResponseProperties(cfg, inp.response);
            var r := RequestProperties(cfg.sessionTracking, inp.request.value);
            "StatusCode" in p && p["StatusCode"] == if "StatusCode" in e then e["StatusCode"] else r["StatusCode"]
  {
    var req := inp.request.value;
    var closed := req.response.value.isClosed;
    var k := "StatusCode";
    RequestWrites(cfg.sessionTracking, req, k);
    OpenWrites(req, closed, k);
    BodyWrites(cfg, req, inp.dto, closed, k);
    BeforeLookup(cfg, inp, k);
  }

  /** The five fixed properties and Session survive every stage before the appender. */
  lemma FixedBeforeAppend(cfg: BuildConfig, inp: Inputs)
    requires HasResponse(inp)
    ensures var p := Before(cfg, inp).properties;
            && "IsRequestLog" in p && p["IsRequestLog"] == Str("True")
            && "SourceContext" in p && p["SourceContext"] == Str(SourceContext)
            && "ElapsedMilliseconds" in p && p["ElapsedMilliseconds"] == Millis(inp.duration)
            && "RequestCount" in p && p["RequestCount"] == Str(Text.IntToString(inp.count))
            && "ServiceName" in p && p["ServiceName"] == Nullable(inp.serviceName)
            && "Session" in p
            && p["Session"] == (if cfg.sessionTracking then NullableRef(inp.request.value.session) else Null)
  {
    FixedKey(cfg, inp, "IsRequestLog");
    FixedKey(cfg, inp, "SourceContext");
    FixedKey(cfg, inp, "ElapsedMilliseconds");
    FixedKey(cfg, inp, "RequestCount");
    FixedKey(cfg, inp, "ServiceName");
    RequestKey(cfg, inp, "Session");
  }

  /** The open-response gate as it stands before the appender runs. */
  lemma OpenBeforeAppend(cfg: BuildConfig, inp: Inputs)
    requires HasResponse(inp)
    ensures var p := Before(cfg, inp).properties;
            var req := inp.request.value;
            var closed := req.response.value.isClosed;
            && ("UserAuthId" in p <==> !closed) && ("SessionId" in p <==> !closed)
            && (!closed ==> p["UserAuthId"] == Nullable(req.userAuthId) && p["SessionId"] == Nullable(req.sessionId))
  {
    OpenKey(cfg, inp, "UserAuthId");
    OpenKey(cfg, inp, "SessionId");
  }

  /** The body gate as it stands before the appender runs. */
  lemma BodyBeforeAppend(cfg: BuildConfig, inp: Inputs)
    requires HasResponse(inp)
    ensures var p := Before(cfg, inp).properties;
            var req := inp.request.value;
            var closed := req.response.value.isClosed;
            var open := ShowsBody(cfg.hideRequestBodyFor, TypeOf(inp.dto));
            && ("RequestDto" in p <==> open)
            && ("FormData" in p <==> open && !closed)
            && ("RequestBody" in p <==> open && cfg.requestBodyTracking)
            && (open ==> p["RequestDto"] == Boxed(inp.dto.value.obj))
            && (open && !closed ==> p["FormData"] == Ref(req.formData))
            && (open && cfg.requestBodyTracking ==> p["RequestBody"] == Nullable(req.rawBody))
  {
    var req := inp.request.value;
    var closed := req.response.value.isClosed;
    BodyKey(cfg, inp, "RequestDto");
    BodyKey(cfg, inp, "FormData");
    BodyKey(cfg, inp, "RequestBody");
    BodyStage(cfg, inp.request.value, inp.dto, inp.request.value.response.value.isClosed);
  }

  /** Response tracking and the error fields as they stand before the appender runs. */
  lemma ResponseBeforeAppend(cfg: BuildConfig, inp: Inputs)
    requires HasResponse(inp)
    ensures var p := Before(cfg, inp).properties;
            var tracked := !IsErrorResponse(inp.response) && cfg.responseTracking;
            && ("ResponseDto" in p <==> tracked)
            && (tracked ==> p["ResponseDto"] == (if inp.response.Some? then Boxed(inp.response.value.obj) else Null))
            && (TrackedError(cfg, inp.response) && inp.response.value.httpError.Some? ==>
                  "StatusCode" in p && p["StatusCode"] == Int(inp.response.value.httpError.value.statusCode))
            && (TrackedError(cfg, inp.response) && inp.response.value.exception.Some?
                && inp.response.value.exception.value.inner.Some? ==>
                  var inner := inp.response.value.exception.value.inner.value;
                  && "ExceptionSource" in p && p["ExceptionSource"] == Nullable(inner.source)
                  && "ExceptionData" in p && p["ExceptionData"] == Ref(inner.data))
  {
    ResponseKey(cfg, inp, "ResponseDto");
    StatusCodeKey(cfg, inp);
    ResponseKey(cfg, inp, "ExceptionSource");
    ResponseKey(cfg, inp, "ExceptionData");
    ResponseStage(cfg, inp.response);
  }

  // ---------------------------------------------------------------------
  // Properties of whole entries

  /** A successful build is the pre-appender entry, merged with the appended pairs, then with the headers. */
  lemma BuildEntryShape(cfg: BuildConfig, inp: Inputs)
    requires BuildEntry(cfg, inp).Success?
    ensures HasResponse(inp)
    ensures AppendedPairs(cfg, inp.request, inp.dto, inp.response, inp.duration).Returned?
    ensures var pairs := AppendedPairs(cfg, inp.request, inp.dto, inp.response, inp.duration).value;
            var props := Merged(Before(cfg, inp).properties, pairs);
            && WithHeaders(props, inp.request.value.headers).Success?
            && BuildEntry(cfg, inp).value
               == EntryRecord(Some(inp.timestamp), Before(cfg, inp).level, WithHeaders(props, inp.request.value.headers).value,
                              HttpMessageTemplate, Before(cfg, inp).exception)
  {
  }

  /**
    Neither the appender nor the headers change a property recorded before
    them; the result holds every appended key, a new appended key with the
    value of its first occurrence, and every request header's value.
  */
  lemma EntryKeepsEarlierProperties(cfg: BuildConfig, inp: Inputs)
    requires BuildEntry(cfg, inp).Success?
    ensures HasResponse(inp)
    ensures var e := BuildEntry(cfg, inp).value;
            var pre := Before(cfg, inp).properties;
            var pairs := AppendedPairs(cfg, inp.request, inp.dto, inp.response, inp.duration).value;
            && (forall k :: k in pre ==> k in e.properties && e.properties[k] == pre[k])
            && (forall i :: 0 <= i < |pairs| ==> pairs[i].0 in e.properties)
            && (forall i :: 0 <= i < |pairs| && pairs[i].0 !in pre && (forall j :: 0 <= j < i ==> pairs[j].0 != pairs[i].0)
                  ==> e.properties[pairs[i].0] == pairs[i].1)
            && (forall i :: 0 <= i < |inp.request.value.headers| ==> Str(inp.request.value.headers[i].1) in e.properties.Values)
  {
    BuildEntryShape(cfg, inp);
    var pre := Before(cfg, inp).properties;
    var pairs := AppendedPairs(cfg, inp.request, inp.dto, inp.response, inp.duration).value;
    var merged := Merged(pre, pairs);
    MergedNeverOverwrites(pre, pairs);
    MergedKeys(pre, pairs);
    MergedFirstWins(pre, pairs);
    HeadersDeduplicated(merged, inp.request.value.headers);
    var e := BuildEntry(cfg, inp).value;
    forall i | 0 <= i < |pairs|
      ensures pairs[i].0 in e.properties
    {
      assert pairs[i].0 in (set i | 0 <= i < |pairs| :: pairs[i].0);
    }
  }

  /** Without an appender, the only properties added after the pre-appender stages are `Header-` keys. */
  lemma OnlyHeadersAdded(cfg: BuildConfig, inp: Inputs, k: string)
    requires BuildEntry(cfg, inp).Success?
    requires cfg.appendProperties.None?
    requires !(HeaderPrefix <= k)
    ensures HasResponse(inp)
    ensures k in BuildEntry(cfg, inp).value.properties <==> k in Before(cfg, inp).properties
  {
    BuildEntryShape(cfg, inp);
    EntryKeepsEarlierProperties(cfg, inp);
    var pre := Before(cfg, inp).properties;
    assert Merged(pre, []) == pre;
    HeadersDeduplicated(pre, inp.request.value.headers);
  }

  /** No key a stage writes begins like `Header-`. */
  lemma StageKeysAreNoHeaderKeys(k: string)
    requires 2 <= |k| && k[0] == 'H' && k[1] == 'e'
    ensures k !in FixedKeys && k !in RequestKeys && k !in OpenKeys && k !in BodyKeys && k !in ResponseKeys
  {
  }

  /** No stage before the appender writes a `Header-` key. */
  lemma NoStageWritesHeaderKey(cfg: BuildConfig, inp: Inputs, name: string)
    requires HasResponse(inp)
    ensures HeaderKey(name) !in Before(cfg, inp).properties
  {
    var k := HeaderKey(name);
    var req := inp.request.value;
    var closed := req.response.value.isClosed;
    assert k[0] == 'H' && k[1] == 'e';
    StageKeysAreNoHeaderKeys(k);
    FixedWrites(inp.duration, inp.count, inp.serviceName, k);
    RequestWrites(cfg.sessionTracking, req, k);
    OpenWrites(req, closed, k);
    BodyWrites(cfg, req, inp.dto, closed, k);
    ResponseWrites(cfg, inp.response, k);
  }

  /**
    Without an appender, header augmentation never fails: header names are
    distinct and no earlier stage writes a `Header-` key, so every request
    with a response yields an entry.
  */
  lemma WithoutAppenderAlwaysBuilds(cfg: BuildConfig, inp: Inputs)
    requires HasResponse(inp)
    requires cfg.appendProperties.None?
    ensures BuildEntry(cfg, inp).Success?
  {
    var pre := Before(cfg, inp).properties;
    assert Merged(pre, []) == pre;
    var headers := inp.request.value.headers;
    forall i | 0 <= i < |headers|
      ensures HeaderKey(headers[i].0) !in pre
    {
      NoStageWritesHeaderKey(cfg, inp, headers[i].0);
    }
    DistinctHeadersFit(pre, headers);
  }

  /**
    A header whose value an earlier property already holds adds no key: its
    `Header-` key is in the result only if it was there before.
  */
  lemma HeldValueAddsNoKey(m: map<string, Value>, headers: seq<(string, string)>, i: nat, held: string)
    requires WithHeaders(m, headers).Success?
    requires DistinctNames(headers)
    requires i < |headers| && held in m && m[held] == Str(headers[i].1)
    ensures HeaderKey(headers[i].0) in WithHeaders(m, headers).value ==> HeaderKey(headers[i].0) in m
  {
    HeadersDeduplicated(m, headers);
    var r := WithHeaders(m, headers).value;
    var k := HeaderKey(headers[i].0);
    forall j | 0 <= j < |headers| && k == HeaderKey(headers[j].0)
      ensures j == i
    {
      HeaderKeyInjective(headers[i].0, headers[j].0);
    }
    assert held in r && r[held] == Str(headers[i].1);
  }

  /**
    A tracked response that is a string suppresses every header carrying the
    same text: `ContainsValue` finds that text under ResponseDto.
  */
  lemma StringResponseHidesMatchingHeader(cfg: BuildConfig, inp: Inputs, i: nat)
    requires BuildEntry(cfg, inp).Success? && HasResponse(inp)
    requires cfg.appendProperties.None? && cfg.responseTracking && !IsErrorResponse(inp.response)
    requires inp.response.Some? && inp.response.value.obj.Text?
    requires i < |inp.request.value.headers| && inp.request.value.headers[i].1 == inp.response.value.obj.s
    ensures HeaderKey(inp.request.value.headers[i].0) !in BuildEntry(cfg, inp).value.properties
  {
    BuildEntryShape(cfg, inp);
    var pre := Before(cfg, inp).properties;
    assert Merged(pre, []) == pre;
    ResponseBeforeAppend(cfg, inp);
    NoStageWritesHeaderKey(cfg, inp, inp.request.value.headers[i].0);
    HeldValueAddsNoKey(pre, inp.request.value.headers, i, "ResponseDto");
  }

  /** A request that is null, or has no response, always ends in a NullReferenceException. */
  lemma NullRequestThrows(cfg: BuildConfig, inp: Inputs)
    requires !HasResponse(inp)
    ensures BuildEntry(cfg, inp) == Failure(NullReference)
  {
  }

  /** An appender that throws aborts the build; without an appender no build throws HookThrew. */
  lemma AppenderFailureThrows(cfg: BuildConfig, inp: Inputs)
    requires HasResponse(inp)
    ensures BuildEntry(cfg, inp) == Failure(HookThrew)
        <==> cfg.appendProperties.Some? && cfg.appendProperties.value(inp.request, inp.dto, inp.response, inp.duration).Threw?
  {
    if cfg.appendProperties.None? || cfg.appendProperties.value(inp.request, inp.dto, inp.response, inp.duration).Returned? {
      var pairs := AppendedPairs(cfg, inp.request, inp.dto, inp.response, inp.duration).value;
      var hs := inp.request.value.headers;
      var merged := Merged(Before(cfg, inp).properties, pairs);
      HeaderFailuresAreDuplicates(merged, hs);
    }
  }

  /** Header augmentation only ever fails with a duplicate `Header-` key. */
  lemma {:induction false} HeaderFailuresAreDuplicates(m: map<string, Value>, headers: seq<(string, string)>)
    ensures WithHeaders(m, headers).Failure? ==> WithHeaders(m, headers).error.DuplicateKey?
    decreases |headers|
  {
    if headers != [] && HeaderStep(m, headers[0]).Success? {
      HeaderFailuresAreDuplicates(HeaderStep(m, headers[0]).value, headers[1..]);
    }
  }

  /**
    Every built entry carries the five fixed properties, with the request
    count written as text, a Session property (null unless session tracking
    is on), the build timestamp and the HTTP message template.
  */
  lemma EveryEntryHasFixedProperties(cfg: BuildConfig, inp: Inputs)
    requires BuildEntry(cfg, inp).Success?
    ensures var e := BuildEntry(cfg, inp).value;
            && e.timestamp == Some(inp.timestamp)
            && e.messageTemplate == HttpMessageTemplate
            && "IsRequestLog" in e.properties && e.properties["IsRequestLog"] == Str("True")
            && "SourceContext" in e.properties && e.properties["SourceContext"] == Str(SourceContext)
            && "ElapsedMilliseconds" in e.properties && e.properties["ElapsedMilliseconds"] == Millis(inp.duration)
            && "RequestCount" in e.properties && e.properties["RequestCount"] == Str(Text.IntToString(inp.count))
            && "ServiceName" in e.properties && e.properties["ServiceName"] == Nullable(inp.serviceName)
            && "Session" in e.properties
            && e.properties["Session"] == (if cfg.sessionTracking then NullableRef(inp.request.value.session) else Null)
  {
    BuildEntryShape(cfg, inp);
    EntryKeepsEarlierProperties(cfg, inp);
    FixedBeforeAppend(cfg, inp);
  }

  /** Entries built with different counter values carry different RequestCount texts. */
  lemma RequestCountsDistinct(cfg: BuildConfig, inp: Inputs, count2: int)
    requires inp.count != count2
    requires BuildEntry(cfg, inp).Success?
    requires BuildEntry(cfg, inp.(count := count2)).Success?
    ensures var e1 := BuildEntry(cfg, inp).value;
            var e2 := BuildEntry(cfg, inp.(count := count2)).value;
            && "RequestCount" in e1.properties && "RequestCount" in e2.properties
            && e1.properties["RequestCount"] != e2.properties["RequestCount"]
  {
    EveryEntryHasFixedProperties(cfg, inp);
    EveryEntryHasFixedProperties(cfg, inp.(count := count2));
    Text.IntToStringInjective(inp.count, count2);
  }

  /**
    The body gate. When it opens, the entry records the request DTO, the
    form data unless the response is closed, and the raw body when body
    tracking is on. Without an appender, those properties appear only then.
  */
  lemma BodyGate(cfg: BuildConfig, inp: Inputs)
    requires BuildEntry(cfg, inp).Success?
    ensures HasResponse(inp)
    ensures var e := BuildEntry(cfg, inp).value;
            var req := inp.request.value;
            var open := ShowsBody(cfg.hideRequestBodyFor, TypeOf(inp.dto));
            var closed := req.response.value.isClosed;
            && (open ==> "RequestDto" in e.properties && e.properties["RequestDto"] == Boxed(inp.dto.value.obj))
            && (open && !closed ==> "FormData" in e.properties && e.properties["FormData"] == Ref(req.formData))
            && (open && cfg.requestBodyTracking ==> "RequestBody" in e.properties && e.properties["RequestBody"] == Nullable(req.rawBody))
            && (cfg.appendProperties.None? ==>
                  && ("RequestDto" in e.properties <==> open)
                  && ("FormData" in e.properties <==> open && !closed)
                  && ("RequestBody" in e.properties <==> open && cfg.requestBodyTracking))
  {
    BuildEntryShape(cfg, inp);
    EntryKeepsEarlierProperties(cfg, inp);
    BodyBeforeAppend(cfg, inp);
    if cfg.appendProperties.None? {
      assert "Header-"[0] != "RequestDto"[0] && "Header-"[0] != "FormData"[0] && "Header-"[0] != "RequestBody"[0];
      OnlyHeadersAdded(cfg, inp, "RequestDto");
      OnlyHeadersAdded(cfg, inp, "FormData");
      OnlyHeadersAdded(cfg, inp, "RequestBody");
    }
  }

  /** UserAuthId and SessionId are read only while the response is open. */
  lemma OpenResponseGate(cfg: BuildConfig, inp: Inputs)
    requires BuildEntry(cfg, inp).Success?
    ensures HasResponse(inp)
    ensures var e := BuildEntry(cfg, inp).value;
            var req := inp.request.value;
            var closed := req.response.value.isClosed;
            && (!closed ==> && "UserAuthId" in e.properties && e.properties["UserAuthId"] == Nullable(req.userAuthId)
                            && "SessionId" in e.properties && e.properties["SessionId"] == Nullable(req.sessionId))
            && (cfg.appendProperties.None? ==> ("UserAuthId" in e.properties <==> !closed) && ("SessionId" in e.properties <==> !closed))
  {
    BuildEntryShape(cfg, inp);
    EntryKeepsEarlierProperties(cfg, inp);
    OpenBeforeAppend(cfg, inp);
    if cfg.appendProperties.None? {
      assert "Header-"[0] != "UserAuthId"[0] && "Header-"[0] != "SessionId"[0];
      OnlyHeadersAdded(cfg, inp, "UserAuthId");
      OnlyHeadersAdded(cfg, inp, "SessionId");
    }
  }

  /**
    A non-error response is recorded as ResponseDto when response tracking
    is on; without an appender, ResponseDto appears only then.
  */
  lemma ResponseTracking(cfg: BuildConfig, inp: Inputs)
    requires BuildEntry(cfg, inp).Success?
    ensures var e := BuildEntry(cfg, inp).value;
            var tracked := !IsErrorResponse(inp.response) && cfg.responseTracking;
            && (tracked ==> "ResponseDto" in e.properties
                            && e.properties["ResponseDto"] == (if inp.response.Some? then Boxed(inp.response.value.obj) else Null))
            && (cfg.appendProperties.None? ==> ("ResponseDto" in e.properties <==> tracked))
  {
    BuildEntryShape(cfg, inp);
    EntryKeepsEarlierProperties(cfg, inp);
    ResponseBeforeAppend(cfg, inp);
    if cfg.appendProperties.None? {
      assert "Header-"[0] != "ResponseDto"[0];
      OnlyHeadersAdded(cfg, inp, "ResponseDto");
    }
  }


  /**
    The level: Warning exactly for a tracked HTTP error with a 4xx status,
    Error exactly for a tracked HTTP error with any other status, and Debug
    otherwise. A tracked HTTP error's status code replaces the request's.
  */
  lemma LevelClassification(cfg: BuildConfig, inp: Inputs)
    requires BuildEntry(cfg, inp).Success?
    ensures var e := BuildEntry(cfg, inp).value;
            var httpError := TrackedError(cfg, inp.response) && inp.response.value.httpError.Some?;
            && (e.level == WarningLevel <==> httpError && 400 <= inp.response.value.httpError.value.statusCode < 500)
            && (e.level == ErrorLevel <==> httpError && !(400 <= inp.response.value.httpError.value.statusCode < 500))
            && (e.level == DefaultLevel <==> !httpError)
            && (httpError ==> "StatusCode" in e.properties
                              && e.properties["StatusCode"] == Int(inp.response.value.httpError.value.statusCode))
  {
    BuildEntryShape(cfg, inp);
    EntryKeepsEarlierProperties(cfg, inp);
    LevelOf(cfg, inp.response);
    ResponseBeforeAppend(cfg, inp);
  }

  /**
    The exception text: recorded only for a tracked exception response, and
    then the inner exception's text when there is one (together with its
    source and data), else the exception's own text.
  */
  lemma ExceptionPrefersInner(cfg: BuildConfig, inp: Inputs)
    requires BuildEntry(cfg, inp).Success?
    ensures var e := BuildEntry(cfg, inp).value;
            var tracked := TrackedError(cfg, inp.response) && inp.response.value.exception.Some?;
            && (!tracked ==> e.exception.None?)
            && (tracked && inp.response.value.exception.value.inner.None? ==>
                  e.exception == Some(inp.response.value.exception.value.text))
            && (tracked && inp.response.value.exception.value.inner.Some? ==>
                  var inner := inp.response.value.exception.value.inner.value;
                  && e.exception == Some(inner.text)
                  && "ExceptionSource" in e.properties && e.properties["ExceptionSource"] == Nullable(inner.source)
                  && "ExceptionData" in e.properties && e.properties["ExceptionData"] == Ref(inner.data))
  {
    BuildEntryShape(cfg, inp);
    EntryKeepsEarlierProperties(cfg, inp);
    ExceptionOf(cfg, inp.response);
    ResponseBeforeAppend(cfg, inp);
  }
}
