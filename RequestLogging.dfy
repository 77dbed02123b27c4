/**
  The plugin and its request logger: `CloudTrailRequestLogsFeature` keeps
  the configuration (mostly in the application settings), registers a
  `CloudTrailRequestLogger` with the host, and that logger turns each
  finished request into an entry shipped to CloudWatch Logs.

  The clock, the host's service name and the AWS region table are
  parameters. Every client the loggers create talks to the same service,
  so the service is one shared `CloudWatchLogsClient` object; the static
  request counter is one shared `RequestIdCounter` object.
*/
module RequestLogging {
  import opened Wrappers
  import opened Host
  import opened RequestLogEntry
  import opened EntryBuilder
  import Collections
  import DictionaryExtensions
  import LogExtensions
  import ConfigKeys
  import Settings
  import ConfigValidator
  import RequestIds
  import RemoteLogs
  import Text

  const NotSupportedMessage := "use aws cloudtrail ui to read logs"

  // ---------------------------------------------------------------------
  // The gates of Log

  /** `ExcludeRequestType`: a null list excludes nothing, and neither does a missing DTO type. */
  predicate ExcludeRequestType(exclude: Option<seq<TypeId>>, requestType: Option<TypeId>) {
    exclude.Some? && requestType.Some? && requestType.value in exclude.value
  }

  /** What one `Log` call came to, as seen from outside; no exception ever leaves `Log`. */
  datatype LogOutcome =
    | Disabled
    | Skipped
    | Excluded
    | Caught(fault: Fault)
    | Dispatched(entry: EntryRecord)

  /** Whether `Log` goes on to build an entry, or stops with an outcome. */
  datatype Gate = Stop(outcome: LogOutcome) | Build

  /**
    The checks `Log` makes before building, in order: the raw-event hook
    runs (its exception is caught), then `Enabled`, then the skip filter
    (an exception from it is caught, `true` skips), then the exclusion list
    against the DTO's type.
  */
  function LogGate(raw: Option<RawLogEvent>, enabled: bool, skip: Option<SkipFilter>, exclude: Option<seq<TypeId>>,
                   request: Option<Request>, dto: Option<Dto>, response: Option<Response>, duration: real): Gate
  {
    if raw.Some? && raw.value(request, dto, response, duration).Threw? then Stop(Caught(HookThrew))
    else if !enabled then Stop(Disabled)
    else if skip.Some? && skip.value(request).Threw? then Stop(Caught(HookThrew))
    else if skip.Some? && skip.value(request).value then Stop(Skipped)
    else if ExcludeRequestType(exclude, TypeOf(dto)) then Stop(Excluded)
    else Build
  }

  /**
    An entry is built exactly when the raw hook (if any) returns, logging is
    enabled, the skip filter (if any) returns false, and the DTO's type is
    not excluded.
  */
  lemma BuildOnlyPastEveryGate(raw: Option<RawLogEvent>, enabled: bool, skip: Option<SkipFilter>, exclude: Option<seq<TypeId>>,
                               request: Option<Request>, dto: Option<Dto>, response: Option<Response>, duration: real)
    ensures LogGate(raw, enabled, skip, exclude, request, dto, response, duration).Build?
        <==> && (raw.None? || raw.value(request, dto, response, duration).Returned?)
             && enabled
             && (skip.None? || skip.value(request) == Returned(false))
             && !(exclude.Some? && dto.Some? && dto.value.typ in exclude.value)
  {
  }

  /** The raw hook runs ahead of every other gate: when it throws, nothing else is consulted. */
  lemma RawHookRunsFirst(raw: RawLogEvent, enabled: bool, skip: Option<SkipFilter>, exclude: Option<seq<TypeId>>,
                         request: Option<Request>, dto: Option<Dto>, response: Option<Response>, duration: real)
    requires raw(request, dto, response, duration).Threw?
    ensures LogGate(Some(raw), enabled, skip, exclude, request, dto, response, duration) == Stop(Caught(HookThrew))
  {
  }

  /** Without a raw hook, or with one that returns, a disabled logger stops at `Enabled`. */
  lemma DisabledStopsAfterRawHook(raw: Option<RawLogEvent>, skip: Option<SkipFilter>, exclude: Option<seq<TypeId>>,
                                  request: Option<Request>, dto: Option<Dto>, response: Option<Response>, duration: real)
    requires raw.None? || raw.value(request, dto, response, duration).Returned?
    ensures LogGate(raw, false, skip, exclude, request, dto, response, duration) == Stop(Disabled)
  {
  }

  /** A null exclusion list, or a null DTO, never excludes. */
  lemma NullListExcludesNothing(exclude: Option<seq<TypeId>>, requestType: Option<TypeId>)
    ensures exclude.None? || requestType.None? ==> !ExcludeRequestType(exclude, requestType)
    ensures exclude.Some? && requestType.Some? ==> (ExcludeRequestType(exclude, requestType) <==> requestType.value in exclude.value)
  {
  }

  // ---------------------------------------------------------------------
  // The host

  /** A pre-request filter: the buffered-stream switch, or one the host already had. */
  datatype PreRequestFilter = UseBufferedStream | HostFilter(id: nat)

  /** The parts of the application host the feature touches. */
  class AppHost {
    var preRequestFilters: seq<PreRequestFilter>
    /** The `IRequestLogger` registered in the container, if any. */
    var requestLogger: Option<CloudTrailRequestLogger>

    constructor(filters: seq<PreRequestFilter>)
      ensures preRequestFilters == filters && requestLogger.None?
    {
      preRequestFilters := filters;
      requestLogger := None;
    }

    /** `Register(instance)`: the container resolves `IRequestLogger` to this logger from now on. */
    method Register(logger: CloudTrailRequestLogger)
      modifies this
      ensures requestLogger == Some(logger) && preRequestFilters == old(preRequestFilters)
    {
      requestLogger := Some(logger);
    }

    /** `PreRequestFilters.Insert(0, filter)`. */
    method InsertFirst(filter: PreRequestFilter)
      modifies this
      ensures preRequestFilters == [filter] + old(preRequestFilters) && requestLogger == old(requestLogger)
    {
      preRequestFilters := [filter] + preRequestFilters;
    }
  }

  // ---------------------------------------------------------------------
  // The feature

  class CloudTrailRequestLogsFeature {
    const appSettings: Settings.AppSettings
    /** The CloudWatch Logs service every logger of this feature ships to. */
    const cloudWatch: RemoteLogs.CloudWatchLogsClient
    /** The process-wide request counter. */
    const counter: RequestIds.RequestIdCounter

    var excludeRequestDtoTypes: Option<seq<TypeId>>
    var hideRequestBodyForRequestDtoTypes: Option<seq<TypeId>>
    var skipLogging: Option<SkipFilter>
    var appendProperties: Option<PropertyAppender>
    var rawEventLogger: Option<RawLogEvent>
    var logger: Option<CloudTrailRequestLogger>
    var logStreamName: Option<string>

    /**
      A feature over a settings provider: `RequestLogs` requests are excluded,
      `Authenticate` and `Register` bodies hidden, and no hook is set.
    */
    constructor(settings: Settings.AppSettings, cloudWatch: RemoteLogs.CloudWatchLogsClient, counter: RequestIds.RequestIdCounter)
      ensures appSettings == settings && this.cloudWatch == cloudWatch && this.counter == counter
      ensures excludeRequestDtoTypes == Some([RequestLogsType])
      ensures hideRequestBodyForRequestDtoTypes == Some([AuthenticateType, RegisterType])
      ensures skipLogging.None? && appendProperties.None? && rawEventLogger.None?
      ensures logger.None? && logStreamName.None?
    {
      appSettings := settings;
      this.cloudWatch := cloudWatch;
      this.counter := counter;
      excludeRequestDtoTypes := Some([RequestLogsType]);
      hideRequestBodyForRequestDtoTypes := Some([AuthenticateType, RegisterType]);
      skipLogging := None;
      appendProperties := None;
      rawEventLogger := None;
      logger := None;
      logStreamName := None;
    }

    function Enabled(): (b: bool)
      reads appSettings
      ensures ConfigKeys.Enabled !in appSettings.store ==> b
    {
      Settings.GetFlag(appSettings.store, ConfigKeys.Enabled, true)
    }

    function EnableErrorTracking(): (b: bool)
      reads appSettings
      ensures ConfigKeys.EnableErrorTracking !in appSettings.store ==> b
    {
      Settings.GetFlag(appSettings.store, ConfigKeys.EnableErrorTracking, true)
    }

    function EnableRequestBodyTracking(): (b: bool)
      reads appSettings
      ensures ConfigKeys.EnableRequestBodyTracking !in appSettings.store ==> !b
    {
      Settings.GetFlag(appSettings.store, ConfigKeys.EnableRequestBodyTracking, false)
    }

    function EnableSessionTracking(): (b: bool)
      reads appSettings
      ensures ConfigKeys.EnableSessionTracking !in appSettings.store ==> !b
    {
      Settings.GetFlag(appSettings.store, ConfigKeys.EnableSessionTracking, false)
    }

    function EnableResponseTracking(): (b: bool)
      reads appSettings
      ensures ConfigKeys.EnableResponseTracking !in appSettings.store ==> !b
    {
      Settings.GetFlag(appSettings.store, ConfigKeys.EnableResponseTracking, false)
    }

    function AwsAccessKeyId(): (s: string)
      reads appSettings
      ensures ConfigKeys.AwsAccessKeyId !in appSettings.store ==> s == ""
    {
      Settings.GetText(appSettings.store, ConfigKeys.AwsAccessKeyId, "")
    }

    function AwsSecretAccessKey(): (s: string)
      reads appSettings
      ensures ConfigKeys.AwsSecretAccessKey !in appSettings.store ==> s == ""
    {
      Settings.GetText(appSettings.store, ConfigKeys.AwsSecretAccessKey, "")
    }

    function Region(): (s: Option<string>)
      reads appSettings
      ensures ConfigKeys.Region !in appSettings.store ==> s.None?
    {
      Settings.GetString(appSettings.store, ConfigKeys.Region)
    }

    function LogGroupName(): (s: Option<string>)
      reads appSettings
      ensures ConfigKeys.LogGroupName !in appSettings.store ==> s.None?
    {
      Settings.GetString(appSettings.store, ConfigKeys.LogGroupName)
    }

    method SetEnabled(b: bool)
      modifies appSettings
      ensures appSettings.store == old(appSettings.store)[ConfigKeys.Enabled := Settings.Flag(b)]
      ensures Enabled() == b
    {
      appSettings.Set(ConfigKeys.Enabled, Settings.Flag(b));
    }

    method SetEnableErrorTracking(b: bool)
      modifies appSettings
      ensures appSettings.store == old(appSettings.store)[ConfigKeys.EnableErrorTracking := Settings.Flag(b)]
      ensures EnableErrorTracking() == b
    {
      appSettings.Set(ConfigKeys.EnableErrorTracking, Settings.Flag(b));
    }

    method SetEnableRequestBodyTracking(b: bool)
      modifies appSettings
      ensures appSettings.store == old(appSettings.store)[ConfigKeys.EnableRequestBodyTracking := Settings.Flag(b)]
      ensures EnableRequestBodyTracking() == b
    {
      appSettings.Set(ConfigKeys.EnableRequestBodyTracking, Settings.Flag(b));
    }

    method SetEnableSessionTracking(b: bool)
      modifies appSettings
      ensures appSettings.store == old(appSettings.store)[ConfigKeys.EnableSessionTracking := Settings.Flag(b)]
      ensures EnableSessionTracking() == b
    {
      appSettings.Set(ConfigKeys.EnableSessionTracking, Settings.Flag(b));
    }

    method SetEnableResponseTracking(b: bool)
      modifies appSettings
      ensures appSettings.store == old(appSettings.store)[ConfigKeys.EnableResponseTracking := Settings.Flag(b)]
      ensures EnableResponseTracking() == b
    {
      appSettings.Set(ConfigKeys.EnableResponseTracking, Settings.Flag(b));
    }

    method SetAwsAccessKeyId(s: string)
      modifies appSettings
      ensures appSettings.store == old(appSettings.store)[ConfigKeys.AwsAccessKeyId := Settings.Text(s)]
      ensures AwsAccessKeyId() == s
    {
      appSettings.Set(ConfigKeys.AwsAccessKeyId, Settings.Text(s));
    }

    method SetAwsSecretAccessKey(s: string)
      modifies appSettings
      ensures appSettings.store == old(appSettings.store)[ConfigKeys.AwsSecretAccessKey := Settings.Text(s)]
      ensures AwsSecretAccessKey() == s
    {
      appSettings.Set(ConfigKeys.AwsSecretAccessKey, Settings.Text(s));
    }

    method SetRegion(s: string)
      modifies appSettings
      ensures appSettings.store == old(appSettings.store)[ConfigKeys.Region := Settings.Text(s)]
      ensures Region() == Some(s)
    {
      appSettings.Set(ConfigKeys.Region, Settings.Text(s));
    }

    method SetLogGroupName(s: string)
      modifies appSettings
      ensures appSettings.store == old(appSettings.store)[ConfigKeys.LogGroupName := Settings.Text(s)]
      ensures LogGroupName() == Some(s)
    {
      appSettings.Set(ConfigKeys.LogGroupName, Settings.Text(s));
    }

    /** The `Logger` getter: the logger set on the feature, else a new logger on every read. */
    method GetLogger() returns (l: CloudTrailRequestLogger)
      ensures logger.Some? ==> l == logger.value
      ensures logger.None? ==> fresh(l) && l.feature == this && !l.envInit && l.skipLogging.None?
    {
      if logger.Some? {
        l := logger.value;
      } else {
        l := new CloudTrailRequestLogger(this);
      }
    }

    method SetLogger(l: CloudTrailRequestLogger)
      modifies this
      ensures logger == Some(l)
      ensures excludeRequestDtoTypes == old(excludeRequestDtoTypes)
      ensures hideRequestBodyForRequestDtoTypes == old(hideRequestBodyForRequestDtoTypes)
      ensures skipLogging == old(skipLogging) && appendProperties == old(appendProperties)
      ensures rawEventLogger == old(rawEventLogger) && logStreamName == old(logStreamName)
    {
      logger := Some(l);
    }

    /** The validation messages for the current settings; empty when the feature may register. */
    function ValidationErrors(regionKnown: Option<string> -> bool): (errors: seq<string>)
      reads appSettings
      ensures errors == [] <==> && ConfigValidator.NotEmpty(Some(AwsAccessKeyId()))
                                && ConfigValidator.NotEmpty(Some(AwsSecretAccessKey()))
                                && ConfigValidator.NotEmpty(Region()) && regionKnown(Region())
    {
      ConfigValidator.ValidIffAllRulesPass(AwsAccessKeyId(), AwsSecretAccessKey(), Region(), regionKnown);
      ConfigValidator.Validate(AwsAccessKeyId(), AwsSecretAccessKey(), Region(), regionKnown)
    }

    /**
      The first four writes of `ConfigureRequestLogger`: each toggle of this
      feature is written through the logger. The source reads each toggle
      just before its write; the writes go to other keys
      (`ToggleKeysDistinct`), so reading all four first reads the same values
      even when the logger's settings are this feature's own.
    */
    method CopyToggles(l: CloudTrailRequestLogger)
      modifies l.feature.appSettings
      ensures l.feature.EnableSessionTracking() == old(EnableSessionTracking())
      ensures l.feature.EnableResponseTracking() == old(EnableResponseTracking())
      ensures l.feature.EnableRequestBodyTracking() == old(EnableRequestBodyTracking())
      ensures l.feature.EnableErrorTracking() == old(EnableErrorTracking())
      ensures EnableRequestBodyTracking() == old(EnableRequestBodyTracking())
    {
      var session := EnableSessionTracking();
      var response := EnableResponseTracking();
      var body := EnableRequestBodyTracking();
      var errors := EnableErrorTracking();
      ghost var before := l.feature.appSettings.store;
      l.SetEnableSessionTracking(session);
      l.SetEnableResponseTracking(response);
      l.SetEnableRequestBodyTracking(body);
      l.SetEnableErrorTracking(errors);
      TogglesCopied(before, session, response, body, errors);
    }

    /**
      `ConfigureRequestLogger`: copy the four tracking toggles into the logger
      (which writes them into its feature's settings), then both type lists
      (`ToArray` throws on a null list, after the toggles were written), then
      the skip filter, and register the logger with the host.
    */
    method ConfigureRequestLogger(appHost: AppHost) returns (r: Outcome<Fault>, l: CloudTrailRequestLogger)
      modifies this, appSettings, appHost
      modifies if logger.Some? then {logger.value, logger.value.feature, logger.value.feature.appSettings} else {}
      ensures old(logger).Some? ==> l == old(logger.value)
      ensures old(logger).None? ==> fresh(l) && l.feature == this
      ensures l.feature.EnableSessionTracking() == old(EnableSessionTracking())
      ensures l.feature.EnableResponseTracking() == old(EnableResponseTracking())
      ensures l.feature.EnableRequestBodyTracking() == old(EnableRequestBodyTracking())
      ensures l.feature.EnableErrorTracking() == old(EnableErrorTracking())
      ensures r == Fail(ArgumentNull) <==> old(excludeRequestDtoTypes).None? || old(hideRequestBodyForRequestDtoTypes).None?
      ensures r.Pass? ==> && l.feature.excludeRequestDtoTypes == old(excludeRequestDtoTypes)
                          && l.feature.hideRequestBodyForRequestDtoTypes == old(hideRequestBodyForRequestDtoTypes)
                          && l.skipLogging == old(skipLogging)
                          && appHost.requestLogger == Some(l)
      ensures r.Fail? ==> appHost.requestLogger == old(appHost.requestLogger)
      ensures appHost.preRequestFilters == old(appHost.preRequestFilters)
      ensures logger == old(logger)
      ensures EnableRequestBodyTracking() == old(EnableRequestBodyTracking())
    {
      l := GetLogger();
      CopyToggles(l);
      if excludeRequestDtoTypes.None? {
        r := Fail(ArgumentNull);
        return;
      }
      l.SetExcludeRequestDtoTypes(excludeRequestDtoTypes);
      if hideRequestBodyForRequestDtoTypes.None? {
        r := Fail(ArgumentNull);
        return;
      }
      l.SetHideRequestBodyForRequestDtoTypes(hideRequestBodyForRequestDtoTypes);
      l.skipLogging := skipLogging;
      appHost.Register(l);
      r := Pass;
    }

    /**
      `Register`: validate (a failure throws and nothing is registered), then
      configure and register the logger, then put the buffered-stream filter
      first when request bodies are tracked.
    */
    method Register(appHost: AppHost, regionKnown: Option<string> -> bool) returns (r: Outcome<Fault>)
      modifies this, appSettings, appHost
      modifies if logger.Some? then {logger.value, logger.value.feature, logger.value.feature.appSettings} else {}
      ensures old(ValidationErrors(regionKnown)) != [] ==>
                r == Fail(ValidationFailed(old(ValidationErrors(regionKnown))))
                && appHost.requestLogger == old(appHost.requestLogger)
                && appHost.preRequestFilters == old(appHost.preRequestFilters)
      ensures old(ValidationErrors(regionKnown)) == [] ==>
                (r == Fail(ArgumentNull) <==> old(excludeRequestDtoTypes).None? || old(hideRequestBodyForRequestDtoTypes).None?)
      ensures r.Fail? ==> appHost.requestLogger == old(appHost.requestLogger)
                          && appHost.preRequestFilters == old(appHost.preRequestFilters)
      ensures r.Pass? ==> old(ValidationErrors(regionKnown)) == [] && appHost.requestLogger.Some?
      ensures r.Pass? ==> var l := appHost.requestLogger.value;
                          && (old(logger).Some? ==> l == old(logger.value))
                          && (old(logger).None? ==> fresh(l) && l.feature == this)
                          && l.feature.EnableSessionTracking() == old(EnableSessionTracking())
                          && l.feature.EnableResponseTracking() == old(EnableResponseTracking())
                          && l.feature.EnableRequestBodyTracking() == old(EnableRequestBodyTracking())
                          && l.feature.EnableErrorTracking() == old(EnableErrorTracking())
                          && l.feature.excludeRequestDtoTypes == old(excludeRequestDtoTypes)
                          && l.feature.hideRequestBodyForRequestDtoTypes == old(hideRequestBodyForRequestDtoTypes)
                          && l.skipLogging == old(skipLogging)
      ensures r.Pass? ==> appHost.preRequestFilters
                          == (if old(EnableRequestBodyTracking()) then [UseBufferedStream] else []) + old(appHost.preRequestFilters)
    {
      var errors := ValidationErrors(regionKnown);
      if errors != [] {
        r := Fail(ValidationFailed(errors));
        return;
      }
      var l;
      r, l := ConfigureRequestLogger(appHost);
      if r.Fail? {
        return;
      }
      if EnableRequestBodyTracking() {
        appHost.InsertFirst(UseBufferedStream);
      }
    }
  }

  /** The store after the four toggle writes reads back the four values written. */
  lemma TogglesCopied(store: map<string, Settings.Setting>, session: bool, response: bool, body: bool, errors: bool)
    ensures var r := store[ConfigKeys.EnableSessionTracking := Settings.Flag(session)]
                          [ConfigKeys.EnableResponseTracking := Settings.Flag(response)]
                          [ConfigKeys.EnableRequestBodyTracking := Settings.Flag(body)]
                          [ConfigKeys.EnableErrorTracking := Settings.Flag(errors)];
            && Settings.GetFlag(r, ConfigKeys.EnableSessionTracking, false) == session
            && Settings.GetFlag(r, ConfigKeys.EnableResponseTracking, false) == response
            && Settings.GetFlag(r, ConfigKeys.EnableRequestBodyTracking, false) == body
            && Settings.GetFlag(r, ConfigKeys.EnableErrorTracking, true) == errors
  {
    ToggleKeysDistinct();
  }

  lemma UnionAssociates<K, V>(a: map<K, V>, b: map<K, V>, c: map<K, V>)
    ensures a + b + c == a + (b + c)
  {
  }

  /** A request key is not among the fixed properties. */
  lemma NotFixed(duration: real, count: int, serviceName: Option<string>, k: string)
    requires k in RequestKeys
    ensures k !in FixedProperties(duration, count, serviceName)
  {
    FixedWrites(duration, count, serviceName, k);
    KeyApart(k);
  }

  /** A key of a later stage is not written by the stages before it (StatusCode aside). */
  lemma FreeBefore(cfg: BuildConfig, duration: real, count: int, serviceName: Option<string>, req: Request, dto: Option<Dto>,
                   k: string)
    requires req.response.Some?
    ensures var isClosed := req.response.value.isClosed;
            var fr := FixedProperties(duration, count, serviceName) + RequestProperties(cfg.sessionTracking, req);
            var fro := fr + OpenResponseProperties(req, isClosed);
            var frob := fro + BodyProperties(cfg, req, dto, isClosed);
            && (k in OpenKeys ==> k !in fr)
            && (k in BodyKeys ==> k !in fro)
            && (k in ResponseKeys && k != "StatusCode" ==> k !in frob)
  {
    var isClosed := req.response.value.isClosed;
    FixedWrites(duration, count, serviceName, k);
    RequestWrites(cfg.sessionTracking, req, k);
    OpenWrites(req, isClosed, k);
    BodyWrites(cfg, req, dto, isClosed, k);
    KeyApart(k);
  }

  /** No request key is among the fixed properties. */
  lemma RequestKeysFree(duration: real, count: int, serviceName: Option<string>)
    ensures var f := FixedProperties(duration, count, serviceName);
            && "HttpMethod" !in f && "AbsoluteUri" !in f && "PathInfo" !in f && "IpAddress" !in f
            && "ForwardedFor" !in f && "Referer" !in f && "Session" !in f && "Items" !in f
            && "StatusCode" !in f && "StatusDescription" !in f && "ResponseStatus" !in f
  {
    NotFixed(duration, count, serviceName, "HttpMethod");
    NotFixed(duration, count, serviceName, "AbsoluteUri");
    NotFixed(duration, count, serviceName, "PathInfo");
    NotFixed(duration, count, serviceName, "IpAddress");
    NotFixed(duration, count, serviceName, "ForwardedFor");
    NotFixed(duration, count, serviceName, "Referer");
    NotFixed(duration, count, serviceName, "Session");
    NotFixed(duration, count, serviceName, "Items");
    NotFixed(duration, count, serviceName, "StatusCode");
    NotFixed(duration, count, serviceName, "StatusDescription");
    NotFixed(duration, count, serviceName, "ResponseStatus");
  }

  /** The keys each later stage adds are still free when it runs; only StatusCode is already there. */
  lemma LaterKeysFree(cfg: BuildConfig, duration: real, count: int, serviceName: Option<string>, req: Request, dto: Option<Dto>)
    requires req.response.Some?
    ensures var isClosed := req.response.value.isClosed;
            var fr := FixedProperties(duration, count, serviceName) + RequestProperties(cfg.sessionTracking, req);
            var fro := fr + OpenResponseProperties(req, isClosed);
            var frob := fro + BodyProperties(cfg, req, dto, isClosed);
            && "UserAuthId" !in fr && "SessionId" !in fr
            && "RequestDto" !in fro && "FormData" !in fro && "RequestBody" !in fro
            && "StatusCode" in frob && "ResponseDto" !in frob && "ErrorCode" !in frob && "ErrorMessage" !in frob
            && "StackTrace" !in frob && "ExceptionSource" !in frob && "ExceptionData" !in frob
  {
    FreeBefore(cfg, duration, count, serviceName, req, dto, "UserAuthId");
    FreeBefore(cfg, duration, count, serviceName, req, dto, "SessionId");
    FreeBefore(cfg, duration, count, serviceName, req, dto, "RequestDto");
    FreeBefore(cfg, duration, count, serviceName, req, dto, "FormData");
    FreeBefore(cfg, duration, count, serviceName, req, dto, "RequestBody");
    FreeBefore(cfg, duration, count, serviceName, req, dto, "ResponseDto");
    FreeBefore(cfg, duration, count, serviceName, req, dto, "ErrorCode");
    FreeBefore(cfg, duration, count, serviceName, req, dto, "ErrorMessage");
    FreeBefore(cfg, duration, count, serviceName, req, dto, "StackTrace");
    FreeBefore(cfg, duration, count, serviceName, req, dto, "ExceptionSource");
    FreeBefore(cfg, duration, count, serviceName, req, dto, "ExceptionData");
    RequestWrites(cfg.sessionTracking, req, "StatusCode");
  }

  /** One more write onto a bag that is `m` plus a stage's earlier writes. */
  lemma AddStep(m: map<string, Value>, d: map<string, Value>, k: string, v: Value)
    ensures (m + d)[k := v] == m + d[k := v]
  {
  }

  /** The request stage's eleven writes, one after another, add exactly `RequestProperties`. */
  lemma RequestChain(m: map<string, Value>, sessionTracking: bool, req: Request)
    ensures m["HttpMethod" := Str(req.verb)]
             ["AbsoluteUri" := Str(req.absoluteUri)]
             ["PathInfo" := Str(req.pathInfo)]
             ["IpAddress" := Nullable(req.userHostAddress)]
             ["ForwardedFor" := Nullable(HeaderValue(req.headers, XForwardedFor))]
             ["Referer" := Nullable(HeaderValue(req.headers, RefererHeader))]
             ["Session" := if sessionTracking then NullableRef(req.session) else Null]
             ["Items" := Items(req.items)]
             ["StatusCode" := if req.response.Some? then Int(req.response.value.statusCode) else Null]
             ["StatusDescription" := if req.response.Some? then Nullable(req.response.value.statusDescription) else Null]
             ["ResponseStatus" := if req.response.Some? then NullableRef(req.response.value.responseStatus) else Null]
           == m + RequestProperties(sessionTracking, req)
  {
    var d: map<string, Value> := map[];
    assert m == m + d;
    var v: Value := Str(req.verb); AddStep(m, d, "HttpMethod", v); d := d["HttpMethod" := v];
    v := Str(req.absoluteUri); AddStep(m, d, "AbsoluteUri", v); d := d["AbsoluteUri" := v];
    v := Str(req.pathInfo); AddStep(m, d, "PathInfo", v); d := d["PathInfo" := v];
    v := Nullable(req.userHostAddress); AddStep(m, d, "IpAddress", v); d := d["IpAddress" := v];
    v := Nullable(HeaderValue(req.headers, XForwardedFor)); AddStep(m, d, "ForwardedFor", v); d := d["ForwardedFor" := v];
    v := Nullable(HeaderValue(req.headers, RefererHeader)); AddStep(m, d, "Referer", v); d := d["Referer" := v];
    v := if sessionTracking then NullableRef(req.session) else Null; AddStep(m, d, "Session", v); d := d["Session" := v];
    v := Items(req.items); AddStep(m, d, "Items", v); d := d["Items" := v];
    v := if req.response.Some? then Int(req.response.value.statusCode) else Null; AddStep(m, d, "StatusCode", v); d := d["StatusCode" := v];
    v := if req.response.Some? then Nullable(req.response.value.statusDescription) else Null; AddStep(m, d, "StatusDescription", v); d := d["StatusDescription" := v];
    v := if req.response.Some? then NullableRef(req.response.value.responseStatus) else Null; AddStep(m, d, "ResponseStatus", v); d := d["ResponseStatus" := v];
  }

  /** The four tracking toggles live under four different keys. */
  lemma ToggleKeysDistinct()
    ensures ConfigKeys.EnableSessionTracking != ConfigKeys.EnableResponseTracking
    ensures ConfigKeys.EnableSessionTracking != ConfigKeys.EnableRequestBodyTracking
    ensures ConfigKeys.EnableSessionTracking != ConfigKeys.EnableErrorTracking
    ensures ConfigKeys.EnableResponseTracking != ConfigKeys.EnableRequestBodyTracking
    ensures ConfigKeys.EnableResponseTracking != ConfigKeys.EnableErrorTracking
    ensures ConfigKeys.EnableRequestBodyTracking != ConfigKeys.EnableErrorTracking
  {
    ConfigKeys.AllKeysDistinct();
    assert ConfigKeys.AllKeys()[1] == ConfigKeys.EnableErrorTracking;
    assert ConfigKeys.AllKeys()[2] == ConfigKeys.EnableRequestBodyTracking;
    assert ConfigKeys.AllKeys()[3] == ConfigKeys.EnableSessionTracking;
    assert ConfigKeys.AllKeys()[4] == ConfigKeys.EnableResponseTracking;
  }

  // ---------------------------------------------------------------------
  // The logger

  class CloudTrailRequestLogger {
    const feature: CloudTrailRequestLogsFeature
    const cloudWatch: RemoteLogs.CloudWatchLogsClient
    const counter: RequestIds.RequestIdCounter
    var envInit: bool
    /** The logger's own `SkipLogging` property: set on registration, never consulted by `Log`. */
    var skipLogging: Option<SkipFilter>

    constructor(feature: CloudTrailRequestLogsFeature)
      ensures this.feature == feature && cloudWatch == feature.cloudWatch && counter == feature.counter
      ensures !envInit && skipLogging.None?
    {
      this.feature := feature;
      cloudWatch := feature.cloudWatch;
      counter := feature.counter;
      envInit := false;
      skipLogging := None;
    }

    // The settings the logger exposes are the feature's.

    function Enabled(): bool
      reads feature.appSettings
    {
      feature.Enabled()
    }

    method SetEnabled(b: bool)
      modifies feature.appSettings
      ensures feature.appSettings.store == old(feature.appSettings.store)[ConfigKeys.Enabled := Settings.Flag(b)]
      ensures Enabled() == b
    {
      feature.SetEnabled(b);
    }

    method SetAppendProperties(appender: Option<PropertyAppender>)
      modifies feature
      ensures feature.appendProperties == appender && Config().appendProperties == appender
      ensures feature.excludeRequestDtoTypes == old(feature.excludeRequestDtoTypes)
      ensures feature.hideRequestBodyForRequestDtoTypes == old(feature.hideRequestBodyForRequestDtoTypes)
      ensures feature.skipLogging == old(feature.skipLogging) && feature.rawEventLogger == old(feature.rawEventLogger)
    {
      feature.appendProperties := appender;
    }

    method SetEnableSessionTracking(b: bool)
      modifies feature.appSettings
      ensures feature.appSettings.store == old(feature.appSettings.store)[ConfigKeys.EnableSessionTracking := Settings.Flag(b)]
    {
      feature.SetEnableSessionTracking(b);
    }

    method SetEnableRequestBodyTracking(b: bool)
      modifies feature.appSettings
      ensures feature.appSettings.store == old(feature.appSettings.store)[ConfigKeys.EnableRequestBodyTracking := Settings.Flag(b)]
    {
      feature.SetEnableRequestBodyTracking(b);
    }

    method SetEnableResponseTracking(b: bool)
      modifies feature.appSettings
      ensures feature.appSettings.store == old(feature.appSettings.store)[ConfigKeys.EnableResponseTracking := Settings.Flag(b)]
    {
      feature.SetEnableResponseTracking(b);
    }

    method SetEnableErrorTracking(b: bool)
      modifies feature.appSettings
      ensures feature.appSettings.store == old(feature.appSettings.store)[ConfigKeys.EnableErrorTracking := Settings.Flag(b)]
    {
      feature.SetEnableErrorTracking(b);
    }

    /** The setter copies the array into a list on the feature. */
    method SetExcludeRequestDtoTypes(types: Option<seq<TypeId>>)
      modifies feature
      ensures feature.excludeRequestDtoTypes == types
      ensures feature.hideRequestBodyForRequestDtoTypes == old(feature.hideRequestBodyForRequestDtoTypes)
      ensures feature.skipLogging == old(feature.skipLogging) && feature.logger == old(feature.logger)
    {
      feature.excludeRequestDtoTypes := types;
    }

    method SetHideRequestBodyForRequestDtoTypes(types: Option<seq<TypeId>>)
      modifies feature
      ensures feature.hideRequestBodyForRequestDtoTypes == types
      ensures feature.excludeRequestDtoTypes == old(feature.excludeRequestDtoTypes)
      ensures feature.skipLogging == old(feature.skipLogging) && feature.logger == old(feature.logger)
    {
      feature.hideRequestBodyForRequestDtoTypes := types;
    }

    /** What the builder reads from the settings. */
    function Config(): BuildConfig
      reads feature, feature.appSettings
    {
      BuildConfig(
        feature.EnableSessionTracking(),
        feature.EnableRequestBodyTracking(),
        feature.EnableResponseTracking(),
        feature.EnableErrorTracking(),
        feature.hideRequestBodyForRequestDtoTypes,
        feature.appendProperties)
    }

    // ---- CreateEntry, stage by stage

    static method WriteFixed(props: Collections.SortedDictionary<Value>, duration: real, counter: RequestIds.RequestIdCounter,
                             serviceName: Option<string>) returns (count: RequestIds.Int32)
      requires props.items == map[]
      modifies props, counter
      ensures counter.value == RequestIds.Incremented(old(counter.value)) && count == counter.value
      ensures props.items == FixedProperties(duration, count as int, serviceName)
    {
      var ok := props.Add("IsRequestLog", Str("True"));
      ok := props.Add("SourceContext", Str(SourceContext));
      ok := props.Add("ElapsedMilliseconds", Millis(duration));
      count := counter.Increment();
      ok := props.Add("RequestCount", Str(Text.IntToString(count as int)));
      ok := props.Add("ServiceName", Nullable(serviceName));
    }

    /** Lines read off a non-null request; the item bag loses its internal keys as it is recorded. */
    static method WriteRequest(props: Collections.SortedDictionary<Value>, sessionTracking: bool, req: Request)
      requires && "HttpMethod" !in props.items && "AbsoluteUri" !in props.items && "PathInfo" !in props.items
               && "IpAddress" !in props.items && "ForwardedFor" !in props.items && "Referer" !in props.items
               && "Session" !in props.items && "Items" !in props.items && "StatusCode" !in props.items
               && "StatusDescription" !in props.items && "ResponseStatus" !in props.items
      modifies props, req.items
      ensures props.items == old(props.items) + RequestProperties(sessionTracking, req)
      ensures req.items.entries == LogExtensions.WithoutReserved(old(req.items.entries))
    {
      ghost var m := props.items;
      WriteRequestLine(props, req);
      WriteRequestContext(props, sessionTracking, req);
      WriteResponseStatus(props, req);
      RequestChain(m, sessionTracking, req);
    }

    static method WriteRequestLine(props: Collections.SortedDictionary<Value>, req: Request)
      requires && "HttpMethod" !in props.items && "AbsoluteUri" !in props.items && "PathInfo" !in props.items
               && "IpAddress" !in props.items
      modifies props
      ensures props.items == old(props.items)["HttpMethod" := Str(req.verb)]["AbsoluteUri" := Str(req.absoluteUri)]
                                             ["PathInfo" := Str(req.pathInfo)]["IpAddress" := Nullable(req.userHostAddress)]
    {
      var ok := props.Add("HttpMethod", Str(req.verb));
      ok := props.Add("AbsoluteUri", Str(req.absoluteUri));
      ok := props.Add("PathInfo", Str(req.pathInfo));
      ok := props.Add("IpAddress", Nullable(req.userHostAddress));
    }

    static method WriteRequestContext(props: Collections.SortedDictionary<Value>, sessionTracking: bool, req: Request)
      requires && "ForwardedFor" !in props.items && "Referer" !in props.items
               && "Session" !in props.items && "Items" !in props.items
      modifies props, req.items
      ensures props.items == old(props.items)["ForwardedFor" := Nullable(HeaderValue(req.headers, XForwardedFor))]
                                             ["Referer" := Nullable(HeaderValue(req.headers, RefererHeader))]
                                             ["Session" := if sessionTracking then NullableRef(req.session) else Null]
                                             ["Items" := Items(req.items)]
      ensures req.items.entries == LogExtensions.WithoutReserved(old(req.items.entries))
    {
      var ok := props.Add("ForwardedFor", Nullable(HeaderValue(req.headers, XForwardedFor)));
      ok := props.Add("Referer", Nullable(HeaderValue(req.headers, RefererHeader)));
      ok := props.Add("Session", if sessionTracking then NullableRef(req.session) else Null);
      var items := LogExtensions.WithoutDuplicates(req.items);
      ok := props.Add("Items", Items(items));
    }

    static method WriteResponseStatus(props: Collections.SortedDictionary<Value>, req: Request)
      requires "StatusCode" !in props.items && "StatusDescription" !in props.items && "ResponseStatus" !in props.items
      modifies props
      ensures props.items == old(props.items)
                               ["StatusCode" := if req.response.Some? then Int(req.response.value.statusCode) else Null]
                               ["StatusDescription" := if req.response.Some? then Nullable(req.response.value.statusDescription) else Null]
                               ["ResponseStatus" := if req.response.Some? then NullableRef(req.response.value.responseStatus) else Null]
    {
      var ok := props.Add("StatusCode", if req.response.Some? then Int(req.response.value.statusCode) else Null);
      ok := props.Add("StatusDescription", if req.response.Some? then Nullable(req.response.value.statusDescription) else Null);
      ok := props.Add("ResponseStatus", if req.response.Some? then NullableRef(req.response.value.responseStatus) else Null);
    }

    /** UserAuthId and SessionId, read only while the response is open. */
    static method WriteOpen(props: Collections.SortedDictionary<Value>, req: Request, isClosed: bool)
      requires "UserAuthId" !in props.items && "SessionId" !in props.items
      modifies props
      ensures props.items == old(props.items) + OpenResponseProperties(req, isClosed)
    {
      if !isClosed {
        var ok := props.Add("UserAuthId", Nullable(req.userAuthId));
        ok := props.Add("SessionId", Nullable(req.sessionId));
      }
    }

    /** The body gate. */
    static method WriteBody(props: Collections.SortedDictionary<Value>, cfg: BuildConfig, req: Request, dto: Option<Dto>, isClosed: bool)
      requires "RequestDto" !in props.items && "FormData" !in props.items && "RequestBody" !in props.items
      modifies props
      ensures props.items == old(props.items) + BodyProperties(cfg, req, dto, isClosed)
    {
      var requestType := TypeOf(dto);
      if cfg.hideRequestBodyFor.Some? && requestType.Some? && requestType.value !in cfg.hideRequestBodyFor.value {
        var ok := props.Add("RequestDto", Boxed(dto.value.obj));
        if !isClosed {
          ok := props.Add("FormData", Ref(req.formData));
        }
        if cfg.requestBodyTracking {
          ok := props.Add("RequestBody", Nullable(req.rawBody));
        }
      }
    }

    /** Response tracking, or the error fields, level and exception text of a tracked error. */
    static method WriteResponse(entry: CloudTrailRequestLogEntry, cfg: BuildConfig, response: Option<Response>)
      requires entry.level == DefaultLevel && entry.exception.None?
      requires && "StatusCode" in entry.properties.items && "ResponseDto" !in entry.properties.items
               && "ErrorCode" !in entry.properties.items && "ErrorMessage" !in entry.properties.items
               && "StackTrace" !in entry.properties.items
               && "ExceptionSource" !in entry.properties.items && "ExceptionData" !in entry.properties.items
      modifies entry, entry.properties
      ensures entry.properties.items == old(entry.properties.items) + ResponseProperties(cfg, response)
      ensures entry.level == ResponseLevel(cfg, response) && entry.exception == ResponseException(cfg, response)
      ensures entry.timestamp == old(entry.timestamp) && entry.messageTemplate == old(entry.messageTemplate)
    {
      var props := entry.properties;
      if !IsErrorResponse(response) {
        if cfg.responseTracking {
          var ok := props.Add("ResponseDto", if response.Some? then Boxed(response.value.obj) else Null);
        }
      } else if cfg.errorTracking {
        var r := response.value;
        ghost var m := props.items;
        if r.httpError.Some? {
          WriteHttpError(entry, r.httpError.value);
        }
        if r.exception.Some? {
          WriteException(entry, r.exception.value);
        }
        UnionAssociates(m, HttpErrorProperties(r.httpError), ExceptionProperties(r.exception));
      }
    }

    /** An HTTP error: its level, its status code over the request's, and its error fields. */
    static method WriteHttpError(entry: CloudTrailRequestLogEntry, e: HttpErrorView)
      requires && "StatusCode" in entry.properties.items
               && "ErrorCode" !in entry.properties.items && "ErrorMessage" !in entry.properties.items
               && "StackTrace" !in entry.properties.items
      modifies entry, entry.properties
      ensures entry.properties.items == old(entry.properties.items) + HttpErrorProperties(Some(e))
      ensures entry.level == LevelFor(e.statusCode) && entry.exception == old(entry.exception)
      ensures entry.timestamp == old(entry.timestamp) && entry.messageTemplate == old(entry.messageTemplate)
    {
      var props := entry.properties;
      entry.level := if 400 <= e.statusCode && e.statusCode < 500 then WarningLevel else ErrorLevel;
      props.Set("StatusCode", Int(e.statusCode));
      var ok := props.Add("ErrorCode", Nullable(e.errorCode));
      ok := props.Add("ErrorMessage", Nullable(e.message));
      ok := props.Add("StackTrace", Nullable(e.stackTrace));
    }

    /** An exception: its text, the inner one's when there is one, and the inner one's source and data. */
    static method WriteException(entry: CloudTrailRequestLogEntry, ex: ExceptionView)
      requires "ExceptionSource" !in entry.properties.items && "ExceptionData" !in entry.properties.items
      modifies entry, entry.properties
      ensures entry.properties.items == old(entry.properties.items) + ExceptionProperties(Some(ex))
      ensures entry.exception == Some(if ex.inner.Some? then ex.inner.value.text else ex.text)
      ensures entry.level == old(entry.level)
      ensures entry.timestamp == old(entry.timestamp) && entry.messageTemplate == old(entry.messageTemplate)
    {
      var props := entry.properties;
      if ex.inner.Some? {
        entry.exception := Some(ex.inner.value.text);
        var ok := props.Add("ExceptionSource", Nullable(ex.inner.value.source));
        ok := props.Add("ExceptionData", Ref(ex.inner.value.data));
      } else {
        entry.exception := Some(ex.text);
      }
    }

    /** Each appended pair through `GetOrAdd`, in order: the first write of a key wins. */
    static method AppendPairs(props: Collections.SortedDictionary<Value>, pairs: seq<(string, Value)>)
      modifies props
      ensures props.items == Merged(old(props.items), pairs)
    {
      for i := 0 to |pairs|
        invariant Merged(props.items, pairs[i..]) == Merged(old(props.items), pairs)
      {
        var key := pairs[i].0;
        var value := pairs[i].1;
        ghost var before := props.items;
        var _ := DictionaryExtensions.GetOrAdd(props, key, _ => value);
        assert props.items == DictionaryExtensions.GetOrAdded(before, key, _ => value).0;
        assert pairs[i..][1..] == pairs[i + 1..];
      }
    }

    /**
      Each header whose value no property holds yet is added as
      `Header-{name}`; an `Add` onto a key already present throws.
    */
    static method WriteHeaders(props: Collections.SortedDictionary<Value>, headers: seq<(string, string)>) returns (r: Outcome<Fault>)
      modifies props
      ensures r.Pass? <==> WithHeaders(old(props.items), headers).Success?
      ensures r.Pass? ==> props.items == WithHeaders(old(props.items), headers).value
      ensures r.Fail? ==> r.error == WithHeaders(old(props.items), headers).error
    {
      for i := 0 to |headers|
        invariant WithHeaders(props.items, headers[i..]) == WithHeaders(old(props.items), headers)
      {
        var header := headers[i];
        assert headers[i..][1..] == headers[i + 1..];
        if !props.ContainsValue(Str(header.1)) {
          var ok := props.Add(HeaderKey(header.0), Str(header.1));
          if !ok {
            r := Fail(DuplicateKey(HeaderKey(header.0)));
            return;
          }
        }
      }
      assert headers[|headers|..] == [];
      r := Pass;
    }

    // ---- The entry, its delivery, and Log

    /**
      `CreateEntry`: the entry `BuildEntry` describes, with the counter's new
      value as its `RequestCount`, or the exception the build throws. The
      counter is bumped on every call, including those that throw.
    */
    method CreateEntry(request: Option<Request>, dto: Option<Dto>, response: Option<Response>, duration: real,
                       timestamp: string, serviceName: Option<string>)
      returns (r: Result<CloudTrailRequestLogEntry, Fault>)
      modifies counter, if request.Some? then {request.value.items} else {}
      ensures counter.value == RequestIds.Incremented(old(counter.value))
      ensures var built := BuildEntry(old(Config()), Inputs(request, dto, response, duration, counter.value as int, timestamp, serviceName));
              && (r.Success? <==> built.Success?)
              && (r.Success? ==> fresh(r.value) && fresh(r.value.properties) && r.value.Snapshot() == built.value)
              && (r.Failure? ==> r.error == built.error)
      ensures request.Some? ==> request.value.items.entries == LogExtensions.WithoutReserved(old(request.value.items.entries))
    {
      var cfg := Config();
      var entry, count := Begin(cfg, counter, request, duration, timestamp, serviceName);
      var inp := Inputs(request, dto, response, duration, count as int, timestamp, serviceName);
      if request.None? || request.value.response.None? {
        r := Failure(NullReference);
      } else {
        r := Complete(entry, cfg, inp);
      }
    }

    /** The open-response, body and response stages: the entry is then `Before`'s partial entry. */
    static method WriteStages(entry: CloudTrailRequestLogEntry, cfg: BuildConfig, inp: Inputs)
      requires HasResponse(inp)
      requires entry.level == DefaultLevel && entry.exception.None?
      requires entry.properties.items == FixedProperties(inp.duration, inp.count, inp.serviceName)
                                         + RequestProperties(cfg.sessionTracking, inp.request.value)
      modifies entry, entry.properties
      ensures entry.level == Before(cfg, inp).level && entry.exception == Before(cfg, inp).exception
      ensures entry.properties.items == Before(cfg, inp).properties
      ensures entry.timestamp == old(entry.timestamp) && entry.messageTemplate == old(entry.messageTemplate)
    {
      var props := entry.properties;
      var req := inp.request.value;
      var isClosed := req.response.value.isClosed;
      LaterKeysFree(cfg, inp.duration, inp.count, inp.serviceName, req, inp.dto);
      WriteOpen(props, req, isClosed);
      WriteBody(props, cfg, req, inp.dto, isClosed);
      WriteResponse(entry, cfg, inp.response);
    }

    /** A new entry with the template and timestamp set, the fixed properties, and the request's lines when there is one. */
    static method Begin(cfg: BuildConfig, counter: RequestIds.RequestIdCounter, request: Option<Request>, duration: real,
                        timestamp: string, serviceName: Option<string>)
      returns (entry: CloudTrailRequestLogEntry, count: RequestIds.Int32)
      modifies counter, if request.Some? then {request.value.items} else {}
      ensures fresh(entry) && fresh(entry.properties)
      ensures counter.value == RequestIds.Incremented(old(counter.value)) && count == counter.value
      ensures entry.level == DefaultLevel && entry.exception.None?
      ensures entry.timestamp == Some(timestamp) && entry.messageTemplate == HttpMessageTemplate
      ensures request.Some? ==> entry.properties.items == FixedProperties(duration, count as int, serviceName)
                                                          + RequestProperties(cfg.sessionTracking, request.value)
      ensures request.Some? ==> request.value.items.entries == LogExtensions.WithoutReserved(old(request.value.items.entries))
    {
      entry := new CloudTrailRequestLogEntry();
      entry.timestamp := Some(timestamp);
      entry.messageTemplate := HttpMessageTemplate;
      var props := entry.properties;
      count := WriteFixed(props, duration, counter, serviceName);
      RequestKeysFree(duration, count as int, serviceName);
      if request.Some? {
        WriteRequest(props, cfg.sessionTracking, request.value);
      }
    }

    /**
      The rest of `CreateEntry` once the request and its response are known
      to be there: the open-response, body and response stages, the
      appender, then the headers.
    */
    static method Complete(entry: CloudTrailRequestLogEntry, cfg: BuildConfig, inp: Inputs)
      returns (r: Result<CloudTrailRequestLogEntry, Fault>)
      requires HasResponse(inp)
      requires entry.level == DefaultLevel && entry.exception.None?
      requires entry.timestamp == Some(inp.timestamp) && entry.messageTemplate == HttpMessageTemplate
      requires entry.properties.items == FixedProperties(inp.duration, inp.count, inp.serviceName)
                                         + RequestProperties(cfg.sessionTracking, inp.request.value)
      modifies entry, entry.properties
      ensures r.Success? <==> BuildEntry(cfg, inp).Success?
      ensures r.Success? ==> r.value == entry && r.value.Snapshot() == BuildEntry(cfg, inp).value
      ensures r.Failure? ==> r.error == BuildEntry(cfg, inp).error
    {
      var props := entry.properties;
      var req := inp.request.value;
      var dto := inp.dto;
      var response := inp.response;
      WriteStages(entry, cfg, inp);
      var pairs: seq<(string, Value)> := [];
      if cfg.appendProperties.Some? {
        var appended := cfg.appendProperties.value(inp.request, dto, response, inp.duration);
        if appended.Threw? {
          return Failure(HookThrew);
        }
        pairs := appended.value.GetOr([]);
      }
      assert AppendedPairs(cfg, inp.request, dto, response, inp.duration) == Returned(pairs);
      AppendPairs(props, pairs);
      var written := WriteHeaders(props, req.headers);
      if written.Fail? {
        return Failure(written.error);
      }
      r := Success(entry);
    }

    /**
      `SetupCloudTrailEnv` against the feature's group and stream names. A
      null group name lists every group and then fails at the group
      creation; a null stream name gets the group ready and then fails at
      the stream creation. A failing call changes nothing.
    */
    method SetupCloudTrailEnv()
      modifies this, cloudWatch
      ensures RemoteLogs.Provisioned(envInit, cloudWatch.remote)
              == RemoteLogs.Setup(old(envInit), old(cloudWatch.remote), feature.LogGroupName(), feature.logStreamName)
      ensures skipLogging == old(skipLogging)
    {
      if envInit {
        return;
      }
      var groupName := feature.LogGroupName();
      if groupName.None? {
        var everyGroup := cloudWatch.DescribeLogGroupsAsync("");
        return;
      }
      var group := groupName.value;
      var existing := cloudWatch.DescribeLogGroupsAsync(group);
      assert existing == RemoteLogs.GroupsWithPrefix(cloudWatch.remote, group);
      if forall g :: g in existing ==> g != group {
        cloudWatch.CreateLogGroupAsync(group);
      }
      var existingStreams := cloudWatch.DescribeLogStreamsAsync(group);
      var streamName := feature.logStreamName;
      if streamName.None? {
        return;
      }
      var stream := streamName.value;
      if stream in existingStreams {
        return;
      }
      cloudWatch.CreateLogStreamAsync(group, stream);
      envInit := true;
    }

    /** `BufferedLogEntries`: set up, then put the entry as one event stamped `now`. */
    method BufferedLogEntries(entry: EntryRecord, now: nat)
      modifies this, cloudWatch
      ensures RemoteLogs.Provisioned(envInit, cloudWatch.remote)
              == RemoteLogs.Deliver(old(envInit), old(cloudWatch.remote), feature.LogGroupName(), feature.logStreamName,
                                    RemoteLogs.LogEvent(now, entry))
      ensures skipLogging == old(skipLogging)
    {
      SetupCloudTrailEnv();
      var groupName := feature.LogGroupName();
      var streamName := feature.logStreamName;
      if groupName.None? || streamName.None? {
        return;
      }
      cloudWatch.PutLogEventsAsync(groupName.value, streamName.value, RemoteLogs.LogEvent(now, entry));
    }

    /**
      `Log`: the gates, then the entry, then its delivery. Every exception
      raised on the way is caught; the outcome says where the call stopped.
    */
    method Log(request: Option<Request>, dto: Option<Dto>, response: Option<Response>, duration: real,
               timestamp: string, serviceName: Option<string>, now: nat)
      returns (outcome: LogOutcome)
      modifies this, cloudWatch, counter, if request.Some? then {request.value.items} else {}
      ensures var gate := LogGate(old(feature.rawEventLogger), old(Enabled()), old(feature.skipLogging),
                                  old(feature.excludeRequestDtoTypes), request, dto, response, duration);
              && (gate.Stop? ==> outcome == gate.outcome && counter.value == old(counter.value)
                                 && envInit == old(envInit) && cloudWatch.remote == old(cloudWatch.remote))
              && (gate.Build? ==> counter.value == RequestIds.Incremented(old(counter.value)))
              && (request.Some? ==> request.value.items.entries
                                    == if gate.Build? then LogExtensions.WithoutReserved(old(request.value.items.entries))
                                       else old(request.value.items.entries))
      ensures var built := BuildEntry(old(Config()), Inputs(request, dto, response, duration, counter.value as int, timestamp, serviceName));
              LogGate(old(feature.rawEventLogger), old(Enabled()), old(feature.skipLogging),
                      old(feature.excludeRequestDtoTypes), request, dto, response, duration).Build?
              ==> && outcome == (if built.Success? then Dispatched(built.value) else Caught(built.error))
                  && (built.Failure? ==> envInit == old(envInit) && cloudWatch.remote == old(cloudWatch.remote))
                  && (built.Success?
                      ==> RemoteLogs.Provisioned(envInit, cloudWatch.remote)
                          == RemoteLogs.Deliver(old(envInit), old(cloudWatch.remote), old(feature.LogGroupName()),
                                                old(feature.logStreamName), RemoteLogs.LogEvent(now, built.value)))
    {
      var raw := feature.rawEventLogger;
      if raw.Some? && raw.value(request, dto, response, duration).Threw? {
        return Caught(HookThrew);
      }
      if !Enabled() {
        return Disabled;
      }
      var skip := feature.skipLogging;
      if skip.Some? {
        var skipped := skip.value(request);
        if skipped.Threw? {
          return Caught(HookThrew);
        }
        if skipped.value {
          return Skipped;
        }
      }
      var requestType := TypeOf(dto);
      if ExcludeRequestType(feature.excludeRequestDtoTypes, requestType) {
        return Excluded;
      }
      outcome := Dispatch(request, dto, response, duration, timestamp, serviceName, now);
    }

    /** What `Log` does past its gates: build the entry and ship it; a build fault is caught. */
    method Dispatch(request: Option<Request>, dto: Option<Dto>, response: Option<Response>, duration: real,
                    timestamp: string, serviceName: Option<string>, now: nat)
      returns (outcome: LogOutcome)
      modifies this, cloudWatch, counter, if request.Some? then {request.value.items} else {}
      ensures counter.value == RequestIds.Incremented(old(counter.value))
      ensures request.Some? ==> request.value.items.entries == LogExtensions.WithoutReserved(old(request.value.items.entries))
      ensures var built := BuildEntry(old(Config()), Inputs(request, dto, response, duration, counter.value as int, timestamp, serviceName));
              && outcome == (if built.Success? then Dispatched(built.value) else Caught(built.error))
              && (built.Failure? ==> envInit == old(envInit) && cloudWatch.remote == old(cloudWatch.remote))
              && (built.Success?
                  ==> RemoteLogs.Provisioned(envInit, cloudWatch.remote)
                      == RemoteLogs.Deliver(old(envInit), old(cloudWatch.remote), old(feature.LogGroupName()),
                                            old(feature.logStreamName), RemoteLogs.LogEvent(now, built.value)))
    {
      var entry := CreateEntry(request, dto, response, duration, timestamp, serviceName);
      if entry.Failure? {
        return Caught(entry.error);
      }
      var record := entry.value.Snapshot();
      BufferedLogEntries(record, now);
      outcome := Dispatched(record);
    }

    /** Reading logs back is not supported: it always throws. */
    method GetLatestLogs(take: Option<int>) returns (r: Result<seq<EntryRecord>, Fault>)
      ensures r == Failure(NotSupported(NotSupportedMessage))
    {
      r := Failure(NotSupported(NotSupportedMessage));
    }
  }
}
