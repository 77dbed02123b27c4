# CloudTrail request logger — a Dafny model

This project models the request logger of the ServiceStack CloudTrail
request-logs plugin. For every request the host hands over, the logger
decides whether to log it. The gates, in order, are the raw-event hook,
`Enabled`, the `SkipLogging` filter and the DTO exclusion list. The logger
then builds a `CloudTrailRequestLogEntry`, a key-sorted property bag plus
level, timestamp, message template and exception text, and ships it to a
CloudWatch Logs group and stream. Before the first shipment it provisions
that group and stream. The plugin (`CloudTrailRequestLogsFeature`) keeps
its settings in the application settings under fixed keys. It validates
them, then registers the logger with the host.

Modules, one per source file plus a few support modules:

| file | models |
|---|---|
| `Wrappers.dfy` | `Option`, `Result`, `Outcome` and `Invocation` (a hook call that returns or throws) |
| `Text.dfy` | ordinal string order and the sorted key enumeration; `int.ToString()` with its parse round trip |
| `Collections.dfy` | `Dictionary<string, V>` and `SortedDictionary<string, V>` as classes updated in place; `Add` on a present key fails |
| `Host.dfy` | what the host passes in: the request, DTO and response views, the property value type, the hook types, the faults |
| `DictionaryExtensions.dfy` | `GetOrAdd` |
| `LogExtensions.dfy` | `WithoutDuplicates` |
| `ConfigKeys.dfy` | the setting keys |
| `Settings.dfy` | the settings store, with typed reads that fall back to a default |
| `ConfigValidator.dfy` | the three validation rules |
| `RequestLogEntry.dfy` | the mutable log entry |
| `RequestIds.dfy` | the static 32-bit request counter and its `Interlocked.Increment` |
| `EntryBuilder.dfy` | `BuildEntry`, the entry `CreateEntry` builds as a function of its inputs, and the field-inclusion lemmas |
| `RemoteLogs.dfy` | the CloudWatch Logs state (groups, streams, events, call history), `Setup`, `Provision` and `Deliver`, and the client |
| `RequestLogging.dfy` | the feature, the logger and the app host, which refer to one another |

`CreateEntry` is an imperative method. It fills a fresh entry's sorted
dictionary stage by stage, as the source does. Its postcondition says the
entry it returns is `BuildEntry(config, inputs)`, or that it throws the
fault `BuildEntry` names. The field-inclusion properties are lemmas about
`BuildEntry`. `SetupCloudTrailEnv` is proved equal to `Setup`, which is
`Provision` when both names are set, and `BufferedLogEntries` to `Deliver`. `Log` is proved against the gate
function `LogGate` and `BuildEntry`.

Some inputs are parameters of the model:

- the wall-clock timestamp string of an entry and the send time of an event;
- the host's service name;
- the region lookup of the AWS SDK;
- the measured duration, as a `real` number of milliseconds.

Behaviours of the code a caller may not expect, which the model keeps:

- A null request, or one without a response, is dereferenced at `CloudTrailRequestLogger.cs:229`. The build then always throws and `Log` swallows it; missing context does not just drop property groups.
- A null hide-body list means the body fields are never added. An empty list shows them for every DTO.
- `Session` is always recorded for a non-null request. Its value is null when session tracking is off.
- Stage writes use `SortedDictionary.Add`, which throws on a key already present. A header key that collides with an appended property aborts the build.
- `envInit` is set only when the stream had to be created. When the stream already exists, every later delivery lists the groups and streams again.
- The exception text is set whenever the response is an `Exception` and error tracking is on, independently of `IHttpError`.
- Delivery runs in an `async void` method. Its failures never reach `Log`'s catch. They are raised again as unhandled exceptions, on the synchronisation context that was current when delivery began or, without one, on the thread pool, where they end the process under the default runtime policy.
- `LogStreamName` is null unless it is set (`CloudTrailRequestLogsFeature.cs:167`), and the service rejects a stream creation with a null name. Under the default settings every delivery therefore ends in such an unhandled exception.
- A request DTO or response that is a string is recorded by its text. A header carrying the same text is then already "contained" and is skipped.
- A null log group name still lists the groups, with no prefix, before the service rejects the group creation. A null log stream name still gets the group ready and lists its streams before the service rejects the stream creation.

## Model

| member | source | states |
|---|---|---|
| RequestLogging.BuildOnlyPastEveryGate | ServiceStack.CloudTrail.RequestLogsFeature/ServiceStack.CloudTrail.RequestLogsFeature/CloudTrailRequestLogger.cs:161-183 | an entry is built iff the raw hook (if any) returns, logging is enabled, the skip filter (if any) returns false, and a non-null DTO's type is not in a non-null exclusion list |
| RequestLogging.RawHookRunsFirst | ServiceStack.CloudTrail.RequestLogsFeature/ServiceStack.CloudTrail.RequestLogsFeature/CloudTrailRequestLogger.cs:163-164 | a throwing raw hook ends the call as a caught fault whatever the other gates say |
| RequestLogging.DisabledStopsAfterRawHook | ServiceStack.CloudTrail.RequestLogsFeature/ServiceStack.CloudTrail.RequestLogsFeature/CloudTrailRequestLogger.cs:166-170 | once the raw hook has returned (or is absent), a disabled logger stops with no entry |
| RequestLogging.NullListExcludesNothing | ServiceStack.CloudTrail.RequestLogsFeature/ServiceStack.CloudTrail.RequestLogsFeature/CloudTrailRequestLogger.cs:308-313 | a null list or a null DTO type never excludes; otherwise exclusion is list membership |
| RequestLogging.CloudTrailRequestLogger.Log | ServiceStack.CloudTrail.RequestLogsFeature/ServiceStack.CloudTrail.RequestLogsFeature/CloudTrailRequestLogger.cs:159-192 | a stopping gate is the outcome and the counter, item bag and remote state stay unchanged; past the gates the counter moves once, the item bag loses its reserved keys, the outcome is the built entry or the caught build fault, a build fault leaves the remote state alone, and a built entry is delivered as `Deliver` says for the names set when the call began; no fault leaves `Log` |
| RequestLogging.CloudTrailRequestLogger.Dispatch | ServiceStack.CloudTrail.RequestLogsFeature/ServiceStack.CloudTrail.RequestLogsFeature/CloudTrailRequestLogger.cs:185-191 | the counter moves once and the item bag loses its reserved keys; the outcome is the built entry or the caught build fault; a build fault leaves the flag and remote state alone; a built entry is delivered as `Deliver` says |
| RequestLogging.CloudTrailRequestLogger.GetLatestLogs | ServiceStack.CloudTrail.RequestLogsFeature/ServiceStack.CloudTrail.RequestLogsFeature/CloudTrailRequestLogger.cs:195-199 | always fails with NotSupported and the message "use aws cloudtrail ui to read logs" |
| RequestLogging.CloudTrailRequestLogger.CreateEntry | ServiceStack.CloudTrail.RequestLogsFeature/ServiceStack.CloudTrail.RequestLogsFeature/CloudTrailRequestLogger.cs:201-306 | the counter is incremented once on every call; the result is a fresh entry whose snapshot is `BuildEntry` of the settings and inputs, or the fault `BuildEntry` names; the request's item bag loses its reserved keys |
| RequestLogging.CloudTrailRequestLogger.Begin | ServiceStack.CloudTrail.RequestLogsFeature/ServiceStack.CloudTrail.RequestLogsFeature/CloudTrailRequestLogger.cs:202-227 | a fresh entry with the HTTP template and timestamp, level Debug, holding exactly the fixed properties plus the request's properties |
| RequestLogging.CloudTrailRequestLogger.Complete | ServiceStack.CloudTrail.RequestLogsFeature/ServiceStack.CloudTrail.RequestLogsFeature/CloudTrailRequestLogger.cs:229-305 | from a bag holding the fixed and request properties, the remaining stages yield exactly `BuildEntry`'s entry or its fault |
| RequestLogging.CloudTrailRequestLogger.WriteStages | ServiceStack.CloudTrail.RequestLogsFeature/ServiceStack.CloudTrail.RequestLogsFeature/CloudTrailRequestLogger.cs:229-287 | after the open-response, body and response stages the entry's level, exception and bag are `Before`'s |
| RequestLogging.CloudTrailRequestLogger.WriteFixed | ServiceStack.CloudTrail.RequestLogsFeature/ServiceStack.CloudTrail.RequestLogsFeature/CloudTrailRequestLogger.cs:208-212 | an empty bag receives exactly the five fixed properties, with the counter's new value as RequestCount |
| RequestLogging.CloudTrailRequestLogger.WriteRequest | ServiceStack.CloudTrail.RequestLogsFeature/ServiceStack.CloudTrail.RequestLogsFeature/CloudTrailRequestLogger.cs:214-227 | the bag gains exactly the eleven request properties; the item bag loses its reserved keys |
| RequestLogging.CloudTrailRequestLogger.WriteRequestLine | ServiceStack.CloudTrail.RequestLogsFeature/ServiceStack.CloudTrail.RequestLogsFeature/CloudTrailRequestLogger.cs:216-219 | verb, URI, path and client address are added |
| RequestLogging.CloudTrailRequestLogger.WriteRequestContext | ServiceStack.CloudTrail.RequestLogsFeature/ServiceStack.CloudTrail.RequestLogsFeature/CloudTrailRequestLogger.cs:220-223 | forwarded-for, referer, session (null unless tracked) and the cleaned item bag are added |
| RequestLogging.CloudTrailRequestLogger.WriteResponseStatus | ServiceStack.CloudTrail.RequestLogsFeature/ServiceStack.CloudTrail.RequestLogsFeature/CloudTrailRequestLogger.cs:224-226 | status code, description and response status are added, null without a response |
| RequestLogging.CloudTrailRequestLogger.WriteOpen | ServiceStack.CloudTrail.RequestLogsFeature/ServiceStack.CloudTrail.RequestLogsFeature/CloudTrailRequestLogger.cs:229-234 | UserAuthId and SessionId are added exactly when the response is open |
| RequestLogging.CloudTrailRequestLogger.WriteBody | ServiceStack.CloudTrail.RequestLogsFeature/ServiceStack.CloudTrail.RequestLogsFeature/CloudTrailRequestLogger.cs:236-251 | the bag gains exactly the body properties the body gate admits |
| RequestLogging.CloudTrailRequestLogger.WriteResponse | ServiceStack.CloudTrail.RequestLogsFeature/ServiceStack.CloudTrail.RequestLogsFeature/CloudTrailRequestLogger.cs:253-287 | the bag gains the response properties; level and exception become the response's |
| RequestLogging.CloudTrailRequestLogger.WriteHttpError | ServiceStack.CloudTrail.RequestLogsFeature/ServiceStack.CloudTrail.RequestLogsFeature/CloudTrailRequestLogger.cs:262-271 | the level follows the status class; StatusCode is overwritten with the error's code and the three error fields are added |
| RequestLogging.CloudTrailRequestLogger.WriteException | ServiceStack.CloudTrail.RequestLogsFeature/ServiceStack.CloudTrail.RequestLogsFeature/CloudTrailRequestLogger.cs:273-285 | the exception text is the inner exception's when present (with its source and data added), else the outer's |
| RequestLogging.CloudTrailRequestLogger.AppendPairs | ServiceStack.CloudTrail.RequestLogsFeature/ServiceStack.CloudTrail.RequestLogsFeature/CloudTrailRequestLogger.cs:289-295 | the bag becomes `Merged` of the pairs: each goes in through GetOrAdd, in order |
| RequestLogging.CloudTrailRequestLogger.WriteHeaders | ServiceStack.CloudTrail.RequestLogsFeature/ServiceStack.CloudTrail.RequestLogsFeature/CloudTrailRequestLogger.cs:297-303 | passes iff `WithHeaders` succeeds, leaving its bag; otherwise fails with its duplicate-key fault |
| RequestLogging.CloudTrailRequestLogger.SetupCloudTrailEnv | ServiceStack.CloudTrail.RequestLogsFeature/ServiceStack.CloudTrail.RequestLogsFeature/CloudTrailRequestLogger.cs:42-66 | the flag and remote state become `Setup`'s: with `envInit` set nothing happens; a null group name only lists every group; a null stream name gets the group ready and lists its streams; with both names set, `Provision` |
| RequestLogging.CloudTrailRequestLogger.BufferedLogEntries | ServiceStack.CloudTrail.RequestLogsFeature/ServiceStack.CloudTrail.RequestLogsFeature/CloudTrailRequestLogger.cs:68-85 | the flag and remote state become `Deliver`'s for one event carrying the entry: setup, then, only when both names are set, one PutLogEvents call |
| RequestLogging.CloudTrailRequestLogger.constructor | ServiceStack.CloudTrail.RequestLogsFeature/ServiceStack.CloudTrail.RequestLogsFeature/CloudTrailRequestLogger.cs:35-40 | the logger is bound to the feature, its client and the shared counter, with `envInit` clear |
| RequestLogging.CloudTrailRequestLogger.SetEnabled | ServiceStack.CloudTrail.RequestLogsFeature/ServiceStack.CloudTrail.RequestLogsFeature/CloudTrailRequestLogger.cs:87-91 | writes the feature's Enabled setting, which then reads back as written |
| RequestLogging.CloudTrailRequestLogger.SetEnableSessionTracking | ServiceStack.CloudTrail.RequestLogsFeature/ServiceStack.CloudTrail.RequestLogsFeature/CloudTrailRequestLogger.cs:94-98 | writes the feature's session-tracking key |
| RequestLogging.CloudTrailRequestLogger.SetEnableRequestBodyTracking | ServiceStack.CloudTrail.RequestLogsFeature/ServiceStack.CloudTrail.RequestLogsFeature/CloudTrailRequestLogger.cs:101-105 | writes the feature's body-tracking key |
| RequestLogging.CloudTrailRequestLogger.SetEnableResponseTracking | ServiceStack.CloudTrail.RequestLogsFeature/ServiceStack.CloudTrail.RequestLogsFeature/CloudTrailRequestLogger.cs:111-115 | writes the feature's response-tracking key |
| RequestLogging.CloudTrailRequestLogger.SetEnableErrorTracking | ServiceStack.CloudTrail.RequestLogsFeature/ServiceStack.CloudTrail.RequestLogsFeature/CloudTrailRequestLogger.cs:121-125 | writes the feature's error-tracking key |
| RequestLogging.CloudTrailRequestLogger.SetExcludeRequestDtoTypes | ServiceStack.CloudTrail.RequestLogsFeature/ServiceStack.CloudTrail.RequestLogsFeature/CloudTrailRequestLogger.cs:135-139 | the feature's exclusion list becomes the given one, null kept as null; nothing else changes |
| RequestLogging.CloudTrailRequestLogger.SetHideRequestBodyForRequestDtoTypes | ServiceStack.CloudTrail.RequestLogsFeature/ServiceStack.CloudTrail.RequestLogsFeature/CloudTrailRequestLogger.cs:141-145 | the feature's hide-body list becomes the given one; nothing else changes |
| RequestLogging.CloudTrailRequestLogger.SetAppendProperties | ServiceStack.CloudTrail.RequestLogsFeature/ServiceStack.CloudTrail.RequestLogsFeature/CloudTrailRequestLogger.cs:153-157 | the feature's appender, which the builder then uses, becomes the given one |
| RequestLogging.CloudTrailRequestLogsFeature.constructor | ServiceStack.CloudTrail.RequestLogsFeature/ServiceStack.CloudTrail.RequestLogsFeature/CloudTrailRequestLogsFeature.cs:51-57 | default lists: exclude `[RequestLogs]`, hide bodies of `[Authenticate, Register]`; no hooks, no logger |
| RequestLogging.CloudTrailRequestLogsFeature.Enabled | ServiceStack.CloudTrail.RequestLogsFeature/ServiceStack.CloudTrail.RequestLogsFeature/CloudTrailRequestLogsFeature.cs:71-75 | true when the key is unset |
| RequestLogging.CloudTrailRequestLogsFeature.EnableErrorTracking | ServiceStack.CloudTrail.RequestLogsFeature/ServiceStack.CloudTrail.RequestLogsFeature/CloudTrailRequestLogsFeature.cs:80-84 | true when the key is unset |
| RequestLogging.CloudTrailRequestLogsFeature.EnableRequestBodyTracking | ServiceStack.CloudTrail.RequestLogsFeature/ServiceStack.CloudTrail.RequestLogsFeature/CloudTrailRequestLogsFeature.cs:89-93 | false when the key is unset |
| RequestLogging.CloudTrailRequestLogsFeature.EnableSessionTracking | ServiceStack.CloudTrail.RequestLogsFeature/ServiceStack.CloudTrail.RequestLogsFeature/CloudTrailRequestLogsFeature.cs:98-102 | false when the key is unset |
| RequestLogging.CloudTrailRequestLogsFeature.EnableResponseTracking | ServiceStack.CloudTrail.RequestLogsFeature/ServiceStack.CloudTrail.RequestLogsFeature/CloudTrailRequestLogsFeature.cs:107-111 | false when the key is unset |
| RequestLogging.CloudTrailRequestLogsFeature.AwsAccessKeyId | ServiceStack.CloudTrail.RequestLogsFeature/ServiceStack.CloudTrail.RequestLogsFeature/CloudTrailRequestLogsFeature.cs:113-117 | the empty string when the key is unset |
| RequestLogging.CloudTrailRequestLogsFeature.AwsSecretAccessKey | ServiceStack.CloudTrail.RequestLogsFeature/ServiceStack.CloudTrail.RequestLogsFeature/CloudTrailRequestLogsFeature.cs:119-123 | the empty string when the key is unset |
| RequestLogging.CloudTrailRequestLogsFeature.Region | ServiceStack.CloudTrail.RequestLogsFeature/ServiceStack.CloudTrail.RequestLogsFeature/CloudTrailRequestLogsFeature.cs:125-130 | null when the key is unset |
| RequestLogging.CloudTrailRequestLogsFeature.LogGroupName | ServiceStack.CloudTrail.RequestLogsFeature/ServiceStack.CloudTrail.RequestLogsFeature/CloudTrailRequestLogsFeature.cs:132-136 | null when the key is unset |
| RequestLogging.CloudTrailRequestLogsFeature.SetEnabled | ServiceStack.CloudTrail.RequestLogsFeature/ServiceStack.CloudTrail.RequestLogsFeature/CloudTrailRequestLogsFeature.cs:73-74 | writes the key the getter reads; the getter then returns the value written |
| RequestLogging.CloudTrailRequestLogsFeature.SetEnableErrorTracking | ServiceStack.CloudTrail.RequestLogsFeature/ServiceStack.CloudTrail.RequestLogsFeature/CloudTrailRequestLogsFeature.cs:82-83 | writes the key the getter reads; the getter then returns the value written |
| RequestLogging.CloudTrailRequestLogsFeature.SetEnableRequestBodyTracking | ServiceStack.CloudTrail.RequestLogsFeature/ServiceStack.CloudTrail.RequestLogsFeature/CloudTrailRequestLogsFeature.cs:91-92 | writes the key the getter reads; the getter then returns the value written |
| RequestLogging.CloudTrailRequestLogsFeature.SetEnableSessionTracking | ServiceStack.CloudTrail.RequestLogsFeature/ServiceStack.CloudTrail.RequestLogsFeature/CloudTrailRequestLogsFeature.cs:100-101 | writes the key the getter reads; the getter then returns the value written |
| RequestLogging.CloudTrailRequestLogsFeature.SetEnableResponseTracking | ServiceStack.CloudTrail.RequestLogsFeature/ServiceStack.CloudTrail.RequestLogsFeature/CloudTrailRequestLogsFeature.cs:109-110 | writes the key the getter reads; the getter then returns the value written |
| RequestLogging.CloudTrailRequestLogsFeature.SetAwsAccessKeyId | ServiceStack.CloudTrail.RequestLogsFeature/ServiceStack.CloudTrail.RequestLogsFeature/CloudTrailRequestLogsFeature.cs:115-116 | writes the key the getter reads; the getter then returns the value written |
| RequestLogging.CloudTrailRequestLogsFeature.SetAwsSecretAccessKey | ServiceStack.CloudTrail.RequestLogsFeature/ServiceStack.CloudTrail.RequestLogsFeature/CloudTrailRequestLogsFeature.cs:121-122 | writes the key the getter reads; the getter then returns the value written |
| RequestLogging.CloudTrailRequestLogsFeature.SetRegion | ServiceStack.CloudTrail.RequestLogsFeature/ServiceStack.CloudTrail.RequestLogsFeature/CloudTrailRequestLogsFeature.cs:128-129 | writes the key the getter reads; the getter then returns the value written |
| RequestLogging.CloudTrailRequestLogsFeature.SetLogGroupName | ServiceStack.CloudTrail.RequestLogsFeature/ServiceStack.CloudTrail.RequestLogsFeature/CloudTrailRequestLogsFeature.cs:134-135 | writes the key the getter reads; the getter then returns the value written |
| RequestLogging.CloudTrailRequestLogsFeature.GetLogger | ServiceStack.CloudTrail.RequestLogsFeature/ServiceStack.CloudTrail.RequestLogsFeature/CloudTrailRequestLogsFeature.cs:158-162 | the logger that was set, else a fresh logger over this feature on every read |
| RequestLogging.CloudTrailRequestLogsFeature.SetLogger | ServiceStack.CloudTrail.RequestLogsFeature/ServiceStack.CloudTrail.RequestLogsFeature/CloudTrailRequestLogsFeature.cs:161 | the logger is stored and nothing else changes |
| RequestLogging.CloudTrailRequestLogsFeature.ValidationErrors | ServiceStack.CloudTrail.RequestLogsFeature/ServiceStack.CloudTrail.RequestLogsFeature/CloudTrailRequestLogsFeature.cs:201 | no errors iff the access key, secret and region read from the settings are non-blank and the region is known |
| RequestLogging.CloudTrailRequestLogsFeature.CopyToggles | ServiceStack.CloudTrail.RequestLogsFeature/ServiceStack.CloudTrail.RequestLogsFeature/CloudTrailRequestLogsFeature.cs:217-220 | the logger's four toggles read as this feature's did before, even when both share one settings store |
| RequestLogging.CloudTrailRequestLogsFeature.ConfigureRequestLogger | ServiceStack.CloudTrail.RequestLogsFeature/ServiceStack.CloudTrail.RequestLogsFeature/CloudTrailRequestLogsFeature.cs:214-225 | toggles, both lists and the skip filter are copied and the logger registered; a null list fails with ArgumentNull after the toggles are copied, and nothing is registered |
| RequestLogging.CloudTrailRequestLogsFeature.Register | ServiceStack.CloudTrail.RequestLogsFeature/ServiceStack.CloudTrail.RequestLogsFeature/CloudTrailRequestLogsFeature.cs:199-212 | a validation failure fails with the errors and leaves the host untouched; after validation it fails with ArgumentNull iff a list is null; any failure leaves the host's logger and filters as they were; on success the registered logger is the configured one or a fresh one bound to this feature, holding the feature's four toggles, both lists and skip filter, and the buffered-stream filter is first exactly when body tracking is on |
| RequestLogging.TogglesCopied | ServiceStack.CloudTrail.RequestLogsFeature/ServiceStack.CloudTrail.RequestLogsFeature/CloudTrailRequestLogsFeature.cs:217-220 | after the four toggle writes each toggle reads back its own value |
| RequestLogging.ToggleKeysDistinct | ServiceStack.CloudTrail.RequestLogsFeature/ServiceStack.CloudTrail.RequestLogsFeature/ConfigKeys.cs:9-15 | the four toggle keys are pairwise distinct |
| RequestLogging.AppHost.Register | ServiceStack.CloudTrail.RequestLogsFeature/ServiceStack.CloudTrail.RequestLogsFeature/CloudTrailRequestLogsFeature.cs:224 | the host's request logger becomes the given one; filters unchanged |
| RequestLogging.AppHost.InsertFirst | ServiceStack.CloudTrail.RequestLogsFeature/ServiceStack.CloudTrail.RequestLogsFeature/CloudTrailRequestLogsFeature.cs:207-210 | the filter is put at index 0 ahead of the existing ones |
| EntryBuilder.BuildEntryShape | ServiceStack.CloudTrail.RequestLogsFeature/ServiceStack.CloudTrail.RequestLogsFeature/CloudTrailRequestLogger.cs:201-306 | a built entry means a response was there, the appender returned and the headers went in; the entry is the pre-appender level and exception with the merged, header-augmented bag |
| EntryBuilder.EntryKeepsEarlierProperties | ServiceStack.CloudTrail.RequestLogsFeature/ServiceStack.CloudTrail.RequestLogsFeature/CloudTrailRequestLogger.cs:289-303 | the appender and headers never change an earlier property; every appended key is present; a new key holds its first value; every header value is recorded |
| EntryBuilder.OnlyHeadersAdded | ServiceStack.CloudTrail.RequestLogsFeature/ServiceStack.CloudTrail.RequestLogsFeature/CloudTrailRequestLogger.cs:297-303 | without an appender, a key outside `Header-` is in the entry iff a stage wrote it |
| EntryBuilder.HeaderKeyInjective | ServiceStack.CloudTrail.RequestLogsFeature/ServiceStack.CloudTrail.RequestLogsFeature/CloudTrailRequestLogger.cs:301 | distinct header names give distinct `Header-` keys |
| EntryBuilder.DistinctHeadersFit | ServiceStack.CloudTrail.RequestLogsFeature/ServiceStack.CloudTrail.RequestLogsFeature/CloudTrailRequestLogger.cs:297-303 | headers with distinct names, none of whose keys is already present, always go in |
| EntryBuilder.NoStageWritesHeaderKey | ServiceStack.CloudTrail.RequestLogsFeature/ServiceStack.CloudTrail.RequestLogsFeature/CloudTrailRequestLogger.cs:208-287 | no stage before the appender writes a `Header-` key |
| EntryBuilder.WithoutAppenderAlwaysBuilds | ServiceStack.CloudTrail.RequestLogsFeature/ServiceStack.CloudTrail.RequestLogsFeature/CloudTrailRequestLogger.cs:289-303 | with a response and no appender the build always succeeds |
| EntryBuilder.HeldValueAddsNoKey | ServiceStack.CloudTrail.RequestLogsFeature/ServiceStack.CloudTrail.RequestLogsFeature/CloudTrailRequestLogger.cs:297-303 | a header whose text an earlier property already holds adds no `Header-` key |
| EntryBuilder.StringResponseHidesMatchingHeader | ServiceStack.CloudTrail.RequestLogsFeature/ServiceStack.CloudTrail.RequestLogsFeature/CloudTrailRequestLogger.cs:255-303 | without an appender, a tracked non-error response that is a string suppresses every header carrying the same text |
| EntryBuilder.NullRequestThrows | ServiceStack.CloudTrail.RequestLogsFeature/ServiceStack.CloudTrail.RequestLogsFeature/CloudTrailRequestLogger.cs:229 | a null request, or one without a response, always fails with a null reference |
| EntryBuilder.AppenderFailureThrows | ServiceStack.CloudTrail.RequestLogsFeature/ServiceStack.CloudTrail.RequestLogsFeature/CloudTrailRequestLogger.cs:289-292 | the build fails with HookThrew iff an appender is set and throws |
| EntryBuilder.HeaderFailuresAreDuplicates | ServiceStack.CloudTrail.RequestLogsFeature/ServiceStack.CloudTrail.RequestLogsFeature/CloudTrailRequestLogger.cs:297-303 | header augmentation fails only with a duplicate-key fault |
| EntryBuilder.HeaderCollisionThrows | ServiceStack.CloudTrail.RequestLogsFeature/ServiceStack.CloudTrail.RequestLogsFeature/CloudTrailRequestLogger.cs:299-301 | a single header fails exactly when its value is recorded under no key but its `Header-` key is already taken |
| EntryBuilder.HeaderFailureAborts | ServiceStack.CloudTrail.RequestLogsFeature/ServiceStack.CloudTrail.RequestLogsFeature/CloudTrailRequestLogger.cs:297-303 | a failing header aborts augmentation with that header's fault, whatever follows it |
| EntryBuilder.HeadersDeduplicated | ServiceStack.CloudTrail.RequestLogsFeature/ServiceStack.CloudTrail.RequestLogsFeature/CloudTrailRequestLogger.cs:297-303 | earlier properties are kept; each new key is `Header-{name}` of some header and holds that header's value as text; every header value is recorded; a new key's value is held by no other key |
| EntryBuilder.MergedNeverOverwrites | ServiceStack.CloudTrail.RequestLogsFeature/ServiceStack.CloudTrail.RequestLogsFeature/CloudTrailRequestLogger.cs:289-295 | merging appended pairs never changes an existing key's value |
| EntryBuilder.MergedKeys | ServiceStack.CloudTrail.RequestLogsFeature/ServiceStack.CloudTrail.RequestLogsFeature/CloudTrailRequestLogger.cs:289-295 | the merged keys are exactly the old keys plus the appended ones |
| EntryBuilder.MergedFirstWins | ServiceStack.CloudTrail.RequestLogsFeature/ServiceStack.CloudTrail.RequestLogsFeature/CloudTrailRequestLogger.cs:289-295 | a new key takes the value of its first occurrence among the pairs |
| EntryBuilder.EveryEntryHasFixedProperties | ServiceStack.CloudTrail.RequestLogsFeature/ServiceStack.CloudTrail.RequestLogsFeature/CloudTrailRequestLogger.cs:203-222 | every entry has the timestamp, the HTTP template, the five fixed properties with their values, and Session (null unless tracked) |
| EntryBuilder.RequestCountsDistinct | ServiceStack.CloudTrail.RequestLogsFeature/ServiceStack.CloudTrail.RequestLogsFeature/CloudTrailRequestLogger.cs:211 | entries built with different counter values have different RequestCount texts |
| EntryBuilder.BodyGate | ServiceStack.CloudTrail.RequestLogsFeature/ServiceStack.CloudTrail.RequestLogsFeature/CloudTrailRequestLogger.cs:236-251 | RequestDto iff the hide list is non-null, the DTO is non-null and its type is not listed; FormData also needs an open response; RequestBody also needs body tracking (iff, without an appender) |
| EntryBuilder.OpenResponseGate | ServiceStack.CloudTrail.RequestLogsFeature/ServiceStack.CloudTrail.RequestLogsFeature/CloudTrailRequestLogger.cs:229-234 | UserAuthId and SessionId are recorded iff the response is open (without an appender) |
| EntryBuilder.ResponseTracking | ServiceStack.CloudTrail.RequestLogsFeature/ServiceStack.CloudTrail.RequestLogsFeature/CloudTrailRequestLogger.cs:253-259 | a non-error response is recorded as ResponseDto iff response tracking is on (without an appender) |
| EntryBuilder.LevelClassification | ServiceStack.CloudTrail.RequestLogsFeature/ServiceStack.CloudTrail.RequestLogsFeature/CloudTrailRequestLogger.cs:260-271 | Warning iff a tracked HTTP error with status in [400, 500); Error iff a tracked HTTP error with another status; Debug otherwise; StatusCode then holds the error's code |
| EntryBuilder.ExceptionPrefersInner | ServiceStack.CloudTrail.RequestLogsFeature/ServiceStack.CloudTrail.RequestLogsFeature/CloudTrailRequestLogger.cs:273-285 | no exception text unless a tracked exception; then the inner exception's text (with its source and data) when there is one, else the outer's |
| EntryBuilder.LevelOf | ServiceStack.CloudTrail.RequestLogsFeature/ServiceStack.CloudTrail.RequestLogsFeature/CloudTrailRequestLogger.cs:262-267 | the three level cases of the response stage, each as an iff |
| EntryBuilder.ExceptionOf | ServiceStack.CloudTrail.RequestLogsFeature/ServiceStack.CloudTrail.RequestLogsFeature/CloudTrailRequestLogger.cs:273-285 | an exception text exists iff the exception is tracked, and prefers the inner one |
| EntryBuilder.BodyStage | ServiceStack.CloudTrail.RequestLogsFeature/ServiceStack.CloudTrail.RequestLogsFeature/CloudTrailRequestLogger.cs:236-251 | which body keys the stage writes, each as an iff, and their values |
| EntryBuilder.ResponseStage | ServiceStack.CloudTrail.RequestLogsFeature/ServiceStack.CloudTrail.RequestLogsFeature/CloudTrailRequestLogger.cs:253-287 | ResponseDto iff tracked; a tracked HTTP error's StatusCode; a tracked inner exception's source and data |
| RemoteLogs.GroupsWithPrefix | ServiceStack.CloudTrail.RequestLogsFeature/ServiceStack.CloudTrail.RequestLogsFeature/CloudTrailRequestLogger.cs:49 | exactly the groups whose names start with the prefix |
| RemoteLogs.StreamsOf | ServiceStack.CloudTrail.RequestLogsFeature/ServiceStack.CloudTrail.RequestLogsFeature/CloudTrailRequestLogger.cs:56 | a group's stream names; none for a missing group |
| RemoteLogs.Provision | ServiceStack.CloudTrail.RequestLogsFeature/ServiceStack.CloudTrail.RequestLogsFeature/CloudTrailRequestLogger.cs:42-66 | from an uninitialised logger, the group and the stream exist afterwards |
| RemoteLogs.GroupReady | ServiceStack.CloudTrail.RequestLogsFeature/ServiceStack.CloudTrail.RequestLogsFeature/CloudTrailRequestLogger.cs:49-56 | the group exists afterwards; every existing group keeps its streams; the only new group is this one |
| RemoteLogs.Setup | ServiceStack.CloudTrail.RequestLogsFeature/ServiceStack.CloudTrail.RequestLogsFeature/CloudTrailRequestLogger.cs:42-66 | with `envInit` set nothing changes; a null group name only lists every group; a null stream name leaves the flag clear and the group present; with both names the group and stream exist |
| RemoteLogs.Put | ServiceStack.CloudTrail.RequestLogsFeature/ServiceStack.CloudTrail.RequestLogsFeature/CloudTrailRequestLogger.cs:72-84 | one PutLogEvents call is recorded and no group is created |
| RemoteLogs.InitialisedReturnsImmediately | ServiceStack.CloudTrail.RequestLogsFeature/ServiceStack.CloudTrail.RequestLogsFeature/CloudTrailRequestLogger.cs:44-47 | with `envInit` set, provisioning makes no call and changes nothing |
| RemoteLogs.ProvisionCalls | ServiceStack.CloudTrail.RequestLogsFeature/ServiceStack.CloudTrail.RequestLogsFeature/CloudTrailRequestLogger.cs:49-63 | the exact calls: list groups, create the group iff absent, list streams, create the stream iff absent |
| RemoteLogs.FlagSetOnlyByStreamCreation | ServiceStack.CloudTrail.RequestLogsFeature/ServiceStack.CloudTrail.RequestLogsFeature/CloudTrailRequestLogger.cs:58-65 | `envInit` ends up set iff the stream was absent |
| RemoteLogs.ExistingStreamListsAgain | ServiceStack.CloudTrail.RequestLogsFeature/ServiceStack.CloudTrail.RequestLogsFeature/CloudTrailRequestLogger.cs:58-61 | with the stream already there, each provisioning only lists, never sets the flag, and the next one lists again |
| RemoteLogs.ProvisionOnlyAdds | ServiceStack.CloudTrail.RequestLogsFeature/ServiceStack.CloudTrail.RequestLogsFeature/CloudTrailRequestLogger.cs:42-66 | every existing group, stream and event survives provisioning unchanged |
| RemoteLogs.ProvisionIdempotent | ServiceStack.CloudTrail.RequestLogsFeature/ServiceStack.CloudTrail.RequestLogsFeature/CloudTrailRequestLogger.cs:42-66 | provisioning twice leaves the groups and streams as provisioning once did |
| RemoteLogs.DeliveryAppends | ServiceStack.CloudTrail.RequestLogsFeature/ServiceStack.CloudTrail.RequestLogsFeature/CloudTrailRequestLogger.cs:68-85 | a delivery from an uninitialised logger appends the event after the stream's earlier events |
| RemoteLogs.MissingStreamStopsAtGroup | ServiceStack.CloudTrail.RequestLogsFeature/ServiceStack.CloudTrail.RequestLogsFeature/CloudTrailRequestLogger.cs:49-63 | with a null stream name the flag stays clear and the calls are exactly list groups, create the group iff absent, list streams, a prefix of provisioning's; when the stream exists the two agree |
| RemoteLogs.MissingGroupListsEveryGroup | ServiceStack.CloudTrail.RequestLogsFeature/ServiceStack.CloudTrail.RequestLogsFeature/CloudTrailRequestLogger.cs:49-53 | with a null group name the empty prefix lists every group and no group or stream changes |
| RemoteLogs.NoEventWithoutBothNames | ServiceStack.CloudTrail.RequestLogsFeature/ServiceStack.CloudTrail.RequestLogsFeature/CloudTrailRequestLogger.cs:68-85 | without both names the flag is unchanged and every existing stream keeps exactly its events |
| RemoteLogs.CloudWatchLogsClient.DescribeLogGroupsAsync | ServiceStack.CloudTrail.RequestLogsFeature/ServiceStack.CloudTrail.RequestLogsFeature/CloudTrailRequestLogger.cs:49 | returns the groups with the prefix and records the call |
| RemoteLogs.CloudWatchLogsClient.CreateLogGroupAsync | ServiceStack.CloudTrail.RequestLogsFeature/ServiceStack.CloudTrail.RequestLogsFeature/CloudTrailRequestLogger.cs:53 | the group exists, empty, and the call is recorded |
| RemoteLogs.CloudWatchLogsClient.DescribeLogStreamsAsync | ServiceStack.CloudTrail.RequestLogsFeature/ServiceStack.CloudTrail.RequestLogsFeature/CloudTrailRequestLogger.cs:56 | returns the group's streams and records the call |
| RemoteLogs.CloudWatchLogsClient.CreateLogStreamAsync | ServiceStack.CloudTrail.RequestLogsFeature/ServiceStack.CloudTrail.RequestLogsFeature/CloudTrailRequestLogger.cs:63 | the stream exists, empty, and the call is recorded |
| RemoteLogs.CloudWatchLogsClient.PutLogEventsAsync | ServiceStack.CloudTrail.RequestLogsFeature/ServiceStack.CloudTrail.RequestLogsFeature/CloudTrailRequestLogger.cs:72-84 | the service state becomes `Put`'s |
| RequestIds.Incremented | ServiceStack.CloudTrail.RequestLogsFeature/ServiceStack.CloudTrail.RequestLogsFeature/CloudTrailRequestLogger.cs:211 | one more, except that the largest 32-bit value wraps to the smallest |
| RequestIds.CountsAscend | ServiceStack.CloudTrail.RequestLogsFeature/ServiceStack.CloudTrail.RequestLogsFeature/CloudTrailRequestLogger.cs:211 | without wrap-around, n successive increments from x hand out x+1 .. x+n, strictly increasing |
| RequestIds.RequestIdCounter.Increment | ServiceStack.CloudTrail.RequestLogsFeature/ServiceStack.CloudTrail.RequestLogsFeature/CloudTrailRequestLogger.cs:211 | the counter moves to `Incremented` of its value, which is returned |
| RequestLogEntry.CloudTrailRequestLogEntry.constructor | ServiceStack.CloudTrail.RequestLogsFeature/ServiceStack.CloudTrail.RequestLogsFeature/CloudTrailRequestLogEntry.cs:13-18 | template "Servicestack CloudTrailRequestLogsFeature", level Debug, empty fresh properties, no timestamp, no exception |
| RequestLogEntry.CloudTrailRequestLogEntry.PropertyOrder | ServiceStack.CloudTrail.RequestLogsFeature/ServiceStack.CloudTrail.RequestLogsFeature/CloudTrailRequestLogEntry.cs:24 | the properties enumerate each key exactly once |
| Collections.SortedDictionary.Keys | ServiceStack.CloudTrail.RequestLogsFeature/ServiceStack.CloudTrail.RequestLogsFeature/CloudTrailRequestLogEntry.cs:24 | keys enumerate in strictly ascending ordinal order, exactly the keys present |
| Collections.SortedDictionary.Add | ServiceStack.CloudTrail.RequestLogsFeature/ServiceStack.CloudTrail.RequestLogsFeature/CloudTrailRequestLogger.cs:208 | succeeds iff the key is absent, adding it; otherwise nothing changes |
| Collections.SortedDictionary.Set | ServiceStack.CloudTrail.RequestLogsFeature/ServiceStack.CloudTrail.RequestLogsFeature/CloudTrailRequestLogger.cs:268 | the indexer inserts or overwrites |
| Collections.SortedDictionary.TryGetValue | ServiceStack.CloudTrail.RequestLogsFeature/ServiceStack.CloudTrail.RequestLogsFeature/DictionaryExtensions.cs:12 | finds a value iff the key is present, and it is the stored one |
| Collections.SortedDictionary.ContainsValue | ServiceStack.CloudTrail.RequestLogsFeature/ServiceStack.CloudTrail.RequestLogsFeature/CloudTrailRequestLogger.cs:299 | true iff some key maps to the value |
| Collections.Dictionary.Remove | ServiceStack.CloudTrail.RequestLogsFeature/ServiceStack.CloudTrail.RequestLogsFeature/LogExtensions.cs:9 | the key is gone, and the result says whether it was there |
| DictionaryExtensions.GetOrAdded | ServiceStack.CloudTrail.RequestLogsFeature/ServiceStack.CloudTrail.RequestLogsFeature/DictionaryExtensions.cs:8-18 | afterwards the key maps to the returned value; the keys are the old ones plus the key; other entries are unchanged; an absent key gets `createFn(key)` |
| DictionaryExtensions.GetOrAdd | ServiceStack.CloudTrail.RequestLogsFeature/ServiceStack.CloudTrail.RequestLogsFeature/DictionaryExtensions.cs:8-18 | a present key returns its value and leaves the map; an absent key stores and returns `createFn(key)` |
| DictionaryExtensions.PresentKeyIgnoresCreateFn | ServiceStack.CloudTrail.RequestLogsFeature/ServiceStack.CloudTrail.RequestLogsFeature/DictionaryExtensions.cs:12-17 | with the key present the outcome does not depend on `createFn` |
| DictionaryExtensions.RepeatedCallReturnsFirstValue | ServiceStack.CloudTrail.RequestLogsFeature/ServiceStack.CloudTrail.RequestLogsFeature/DictionaryExtensions.cs:12-17 | a second call with the same key returns the first value and changes nothing |
| LogExtensions.WithoutReserved | ServiceStack.CloudTrail.RequestLogsFeature/ServiceStack.CloudTrail.RequestLogsFeature/LogExtensions.cs:7-12 | none of the three reserved keys remain; every other key keeps its value; no key is added |
| LogExtensions.WithoutDuplicates | ServiceStack.CloudTrail.RequestLogsFeature/ServiceStack.CloudTrail.RequestLogsFeature/LogExtensions.cs:7-12 | the caller's own dictionary is stripped in place and returned |
| LogExtensions.WithoutReservedIdempotent | ServiceStack.CloudTrail.RequestLogsFeature/ServiceStack.CloudTrail.RequestLogsFeature/LogExtensions.cs:9-11 | stripping twice is stripping once |
| LogExtensions.NoReservedKeysNoChange | ServiceStack.CloudTrail.RequestLogsFeature/ServiceStack.CloudTrail.RequestLogsFeature/LogExtensions.cs:9-11 | a bag without reserved keys is unchanged |
| ConfigKeys.AllKeysSharePrefix | ServiceStack.CloudTrail.RequestLogsFeature/ServiceStack.CloudTrail.RequestLogsFeature/ConfigKeys.cs:5-25 | every key starts with "servicestack.cloudtrail.requestlogs." |
| ConfigKeys.AllKeysDistinct | ServiceStack.CloudTrail.RequestLogsFeature/ServiceStack.CloudTrail.RequestLogsFeature/ConfigKeys.cs:7-25 | all ten keys are pairwise distinct |
| ConfigKeys.AwsKeysShareSubPrefix | ServiceStack.CloudTrail.RequestLogsFeature/ServiceStack.CloudTrail.RequestLogsFeature/ConfigKeys.cs:19-23 | the access-key, secret and region keys share the "aws." sub-prefix |
| ConfigValidator.Validate | ServiceStack.CloudTrail.RequestLogsFeature/ServiceStack.CloudTrail.RequestLogsFeature/Validators/ConfigValidator.cs:11-25 | at most four messages; the access-key, secret, empty-region and unknown-region messages are each reported iff that check fails |
| ConfigValidator.ValidIffAllRulesPass | ServiceStack.CloudTrail.RequestLogsFeature/ServiceStack.CloudTrail.RequestLogsFeature/Validators/ConfigValidator.cs:11-25 | no errors iff all three rules pass; nothing else is consulted |
| ConfigValidator.EmptyAccessKeyRejected | ServiceStack.CloudTrail.RequestLogsFeature/ServiceStack.CloudTrail.RequestLogsFeature/Validators/ConfigValidator.cs:13-15 | an access key that is empty or made only of white space (any character `char.IsWhiteSpace` accepts) is the first error, "Aws access key id is required." |
| ConfigValidator.UnicodeBlankAccessKeyRejected | ServiceStack.CloudTrail.RequestLogsFeature/ServiceStack.CloudTrail.RequestLogsFeature/Validators/ConfigValidator.cs:13-15 | a no-break space, or an ideographic space followed by an em space, counts as a blank access key |
| ConfigValidator.EmptyRegionRejected | ServiceStack.CloudTrail.RequestLogsFeature/ServiceStack.CloudTrail.RequestLogsFeature/Validators/ConfigValidator.cs:21-22 | a null or empty region fails even when the lookup accepts it |
| Settings.GetFlag | ServiceStack.CloudTrail.RequestLogsFeature/ServiceStack.CloudTrail.RequestLogsFeature/CloudTrailRequestLogsFeature.cs:73 | the default when the key is unset |
| Settings.GetText | ServiceStack.CloudTrail.RequestLogsFeature/ServiceStack.CloudTrail.RequestLogsFeature/CloudTrailRequestLogsFeature.cs:115 | the default when the key is unset |
| Settings.GetString | ServiceStack.CloudTrail.RequestLogsFeature/ServiceStack.CloudTrail.RequestLogsFeature/CloudTrailRequestLogsFeature.cs:128 | null when the key is unset |
| Settings.AppSettings.Set | ServiceStack.CloudTrail.RequestLogsFeature/ServiceStack.CloudTrail.RequestLogsFeature/CloudTrailRequestLogsFeature.cs:74 | stores the value under the key |
| Settings.FlagRoundTrip | ServiceStack.CloudTrail.RequestLogsFeature/ServiceStack.CloudTrail.RequestLogsFeature/CloudTrailRequestLogsFeature.cs:73-74 | a flag read back under its key is the value written |
| Settings.TextRoundTrip | ServiceStack.CloudTrail.RequestLogsFeature/ServiceStack.CloudTrail.RequestLogsFeature/CloudTrailRequestLogsFeature.cs:128-129 | text read back under its key is the value written |
| Settings.WriteIsolated | ServiceStack.CloudTrail.RequestLogsFeature/ServiceStack.CloudTrail.RequestLogsFeature/CloudTrailRequestLogsFeature.cs:71-136 | a write to one key leaves every other key's reading unchanged |
| Text.SortedKeys | ServiceStack.CloudTrail.RequestLogsFeature/ServiceStack.CloudTrail.RequestLogsFeature/CloudTrailRequestLogEntry.cs:24 | the keys of a set in strictly ascending order, each once |
| Text.SortedKeysDistinct | ServiceStack.CloudTrail.RequestLogsFeature/ServiceStack.CloudTrail.RequestLogsFeature/CloudTrailRequestLogEntry.cs:24 | the sorted enumeration never lists a key twice |
| Text.BelowIrreflexive | ServiceStack.CloudTrail.RequestLogsFeature/ServiceStack.CloudTrail.RequestLogsFeature/CloudTrailRequestLogEntry.cs:24 | no key sorts before itself |
| Text.BelowTransitive | ServiceStack.CloudTrail.RequestLogsFeature/ServiceStack.CloudTrail.RequestLogsFeature/CloudTrailRequestLogEntry.cs:24 | the key order is transitive |
| Text.BelowTotal | ServiceStack.CloudTrail.RequestLogsFeature/ServiceStack.CloudTrail.RequestLogsFeature/CloudTrailRequestLogEntry.cs:24 | any two different keys are ordered |
| Text.LeastExists | ServiceStack.CloudTrail.RequestLogsFeature/ServiceStack.CloudTrail.RequestLogsFeature/CloudTrailRequestLogEntry.cs:24 | a non-empty key set has a least key |
| Text.NatToString | ServiceStack.CloudTrail.RequestLogsFeature/ServiceStack.CloudTrail.RequestLogsFeature/CloudTrailRequestLogger.cs:211 | a non-empty string of decimal digits |
| Text.NatRoundTrip | ServiceStack.CloudTrail.RequestLogsFeature/ServiceStack.CloudTrail.RequestLogsFeature/CloudTrailRequestLogger.cs:211 | parsing the digits of n gives n back |
| Text.IntRoundTrip | ServiceStack.CloudTrail.RequestLogsFeature/ServiceStack.CloudTrail.RequestLogsFeature/CloudTrailRequestLogger.cs:211 | parsing the text of an integer, sign included, gives it back |
| Text.IntToStringInjective | ServiceStack.CloudTrail.RequestLogsFeature/ServiceStack.CloudTrail.RequestLogsFeature/CloudTrailRequestLogger.cs:211 | different integers have different texts |
| Host.HeaderValue | ServiceStack.CloudTrail.RequestLogsFeature/ServiceStack.CloudTrail.RequestLogsFeature/CloudTrailRequestLogger.cs:220-221 | a found value belongs to a header of that name; null means no header has the name |
| Host.TypeOf | ServiceStack.CloudTrail.RequestLogsFeature/ServiceStack.CloudTrail.RequestLogsFeature/CloudTrailRequestLogger.cs:179 | a type exactly when the DTO is non-null |

## Left out

- AWS SDK calls are modelled as a state of groups, streams, events and a call history. The SDK's pagination of listings, throttling, network and authorisation errors, and its request validation are not modelled.
- RequestLogging.CloudTrailRequestLogger.SetupCloudTrailEnv: the call the service rejects for a null name (CreateLogGroup with a null group, CreateLogStream with a null stream) is not recorded and has no effect; the model ends setup there. The exception it raises is not modelled.
- RequestLogging.CloudTrailRequestLogger.BufferedLogEntries: with a null log group or stream name setup ends at the rejected call and no event is put. The exception that then escapes the `async void` method is re-raised as an unhandled exception on the captured synchronisation context or the thread pool, where by default it ends the process; the model does not capture this, nor any other failure of delivery. With the default null stream name this happens on every delivery.
- Concurrency is not modelled: the `async void` fire-and-forget delivery, the atomicity of `Interlocked.Increment`, the `lock` in `GetOrAdd`, and the unsynchronised `envInit` race. Everything runs sequentially in call order, so the delivery completes inside `Log`.
- Floating point and the clock are not modelled. `TotalMilliseconds` is a `real`, `DateTime.UtcNow` is a timestamp parameter, and the event time is a `nat` parameter.
- `ToJson` serialisation of the entry: the shipped event carries the entry record itself.
- The .NET default string comparer of `SortedDictionary` is culture-sensitive. The model orders keys ordinally.
- Request headers are an ordered list of name/value pairs whose names are distinct, as the dictionary the logger builds from them requires. Case-insensitive header lookup and the joining of repeated header values are not modelled.
- The host accessors (`GetSession`, `GetSessionId`, `GetItemOrCookie`, `GetRawBody`, `FormData`, `IsErrorResponse`, `GetResponseStatus`, `ServiceName`) are fields of the request and response inputs.
- Hooks (raw-event logger, skip filter, appender) are pure functions that return or throw. Their side effects are outside the model.
- The diagnostic error log written in `Log`'s catch, and the debug logging of the feature constructors, are I/O.
- `RequiredRoles` and the members the logger declares but never consults (the two tracking filters, `ExcludeResponseTypes`, `LimitToServiceRequests`, `RequestLogFilter`, `IgnoreFilter`, `CurrentDateFn`, and the logger's own `SkipLogging` beyond being set) carry no behaviour.
- The feature constructor's null check on the settings argument, and its fallback to the host's settings, are not modelled: a settings object is always given.
- The region lookup in the logger constructor, and the client it configures from the keys and region, are not modelled. The logger uses the feature's client.
- FluentValidation's rule engine: only the three rules' outcomes are modelled, with the region lookup as a predicate parameter.
- RequestLogging.CloudTrailRequestLogsFeature.SetLogger: only loggers of this model's logger class can be set. A custom `IRequestLogger` is not modelled.
- RequestLogging.CloudTrailRequestLogsFeature.CopyToggles reads the four toggles before writing any, where the source interleaves reads and writes. The four writes go to four different keys, so the values read are the same.
- RequestLogging.CloudTrailRequestLogger.CreateEntry and RequestLogging.CloudTrailRequestLogger.Log state the built entry against the settings as they were when the call began.
