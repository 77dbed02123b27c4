/**
  What the host web framework hands the logger, reduced to the values the
  logger reads: the request, the request DTO, the response object, and the
  values a log property can hold.
*/
module Host {
  import opened Wrappers
  import Collections

  /** An object the model does not look inside (a DTO, a session, a form-data copy). */
  datatype ObjRef = ObjRef(id: nat)

  /** The runtime type of a request DTO, as compared by the type lists. */
  datatype TypeId = TypeId(name: string)

  const RequestLogsType := TypeId("RequestLogs")
  const AuthenticateType := TypeId("Authenticate")
  const RegisterType := TypeId("Register")

  /**
    A non-null object the logger records: a string by its text, anything
    else by reference. `object.Equals` compares a string with a header value
    by text, so a string object can match one.
  */
  datatype Obj = Text(s: string) | Other(ref: ObjRef)

  /** The object as a property value. */
  function Boxed(o: Obj): Value {
    match o
    case Text(s) => Str(s)
    case Other(r) => Ref(r)
  }

  /** A non-null request DTO: the object and its runtime type. */
  datatype Dto = Dto(obj: Obj, typ: TypeId)

  /** `requestDto?.GetType()`. */
  function TypeOf(dto: Option<Dto>): (t: Option<TypeId>)
    ensures t.Some? <==> dto.Some?
  {
    if dto.Some? then Some(dto.value.typ) else None
  }

  /**
    A log property value. Strings, boxed integers and the elapsed time are
    compared by value; objects by reference, as `ContainsValue` compares them.
  */
  datatype Value =
    | Null
    | Str(s: string)
    | Int(i: int)
    | Millis(ms: real)
    | Ref(obj: ObjRef)
    | Items(bag: Collections.Dictionary<Value>)

  function Nullable(s: Option<string>): (v: Value)
    ensures v == Null <==> s.None?
  {
    if s.Some? then Str(s.value) else Null
  }

  function NullableRef(o: Option<ObjRef>): (v: Value)
    ensures v == Null <==> o.None?
  {
    if o.Some? then Ref(o.value) else Null
  }

  /** `request.Response`: the HTTP response being written. */
  datatype HttpResponse = HttpResponse(
    statusCode: int,
    statusDescription: Option<string>,
    responseStatus: Option<ObjRef>,
    isClosed: bool)

  /** No header name occurs twice. */
  predicate DistinctNames(headers: seq<(string, string)>) {
    forall i, j :: 0 <= i < j < |headers| ==> headers[i].0 != headers[j].0
  }

  /**
    The request headers as the logger walks them, `Headers.ToDictionary()`:
    name/value pairs whose names are distinct.
  */
  type Headers = h: seq<(string, string)> | DistinctNames(h)

  /** The request accessors the logger calls, each as a field. */
  datatype Request = Request(
    verb: string,
    absoluteUri: string,
    pathInfo: string,
    userHostAddress: Option<string>,
    headers: Headers,
    items: Collections.Dictionary<Value>,
    session: Option<ObjRef>,
    userAuthId: Option<string>,
    sessionId: Option<string>,
    formData: ObjRef,
    rawBody: Option<string>,
    response: Option<HttpResponse>)

  const XForwardedFor := "X-Forwarded-For"
  const RefererHeader := "Referer"

  /** `Headers[name]`: the value of the first header with that name, or null. */
  function HeaderValue(headers: seq<(string, string)>, name: string): (v: Option<string>)
    ensures v.Some? ==> exists i :: 0 <= i < |headers| && headers[i] == (name, v.value)
    ensures v.None? ==> forall i :: 0 <= i < |headers| ==> headers[i].0 != name
  {
    if |headers| == 0 then None
    else if headers[0].0 == name then Some(headers[0].1)
    else
      var v := HeaderValue(headers[1..], name);
      assert v.Some? ==> headers[1..][0] == headers[1];
      v
  }

  /** What an `IHttpError` response exposes. */
  datatype HttpErrorView = HttpErrorView(
    statusCode: int,
    errorCode: Option<string>,
    message: Option<string>,
    stackTrace: Option<string>)

  datatype InnerExceptionView = InnerExceptionView(text: string, source: Option<string>, data: ObjRef)

  /** What an `Exception` response exposes; `text` is its `ToString()`. */
  datatype ExceptionView = ExceptionView(text: string, inner: Option<InnerExceptionView>)

  /**
    A non-null response object: the object, the host's `IsErrorResponse()`
    verdict, and its views as `IHttpError` and as `Exception` when it is one
    (an HTTP error is both).
  */
  datatype Response = Response(
    obj: Obj,
    isErrorResponse: bool,
    httpError: Option<HttpErrorView>,
    exception: Option<ExceptionView>)

  function IsErrorResponse(response: Option<Response>): bool {
    response.Some? && response.value.isErrorResponse
  }

  /** Why a call into the logging path threw. */
  datatype Fault =
    | NullReference
    | DuplicateKey(key: string)
    | HookThrew
    | ArgumentNull
    | NotSupported(message: string)
    | ValidationFailed(errors: seq<string>)

  /** The raw-event delegate: it runs for its effects, which are outside the model. */
  type RawLogEvent = (Option<Request>, Option<Dto>, Option<Response>, real) -> Invocation<()>

  /** The skip predicate: true means do not log this request. */
  type SkipFilter = Option<Request> -> Invocation<bool>

  /** The property appender; a null dictionary is returned as None. */
  type PropertyAppender =
    (Option<Request>, Option<Dto>, Option<Response>, real) -> Invocation<Option<seq<(string, Value)>>>
}
