/**
 What the exception-handling middleware decides for a failed request, as
 values: the failure kinds it distinguishes, the diagnostic dictionaries it
 builds in development, the decision (HTTP status, "Clw" status, message,
 message object) it derives, the ApiResult envelope it writes, and the
 request id it puts in that envelope.

 JSON serialisation is not modelled: a value that the source serialises is
 kept as the structure it serialises.
 */
module Translation {
  import opened Wrappers
  import Guids

  /** `HttpStatusCode` is an enum over `int`; `(int)` casts are the identity. */
  type Int32 = x: int | -0x8000_0000 <= x < 0x8000_0000
  /** The "Clw" status is a C# `long`. */
  type Int64 = x: int | -0x8000_0000_0000_0000 <= x < 0x8000_0000_0000_0000

  /** The initial value of both `message` and `messageObject`. */
  const DEFAULT_MESSAGE: string := "Error Occurred!!!"
  /** `HttpStatusCode.InternalServerError`. */
  const INTERNAL_SERVER_ERROR: Int32 := 500
  /** `HttpStatusCode.Unauthorized`. */
  const UNAUTHORIZED: Int32 := 401
  /** The "Clw" status the middleware starts with and uses for both authorization kinds. */
  const DEFAULT_CLW_STATUS: Int64 := 500
  const JSON_CONTENT_TYPE: string := "application/json"
  /** Message of the InvalidOperationException the write guard throws. */
  const RESPONSE_STARTED_MESSAGE: string :=
    "The response has already started, the http status code middleware will not be executed."

  /** The fields of an `AppException` that the middleware reads.
      `additionalData` is the JSON text `JsonConvert.SerializeObject` gives
      for `AdditionalData`, or None when that property is null. */
  datatype AppError = AppError(
    httpStatusCode: Int32,
    clwStatusCode: Int64,
    message: string,
    stackTrace: string,
    additionalData: Option<string>)

  /** The exception `_next` raised, by the catch clause that takes it; the
      clauses are tried in order, so each variant is the first one to match.
      `Generic` is every other exception; `innerApp` is its InnerException
      when that is an `AppException`, and None otherwise. */
  datatype Failure =
    | App(error: AppError)
    | TokenExpired(message: string, stackTrace: string, expires: string)
    | UnauthorizedAccess(message: string, stackTrace: string)
    | Generic(message: string, stackTrace: string, innerApp: Option<AppError>)
  {
    /** `SecurityTokenExpiredException` or `UnauthorizedAccessException`. */
    predicate IsAuthorization() {
      TokenExpired? || UnauthorizedAccess?
    }

    /** `Exception.Message`. */
    function Message(): string {
      if App? then error.message else message
    }

    /** `Exception.StackTrace`. */
    function StackTrace(): string {
      if App? then error.stackTrace else stackTrace
    }
  }

  /** A value of a `Dictionary<string, object>`: an exception object or a string. */
  datatype Value = ExceptionValue(exception: Failure) | StringValue(text: string)

  /** A C# dictionary as its entries in insertion order (the order the
      serialiser writes them in). */
  type Dictionary<V> = seq<(string, V)>

  predicate HasKey<V>(d: Dictionary<V>, key: string) {
    exists i :: 0 <= i < |d| && d[i].0 == key
  }

  predicate DistinctKeys<V>(d: Dictionary<V>) {
    forall i, j :: 0 <= i < j < |d| ==> d[i].0 != d[j].0
  }

  /** `Dictionary.Add`, which throws on a key already present; requiring a
      new key states that the calls below never throw. */
  function Add<V>(d: Dictionary<V>, key: string, value: V): (r: Dictionary<V>)
    requires !HasKey(d, key)
    ensures DistinctKeys(d) ==> DistinctKeys(r)
    ensures forall k :: HasKey(r, k) <==> HasKey(d, k) || k == key
    ensures |r| == |d| + 1 && r[..|d|] == d && r[|d|] == (key, value)
  {
    var r := d + [(key, value)];
    assert forall k :: HasKey(r, k) <==> HasKey(d, k) || k == key by {
      forall k ensures HasKey(r, k) <==> HasKey(d, k) || k == key {
        if HasKey(r, k) {
          var i :| 0 <= i < |r| && r[i].0 == k;
          if i < |d| { assert d[i].0 == k; }
        }
        if HasKey(d, k) {
          var i :| 0 <= i < |d| && d[i].0 == k;
          assert r[i].0 == k;
        }
        assert r[|d|].0 == key;
      }
    }
    r
  }

  /** The development dictionary built at the catch clauses for
      `AppException` and `Exception`: the exception object and its stack trace. */
  function ExceptionDictionary(exception: Failure, stackTrace: string): (d: Dictionary<Value>)
    ensures d == [("Exception", ExceptionValue(exception)), ("StackTrace", StringValue(stackTrace))]
    ensures DistinctKeys(d)
    ensures HasKey(d, "Exception") && HasKey(d, "StackTrace")
    ensures !HasKey(d, "AdditionalData")
  {
    var d := [("Exception", ExceptionValue(exception)), ("StackTrace", StringValue(stackTrace))];
    assert d[0].0 == "Exception" && d[1].0 == "StackTrace";
    d
  }

  /** The development dictionary for an `AppException`: the exception
      dictionary, with the serialised additional data added when there is any. */
  function AppDiagnostics(e: AppError): (d: Dictionary<Value>)
    ensures |d| == if e.additionalData.Some? then 3 else 2
    ensures DistinctKeys(d)
    ensures d[..2] == ExceptionDictionary(App(e), e.stackTrace)
    ensures HasKey(d, "AdditionalData") <==> e.additionalData.Some?
    ensures e.additionalData.Some? ==> d[2] == ("AdditionalData", StringValue(e.additionalData.value))
  {
    var dic := ExceptionDictionary(App(e), e.stackTrace);
    if e.additionalData.Some? then Add(dic, "AdditionalData", StringValue(e.additionalData.value))
    else dic
  }

  /** The `Dictionary<string, string>` built in `SetUnAuthorizeResponse`:
      the exception's message and stack trace, and its expiry when the
      exception is a `SecurityTokenExpiredException`. */
  function AuthorizationDictionary(exception: Failure): (d: Dictionary<string>)
    ensures |d| == if exception.TokenExpired? then 3 else 2
    ensures DistinctKeys(d)
    ensures d[..2] == [("Exception", exception.Message()), ("StackTrace", exception.StackTrace())]
    ensures HasKey(d, "Exception") && HasKey(d, "StackTrace")
    ensures HasKey(d, "Expires") <==> exception.TokenExpired?
    ensures exception.TokenExpired? ==> d[2] == ("Expires", exception.expires)
  {
    var dic := [("Exception", exception.Message()), ("StackTrace", exception.StackTrace())];
    assert !HasKey(dic, "Expires") by { assert dic[0].0 != "Expires" && dic[1].0 != "Expires"; }
    assert HasKey(dic, "Exception") && HasKey(dic, "StackTrace") by {
      assert dic[0].0 == "Exception" && dic[1].0 == "StackTrace";
    }
    if exception.TokenExpired? then Add(dic, "Expires", exception.expires) else dic
  }

  /** The `string message` of the envelope: plain text, or the JSON text of a
      string dictionary, kept as that dictionary. */
  datatype Message = Plain(text: string) | SerializedDictionary(entries: Dictionary<string>)

  /** The `object messageObject`: the default string or a diagnostic dictionary. */
  datatype MessageObject = Text(text: string) | DictionaryObject(entries: Dictionary<Value>)

  /** The four locals that the catch clauses assign and the writers read. */
  datatype Decision = Decision(
    httpStatusCode: Int32,
    clwStatusCode: Int64,
    message: Message,
    messageObject: MessageObject)

  /** The `ApiResult` written in production and the `ApiResult<object>`
      written in development, whose `data` is the message object. */
  datatype Envelope =
    | Production(statusCode: Int32, clwStatusCode: Int64, requestId: string, message: Message)
    | Development(statusCode: Int32, clwStatusCode: Int64, requestId: string, data: MessageObject, message: Message)

  /** The diagnostic message object, which only development builds. */
  function DevelopmentOnly(isDevelopment: bool, diagnostics: Dictionary<Value>): MessageObject {
    if isDevelopment then DictionaryObject(diagnostics) else Text(DEFAULT_MESSAGE)
  }

  /** The decision for each kind of failure, as a table: the reference the
      middleware's assignments to its locals are proved against. */
  function Decide(exception: Failure, isDevelopment: bool): (d: Decision)
    // production never builds diagnostics
    ensures !isDevelopment ==> d.messageObject == Text(DEFAULT_MESSAGE) && d.message.Plain?
    // development puts them in the message object, except for the authorization
    // kinds, which put them in the message instead
    ensures d.messageObject.DictionaryObject? <==> isDevelopment && !exception.IsAuthorization()
    ensures d.message.SerializedDictionary? <==> isDevelopment && exception.IsAuthorization()
  {
    match exception
    case App(e) =>
      Decision(e.httpStatusCode, e.clwStatusCode, Plain(e.message),
               DevelopmentOnly(isDevelopment, AppDiagnostics(e)))
    case TokenExpired(_, _, _) =>
      AuthorizationDecision(exception, isDevelopment)
    case UnauthorizedAccess(_, _) =>
      AuthorizationDecision(exception, isDevelopment)
    case Generic(message, stackTrace, None) =>
      Decision(INTERNAL_SERVER_ERROR, DEFAULT_CLW_STATUS, Plain(message),
               DevelopmentOnly(isDevelopment, ExceptionDictionary(exception, stackTrace)))
    case Generic(_, _, Some(app)) =>
      Decision(app.httpStatusCode, app.clwStatusCode, Plain(app.message),
               DevelopmentOnly(isDevelopment, ExceptionDictionary(App(app), app.stackTrace)))
  }

  /** Both authorization kinds: 401, the default "Clw" status and message
      object, and in development the serialised authorization dictionary as
      the message. */
  function AuthorizationDecision(exception: Failure, isDevelopment: bool): (d: Decision)
    ensures d.httpStatusCode == UNAUTHORIZED && d.clwStatusCode == DEFAULT_CLW_STATUS
    ensures d.messageObject == Text(DEFAULT_MESSAGE)
    ensures !isDevelopment ==> d.message == Plain(DEFAULT_MESSAGE)
    ensures isDevelopment ==>
      && d.message.SerializedDictionary?
      && |d.message.entries| >= 2
      && d.message.entries[..2] == [("Exception", exception.Message()), ("StackTrace", exception.StackTrace())]
      && |d.message.entries| == (if exception.TokenExpired? then 3 else 2)
      && (HasKey(d.message.entries, "Expires") <==> exception.TokenExpired?)
      && (exception.TokenExpired? ==> d.message.entries[2] == ("Expires", exception.expires))
  {
    Decision(UNAUTHORIZED, DEFAULT_CLW_STATUS,
             if isDevelopment then SerializedDictionary(AuthorizationDictionary(exception))
             else Plain(DEFAULT_MESSAGE),
             Text(DEFAULT_MESSAGE))
  }

  /** The envelope `WriteToResponseAsyncDev` or `WriteToResponseAsyncProd` writes. */
  function Render(d: Decision, requestId: string, isDevelopment: bool): (r: Envelope)
    ensures r.Development? <==> isDevelopment
    ensures r.statusCode == d.httpStatusCode && r.clwStatusCode == d.clwStatusCode
    ensures r.requestId == requestId && r.message == d.message
    ensures r.Development? ==> r.data == d.messageObject
  {
    if isDevelopment then
      Development(d.httpStatusCode, d.clwStatusCode, requestId, d.messageObject, d.message)
    else
      Production(d.httpStatusCode, d.clwStatusCode, requestId, d.message)
  }

  /** The envelope written for a caught exception, and what it promises for
      each kind of failure. */
  function Respond(exception: Failure, isDevelopment: bool, requestId: string): (r: Envelope)
    ensures r.requestId == requestId
    ensures r.Development? <==> isDevelopment
    // production never carries the serialised dictionary with the stack trace
    ensures !isDevelopment ==> r.message.Plain?
    ensures exception.App? ==>
      && r.statusCode == exception.error.httpStatusCode
      && r.clwStatusCode == exception.error.clwStatusCode
      && r.message == Plain(exception.error.message)
    ensures exception.App? && isDevelopment ==>
      && r.data == DictionaryObject(AppDiagnostics(exception.error))
      && (HasKey(r.data.entries, "AdditionalData") <==> exception.error.additionalData.Some?)
    ensures exception.IsAuthorization() ==>
      r.statusCode == UNAUTHORIZED && r.clwStatusCode == DEFAULT_CLW_STATUS
    ensures exception.IsAuthorization() && !isDevelopment ==> r.message == Plain(DEFAULT_MESSAGE)
    ensures exception.IsAuthorization() && isDevelopment ==>
      && r.data == Text(DEFAULT_MESSAGE)
      && r.message.SerializedDictionary?
      && HasKey(r.message.entries, "Exception") && HasKey(r.message.entries, "StackTrace")
      && (HasKey(r.message.entries, "Expires") <==> exception.TokenExpired?)
    ensures exception.IsAuthorization() && isDevelopment ==>
      r.message == SerializedDictionary(AuthorizationDictionary(exception))
    ensures exception.Generic? && exception.innerApp.Some? ==>
      && r.statusCode == exception.innerApp.value.httpStatusCode
      && r.clwStatusCode == exception.innerApp.value.clwStatusCode
      && r.message == Plain(exception.innerApp.value.message)
    ensures exception.Generic? && exception.innerApp.None? ==>
      && r.statusCode == INTERNAL_SERVER_ERROR
      && r.clwStatusCode == DEFAULT_CLW_STATUS
      && r.message == Plain(exception.message)
    // a wrapped AppException's dictionary holds the inner exception and its
    // stack trace; any other generic exception's holds the outer ones
    ensures exception.Generic? && exception.innerApp.Some? && isDevelopment ==>
      r.data == DictionaryObject(ExceptionDictionary(App(exception.innerApp.value),
                                                     exception.innerApp.value.stackTrace))
    ensures exception.Generic? && exception.innerApp.None? && isDevelopment ==>
      r.data == DictionaryObject(ExceptionDictionary(exception, exception.stackTrace))
    ensures exception.Generic? && isDevelopment ==>
      r.data.DictionaryObject? && !HasKey(r.data.entries, "AdditionalData")
  {
    Render(Decide(exception, isDevelopment), requestId, isDevelopment)
  }

  /** The two envelopes for the same failure differ only in the shape
      (development carries the message object as data) and, for the
      authorization kinds, in the message. */
  lemma ModesAgree(exception: Failure, requestId: string)
    ensures var dev, prod := Respond(exception, true, requestId), Respond(exception, false, requestId);
      && dev.Development? && prod.Production?
      && dev.statusCode == prod.statusCode
      && dev.clwStatusCode == prod.clwStatusCode
      && dev.requestId == prod.requestId
      && (dev.message == prod.message <==> !exception.IsAuthorization())
  {
  }

  /** `context.TraceIdentifier ?? Guid.NewGuid().ToString()`. */
  function RequestId(traceIdentifier: Option<string>, newGuid: Guids.Guid): (id: string)
    ensures traceIdentifier.Some? ==> id == traceIdentifier.value
    ensures traceIdentifier.None? ==> id == Guids.Format(newGuid) && |id| == 36
  {
    match traceIdentifier
    case Some(traceId) => traceId
    case None => Guids.Format(newGuid)
  }

  /** Without a trace identifier, distinct GUIDs give distinct request ids. */
  lemma FreshRequestIdsDiffer(g: Guids.Guid, h: Guids.Guid)
    requires g != h
    ensures RequestId(None, g) != RequestId(None, h)
  {
  }
}
