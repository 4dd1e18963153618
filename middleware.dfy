/**
 The middleware itself: `Invoke` with the local functions it declares, over
 the mutable parts of the request it touches (the response and the log).
 Each catch clause reassigns the locals `message`, `messageObject`,
 `httpStatusCode` and `ClwStatusCode` as the source does; the result is
 proved equal to the decision table `Translation.Decide`.
 */
module Middleware {
  import opened Wrappers
  import opened Translation
  import Guids

  /** The parts of `HttpResponse` the middleware uses. `body` holds the
      documents written, each as the envelope it serialises. */
  class Response {
    var hasStarted: bool
    var statusCode: int
    var contentType: Option<string>
    var body: seq<Envelope>

    /** A response nothing has been sent on yet. */
    constructor ()
      ensures !hasStarted && statusCode == 200 && contentType == None && body == []
    {
      hasStarted := false;
      statusCode := 200;
      contentType := None;
      body := [];
    }

    /** `WriteAsync`: the first write of the body starts the response. */
    method Write(document: Envelope)
      modifies this
      ensures body == old(body) + [document] && hasStarted
      ensures statusCode == old(statusCode) && contentType == old(contentType)
    {
      body := body + [document];
      hasStarted := true;
    }
  }

  /** The parts of `HttpContext` the middleware uses. `TraceIdentifier` may be null. */
  class HttpContext {
    var traceIdentifier: Option<string>
    const response: Response

    constructor (traceIdentifier: Option<string>, response: Response)
      ensures this.traceIdentifier == traceIdentifier && this.response == response
    {
      this.traceIdentifier := traceIdentifier;
      this.response := response;
    }
  }

  /** One `LogError(exception, message)` call. */
  datatype LogEntry = LogError(exception: Failure, message: string)

  /** The logging sink, as the sequence of entries it has received. */
  class Logger {
    var entries: seq<LogEntry>

    constructor ()
      ensures entries == []
    {
      entries := [];
    }

    method LogError(exception: Failure, message: string)
      modifies this
      ensures entries == old(entries) + [LogEntry.LogError(exception, message)]
    {
      entries := entries + [LogEntry.LogError(exception, message)];
    }
  }

  /** What `_next(context)` does: complete, or throw; either way it may set
      `context.TraceIdentifier`, which it leaves as `traceIdentifierAfter`. */
  datatype NextStage =
    | Succeeds(traceIdentifierAfter: Option<string>)
    | Fails(traceIdentifierAfter: Option<string>, failure: Failure)

  /** How `Invoke` ends: normally, or with the InvalidOperationException of
      the write guard (carrying its message), which escapes to the caller. */
  datatype Outcome = Completed | Threw(message: string)

  class CustomExceptionHandlerMiddleware {
    /** `_env.IsDevelopment()`. */
    const isDevelopment: bool
    /** `_logger`. */
    const logger: Logger

    constructor (isDevelopment: bool, logger: Logger)
      ensures this.isDevelopment == isDevelopment && this.logger == logger
    {
      this.isDevelopment := isDevelopment;
      this.logger := logger;
    }

    /** The local function `SetUnAuthorizeResponse`: sets the captured
        status locals for the authorization kinds and, in development only,
        replaces the captured `message` by the serialised dictionary. */
    method SetUnAuthorizeResponse(exception: Failure, message: Message)
      returns (httpStatusCode: Int32, clwStatusCode: Int64, message': Message)
      ensures httpStatusCode == UNAUTHORIZED && clwStatusCode == DEFAULT_CLW_STATUS
      ensures !isDevelopment ==> message' == message
      ensures isDevelopment ==> message' == SerializedDictionary(AuthorizationDictionary(exception))
      ensures isDevelopment ==> (HasKey(message'.entries, "Expires") <==> exception.TokenExpired?)
    {
      httpStatusCode := UNAUTHORIZED;
      clwStatusCode := DEFAULT_CLW_STATUS;
      message' := message;
      if isDevelopment {
        var dic := [("Exception", exception.Message()), ("StackTrace", exception.StackTrace())];
        if exception.TokenExpired? {
          dic := Add(dic, "Expires", exception.expires);
        }
        message' := SerializedDictionary(dic);
        assert dic == AuthorizationDictionary(exception);
      }
    }

    /** The catch clauses of `Invoke` without their logging and writing:
        the locals start at their declared values and each clause reassigns
        them for the exception it catches. */
    method Classify(exception: Failure) returns (d: Decision)
      ensures d == Decide(exception, isDevelopment)
    {
      var message := Plain(DEFAULT_MESSAGE);
      var messageObject := Text(DEFAULT_MESSAGE);
      var httpStatusCode := INTERNAL_SERVER_ERROR;
      var clwStatusCode := DEFAULT_CLW_STATUS;
      match exception {
        case App(e) =>
          httpStatusCode := e.httpStatusCode;
          clwStatusCode := e.clwStatusCode;
          if isDevelopment {
            var dic := [("Exception", ExceptionValue(exception)), ("StackTrace", StringValue(e.stackTrace))];
            if e.additionalData.Some? {
              assert dic == ExceptionDictionary(App(e), e.stackTrace);
              dic := Add(dic, "AdditionalData", StringValue(e.additionalData.value));
            }
            messageObject := DictionaryObject(dic);
          }
          message := Plain(e.message);
          assert messageObject == DevelopmentOnly(isDevelopment, AppDiagnostics(e));
        case TokenExpired(_, _, _) =>
          httpStatusCode, clwStatusCode, message := SetUnAuthorizeResponse(exception, message);
        case UnauthorizedAccess(_, _) =>
          httpStatusCode, clwStatusCode, message := SetUnAuthorizeResponse(exception, message);
        case Generic(outerMessage, stackTrace, innerApp) =>
          if innerApp.None? {
            if isDevelopment {
              messageObject := DictionaryObject(
                [("Exception", ExceptionValue(exception)), ("StackTrace", StringValue(stackTrace))]);
            }
            message := Plain(outerMessage);
          } else {
            var appException := innerApp.value;
            if isDevelopment {
              var dic := [("Exception", ExceptionValue(App(appException))),
                          ("StackTrace", StringValue(appException.stackTrace))];
              clwStatusCode := appException.clwStatusCode;
              httpStatusCode := appException.httpStatusCode;
              messageObject := DictionaryObject(dic);
            }
            clwStatusCode := appException.clwStatusCode;
            httpStatusCode := appException.httpStatusCode;
            message := Plain(appException.message);
          }
      }
      d := Decision(httpStatusCode, clwStatusCode, message, messageObject);
    }

    /** `WriteToResponseAsyncDev`: the guard, then status, content type and
        an `ApiResult<object>` carrying the message object as data. */
    method WriteToResponseAsyncDev(response: Response, d: Decision, requestId: string)
      returns (outcome: Outcome)
      modifies response
      ensures old(response.hasStarted) ==>
        outcome == Threw(RESPONSE_STARTED_MESSAGE) && unchanged(response)
      ensures !old(response.hasStarted) ==>
        && outcome == Completed
        && response.statusCode == d.httpStatusCode
        && response.contentType == Some(JSON_CONTENT_TYPE)
        && response.body == old(response.body) + [Render(d, requestId, true)]
        && response.hasStarted
    {
      if response.hasStarted {
        return Threw(RESPONSE_STARTED_MESSAGE);
      }
      var result := Development(d.httpStatusCode, d.clwStatusCode, requestId, d.messageObject, d.message);
      response.statusCode := d.httpStatusCode;
      response.contentType := Some(JSON_CONTENT_TYPE);
      response.Write(result);
      outcome := Completed;
    }

    /** `WriteToResponseAsyncProd`: the guard, then status, content type and
        an `ApiResult` without data. */
    method WriteToResponseAsyncProd(response: Response, d: Decision, requestId: string)
      returns (outcome: Outcome)
      modifies response
      ensures old(response.hasStarted) ==>
        outcome == Threw(RESPONSE_STARTED_MESSAGE) && unchanged(response)
      ensures !old(response.hasStarted) ==>
        && outcome == Completed
        && response.statusCode == d.httpStatusCode
        && response.contentType == Some(JSON_CONTENT_TYPE)
        && response.body == old(response.body) + [Render(d, requestId, false)]
        && response.hasStarted
    {
      if response.hasStarted {
        return Threw(RESPONSE_STARTED_MESSAGE);
      }
      var result := Production(d.httpStatusCode, d.clwStatusCode, requestId, d.message);
      response.statusCode := d.httpStatusCode;
      response.contentType := Some(JSON_CONTENT_TYPE);
      response.Write(result);
      outcome := Completed;
    }

    /** `WriteToResponseAsync`: the writer for the current environment. */
    method WriteToResponseAsync(response: Response, d: Decision, requestId: string)
      returns (outcome: Outcome)
      modifies response
      ensures old(response.hasStarted) ==>
        outcome == Threw(RESPONSE_STARTED_MESSAGE) && unchanged(response)
      ensures !old(response.hasStarted) ==>
        && outcome == Completed
        && response.statusCode == d.httpStatusCode
        && response.contentType == Some(JSON_CONTENT_TYPE)
        && response.body == old(response.body) + [Render(d, requestId, isDevelopment)]
        && response.hasStarted
    {
      if isDevelopment {
        outcome := WriteToResponseAsyncDev(response, d, requestId);
      } else {
        outcome := WriteToResponseAsyncProd(response, d, requestId);
      }
    }

    /** `Invoke`: the request id is fixed before the next stage runs; a
        successful next stage leaves the response alone; a failure is logged,
        classified and written as exactly one envelope, unless the response
        has already started, in which case the guard's exception escapes and
        the response is left as it was. */
    method Invoke(context: HttpContext, next: NextStage, newGuid: Guids.Guid)
      returns (outcome: Outcome)
      modifies context, context.response, logger
      ensures context.traceIdentifier == next.traceIdentifierAfter
      ensures next.Succeeds? ==>
        outcome == Completed && unchanged(context.response) && logger.entries == old(logger.entries)
      ensures next.Fails? ==>
        logger.entries == old(logger.entries) + [LogEntry.LogError(next.failure, next.failure.Message())]
      ensures next.Fails? && old(context.response.hasStarted) ==>
        outcome == Threw(RESPONSE_STARTED_MESSAGE) && unchanged(context.response)
      ensures next.Fails? && !old(context.response.hasStarted) ==>
        && outcome == Completed
        && context.response.statusCode == Respond(next.failure, isDevelopment,
             RequestId(old(context.traceIdentifier), newGuid)).statusCode
        && context.response.contentType == Some(JSON_CONTENT_TYPE)
        && context.response.body == old(context.response.body)
             + [Respond(next.failure, isDevelopment, RequestId(old(context.traceIdentifier), newGuid))]
        && context.response.hasStarted
    {
      var requestId := RequestId(context.traceIdentifier, newGuid);
      context.traceIdentifier := next.traceIdentifierAfter;
      match next {
        case Succeeds(_) =>
          outcome := Completed;
        case Fails(_, exception) =>
          logger.LogError(exception, exception.Message());
          var d := Classify(exception);
          outcome := WriteToResponseAsync(context.response, d, requestId);
      }
    }
  }

  /** A client of the contracts above. In production, an `AppException`
      ("Not found", 404, Clw 4004) yields exactly one envelope carrying those
      values and the trace identifier; a second failure on the same response
      meets the started response, so the guard's exception escapes and the
      body keeps its single envelope. */
  method NotFoundInProduction(newGuid: Guids.Guid) {
    var logger := new Logger();
    var middleware := new CustomExceptionHandlerMiddleware(false, logger);
    var response := new Response();
    var context := new HttpContext(Some("request-1"), response);
    var notFound := App(AppError(404, 4004, "Not found", "at Handler", None));
    var outcome := middleware.Invoke(context, Fails(Some("request-1"), notFound), newGuid);
    assert outcome == Completed;
    assert response.statusCode == 404 && response.contentType == Some(JSON_CONTENT_TYPE);
    assert response.body == [Production(404, 4004, "request-1", Plain("Not found"))];
    var denied := UnauthorizedAccess("Access denied", "at Handler");
    outcome := middleware.Invoke(context, Fails(Some("request-1"), denied), newGuid);
    assert outcome == Threw(RESPONSE_STARTED_MESSAGE);
    assert response.body == [Production(404, 4004, "request-1", Plain("Not found"))];
    assert logger.entries == [LogEntry.LogError(notFound, "Not found"), LogEntry.LogError(denied, "Access denied")];
  }
}
