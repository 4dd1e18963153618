# HttpExceptionHandler: the exception-handling middleware, in Dafny

This project models `CustomExceptionHandlerMiddleware.Invoke`, the ASP.NET
middleware that runs the rest of the request pipeline (`_next`) and turns
any exception it raises into one JSON `ApiResult` envelope.

- **Classification.** The catch clauses are tried in order: `AppException`,
  `SecurityTokenExpiredException`, `UnauthorizedAccessException`, then any
  other `Exception`, whose inner exception is checked for an `AppException`.
  Each clause reassigns four locals: `message`, `messageObject`,
  `httpStatusCode` and `ClwStatusCode`. `Translation.Failure` has one variant
  per clause.
- **Decision table.** `Translation.Decide` gives the table as a function.
  `Middleware.CustomExceptionHandlerMiddleware.Classify` keeps the source's
  mutable locals and branch-by-branch assignments. It is proved to compute
  exactly `Decide`.
- **Writing.** `WriteToResponseAsyncDev` and `WriteToResponseAsyncProd` each
  check `Response.HasStarted` first. If the response has started, they throw
  `InvalidOperationException`, which escapes `Invoke`. Otherwise they set the
  status code and the `application/json` content type, then write one
  envelope. Development writes `ApiResult<object>`, whose `data` is the
  message object. Production writes `ApiResult`, which has no data field.
- **Request id.** It is `context.TraceIdentifier` when that is not null.
  Otherwise it is the text of a new GUID, in the default "D" format that
  `Guid.ToString()` produces (`Guids.Format`).

Modules:
- `Wrappers`: `Option`, for null references.
- `Guids`: the GUID text form.
- `Translation`: the value-level model. It holds the failure kinds, the
  diagnostic dictionaries, the decision, the envelope and the request id.
- `Middleware`: the response, context and logger objects, and the middleware
  class with `Invoke` and its local functions as methods.

One would expect the development and production envelopes for the same
failure to agree on every shared field; the code does not for the two
authorization kinds. In development,
`SetUnAuthorizeResponse` replaces `message` with the serialised dictionary
(line 178). In production, `message` keeps its default `"Error Occurred!!!"`.
The model follows the code, and `Translation.ModesAgree` states the difference
exactly. For these two kinds, `messageObject` keeps its default string in
development too, because `SetUnAuthorizeResponse` never assigns it.

## Model

| member | source | states |
|---|---|---|
| Guids.HexDigit | src/Middlewares/CustomExceptionHandlerMiddleware.cs:47 | each nibble prints as a lower-case hex digit, and `DigitValue` reads that digit back as the nibble |
| Guids.Hex | src/Middlewares/CustomExceptionHandlerMiddleware.cs:47 | a digit group prints one character per nibble, in order, each being that nibble's digit |
| Guids.Format | src/Middlewares/CustomExceptionHandlerMiddleware.cs:47 | `Guid.ToString()` is 36 characters long, with hyphens at 8, 13, 18 and 23 and lower-case hex digits elsewhere; the j-th digit of the GUID is at its position in the 8-4-4-4-12 grouping |
| Guids.FormatInjective | src/Middlewares/CustomExceptionHandlerMiddleware.cs:47 | two GUIDs with the same text are the same GUID |
| Translation.RequestId | src/Middlewares/CustomExceptionHandlerMiddleware.cs:47 | the request id is the trace identifier, verbatim, when it is not null; otherwise it is the 36-character text of the new GUID |
| Translation.FreshRequestIdsDiffer | src/Middlewares/CustomExceptionHandlerMiddleware.cs:47 | with no trace identifier, distinct GUIDs give distinct request ids |
| Translation.Add | src/Middlewares/CustomExceptionHandlerMiddleware.cs:70-71 | `Dictionary.Add` of a new key appends the entry, keeps the keys distinct and adds exactly that key; its precondition is that the key is new, so the two `Add` calls never throw |
| Translation.ExceptionDictionary | src/Middlewares/CustomExceptionHandlerMiddleware.cs:100-104 | the development dictionary maps `Exception` to the exception object and `StackTrace` to the stack trace it is given, in that order; its keys are distinct and it has no `AdditionalData` |
| Translation.AppDiagnostics | src/Middlewares/CustomExceptionHandlerMiddleware.cs:58-74 | for an `AppException`, the development dictionary starts with `Exception` and `StackTrace`; it has an `AdditionalData` entry, holding the serialised data, exactly when `AdditionalData` is not null |
| Translation.AuthorizationDictionary | src/Middlewares/CustomExceptionHandlerMiddleware.cs:168-177 | the authorization dictionary maps `Exception` to the exception's message and `StackTrace` to its stack trace; it has an `Expires` entry, holding the expiry, exactly when the exception is token-expired |
| Translation.Decide | src/Middlewares/CustomExceptionHandlerMiddleware.cs:52-127 | the decision table, whose per-kind results `Respond` states; production decisions carry no diagnostics (default message object, plain message); in development the message object is a dictionary exactly for the non-authorization kinds, and the message is a serialised dictionary exactly for the authorization kinds |
| Translation.AuthorizationDecision | src/Middlewares/CustomExceptionHandlerMiddleware.cs:162-180 | the effect of `SetUnAuthorizeResponse` on the locals: 401, Clw 500, the message object left at its default; the message left at its default in production, and in development the serialised dictionary whose entries are exactly `Exception` (the message) and `StackTrace` (the stack trace), followed, only for token-expired, by `Expires` holding the expiry |
| Translation.Render | src/Middlewares/CustomExceptionHandlerMiddleware.cs:137-160 | the envelope has the development shape exactly in development; status, Clw status, request id and message come from the decision; the development `data` is the message object |
| Translation.Respond | src/Middlewares/CustomExceptionHandlerMiddleware.cs:41-181 | per kind: `AppException` gives its own status, Clw status and message, and `AdditionalData` in the development data exactly when it is not null; the authorization kinds give 401 and Clw 500, with message `"Error Occurred!!!"` in production, and in development a serialised dictionary with `Exception` and `StackTrace` entries that has `Expires` exactly for token-expired; a generic exception wrapping an `AppException` gives the inner status, Clw status and message; any other exception gives 500, 500 and the outer message; in development the data is the `AppException` dictionary for an `AppException`, the dictionary of the inner `AppException` and its stack trace for a wrapped one, and the dictionary of the outer exception and its stack trace for any other, and the authorization message is exactly the serialised authorization dictionary; a production message is never a serialised dictionary |
| Translation.ModesAgree | src/Middlewares/CustomExceptionHandlerMiddleware.cs:129-178 | for the same failure, the development and production envelopes have the same status, Clw status and request id; only development has data; their messages are equal exactly when the failure is not an authorization kind |
| Middleware.Response.Write | src/Middlewares/CustomExceptionHandlerMiddleware.cs:147 | writing appends one document to the body and starts the response; status and content type are unchanged |
| Middleware.Logger.LogError | src/Middlewares/CustomExceptionHandlerMiddleware.cs:54 | the sink receives one more entry, holding the exception and the message |
| Middleware.CustomExceptionHandlerMiddleware.constructor | src/Middlewares/CustomExceptionHandlerMiddleware.cs:32-39 | the middleware keeps the environment flag and the logger it is given |
| Middleware.CustomExceptionHandlerMiddleware.SetUnAuthorizeResponse | src/Middlewares/CustomExceptionHandlerMiddleware.cs:162-180 | status 401 and Clw 500; in production the message passed in is kept; in development it becomes the serialised authorization dictionary, which has `Expires` exactly for token-expired |
| Middleware.CustomExceptionHandlerMiddleware.Classify | src/Middlewares/CustomExceptionHandlerMiddleware.cs:43-127 | after the locals are initialised and a catch clause reassigns them, they hold the decision of the table `Decide`, including in the development branch with its duplicate assignments |
| Middleware.CustomExceptionHandlerMiddleware.WriteToResponseAsyncDev | src/Middlewares/CustomExceptionHandlerMiddleware.cs:137-148 | if the response has started, it throws the guard's exception and leaves the response unchanged; otherwise it sets the status and `application/json`, appends exactly the development envelope, and the response has started |
| Middleware.CustomExceptionHandlerMiddleware.WriteToResponseAsyncProd | src/Middlewares/CustomExceptionHandlerMiddleware.cs:149-160 | the same guard; otherwise it sets the status and `application/json` and appends exactly the production envelope, which has no data |
| Middleware.CustomExceptionHandlerMiddleware.WriteToResponseAsync | src/Middlewares/CustomExceptionHandlerMiddleware.cs:129-135 | the writer for the current environment, with the same guard and effect |
| Middleware.CustomExceptionHandlerMiddleware.Invoke | src/Middlewares/CustomExceptionHandlerMiddleware.cs:41-181 | if `_next` succeeds, nothing is logged or written; if it fails, one error entry is logged with the exception's message; then, if the response had started, the guard's exception escapes and the response is unchanged; otherwise the status is the decided one, the content type is `application/json`, and exactly one envelope is appended, `Respond` of the failure for the request id computed from the trace identifier as it was before `_next` ran, even when `_next` changed it |

## Left out

- `CustomExceptionHandlerMiddlewareExtensions.UseCustomExceptionHandler` (lines 18-24) only registers the middleware in the ASP.NET pipeline.
- JSON serialisation by Newtonsoft, including camel-casing of property and dictionary keys, is a foreign library. A serialised value is kept as the structure it serialises. The message of the authorization kinds in development is `SerializedDictionary` of its dictionary. The `AdditionalData` entry holds the serialised text, taken as given.
- `ApiResult`, `ApiResult<object>` and `AppException` are defined in packages outside this repository. Only the fields used here are modelled.
- `async`/`await` and `Task` are not modelled. The steps run in sequence.
- `_next` is an input (`NextStage`): it succeeds or raises a given failure, and leaves the trace identifier it sets, which `Invoke` stores after computing the request id. Whatever it did to the response shows in the state of the `Response` object passed in.
- The GUID is a parameter, because `Guid.NewGuid()` is random. Stack traces and `Expires.ToString()` (culture-dependent date formatting) are strings supplied with the exception.
- `IHostingEnvironment.IsDevelopment()` is the constant `isDevelopment`, fixed when the middleware is constructed.
- The logger is a sequence of entries. Log levels, formatting and the ordering of logging relative to the write are not modelled beyond the fact that the entry is recorded even when the write guard throws.
- An inner exception that is not an `AppException` affects no decision, so `Generic` records only an inner `AppException`. The rest of an exception object's serialised content in the development `data` (lines 62, 102 and 115), such as its own inner exception, is not modelled, and a stack trace is always a string, although `StackTrace` can be null for an inner `AppException` that was never thrown (line 116).
- The commented-out inner-exception code (lines 65-69 and 78) is dead code.
