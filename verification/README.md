# Verified model of the web server's request path

This project models, in Dafny, the sequential logic of `webserver/web_server.c`,
a small static-file HTTP server:

- the **safety gate** inside `handle_request`: an absent parse or a path not
  starting with `/` is answered 400 Bad Request, a path containing `..`
  anywhere is answered 403 Forbidden, anything else 404 Not Found;
- the **canned-response helpers** `respond_bad_request`, `respond_forbidden`
  and `respond_not_found`, each a short-circuiting `&&` chain of four calls
  into the HTTP library (start response, `Content-Type: text/html` header,
  end of headers, fixed HTML body);
- the **handler** `handle_request` as a whole, including which branches call
  `free` on the parsed request and the fact that it never closes the
  connection;
- the **argument checks** of `main`: the argument count, an `atoi` model, and
  the port test `port == 0 || port > 65535`.

Modules: `Common` (Option/Result), `SafetyGate` (a `strstr` model and the
classifier), `ResponseEmitter` (the call trace of the helpers),
`ConnectionHandler` (`handle_request`), `Startup` (`main`'s checks).

Modelling choices:

- A C string is the sequence of its characters before the NUL terminator.
  For an empty path, `path[0]` reads the terminator, which is not `/`, so the
  request is a bad request.
- `strstr(path, "..") != NULL` is `Strstr(path, "..").Some?`, where `Strstr`
  returns the offset of the first occurrence. The policy states it as "there
  is an index `i` with `path[i..i+2] == ".."`".
- `http_request_parse` is not part of this model: its result is the
  `request: Option<Request>` argument of `HandleRequest`, None standing for NULL.
- The HTTP library's write calls are an oracle `failAt: Option<nat>`, the
  index of the first call that returns false (None: every call succeeds).
  An `Emission` records the calls issued and the value the chain returned.
- The code calls `free` only on the 400 and 403 branches and never closes
  the connection; the model records both (`requestFreed`,
  `connectionClosed`).
- A modelled path is the text a C string holds before its terminator, so it
  contains no `'\0'`. Sequences with an embedded `'\0'` are not modelled
  paths: for them the gate looks at characters C would never reach.

## Model

| member | source | states |
|---|---|---|
| SafetyGate.SearchFrom | webserver/web_server.c:46 | the result is the first index at or after `from` where the needle occurs, or None when there is none from there on |
| SafetyGate.Strstr | webserver/web_server.c:46 | `strstr` finds the first occurrence of the needle; it returns None exactly when the needle occurs nowhere |
| SafetyGate.Classify | webserver/web_server.c:38-53 | the gate's answer is the only one the policy admits: 400 iff the request is absent or its path does not start with `/`; 403 iff it starts with `/` and contains `..`; 404 iff it starts with `/` and has no `..` |
| SafetyGate.RootCheckPrecedesTraversalCheck | webserver/web_server.c:38-43 | a path not starting with `/` is answered 400 even if it contains `..` (the root check comes first) |
| SafetyGate.TraversalForbiddenAnywhere | webserver/web_server.c:45-50 | `/` followed by any text, `..` and any text is answered 403, wherever the `..` sits |
| SafetyGate.BareTraversalForbidden | webserver/web_server.c:45-50 | `/..` is answered 403 |
| SafetyGate.InnerTraversalForbidden | webserver/web_server.c:45-50 | `/a/../b` and `/x..y` are answered 403: the check is textual, so `..` inside a segment counts too |
| SafetyGate.NoAdjacentDotsNotFound | webserver/web_server.c:45-53 | a path starting with `/` in which no `.` is followed by `.` is answered 404 |
| SafetyGate.PlainPathNotFound | webserver/web_server.c:52-53 | `/index.html` is answered 404 |
| ResponseEmitter.Emit | webserver/web_server.c:12-16 | a `&&` chain issues a prefix of its calls in order; it returns true iff no call fails; on success every call was issued; on failure exactly the calls up to and including the failing one were issued |
| ResponseEmitter.RespondBadRequest | webserver/web_server.c:11-17 | issues start(400), `Content-Type: text/html`, end of headers, the 400 page, in that order, stopping after the first failure; true iff all four succeed |
| ResponseEmitter.RespondForbidden | webserver/web_server.c:19-25 | the same four-call sequence with status 403 and the 403 page |
| ResponseEmitter.RespondNotFound | webserver/web_server.c:27-33 | the same four-call sequence with status 404 and the 404 page |
| ResponseEmitter.EmitStopsAtFailure | webserver/web_server.c:12-16 | if call `k` fails, the chain issues exactly calls `0..k` and returns false |
| ResponseEmitter.LateFailureIsHarmless | webserver/web_server.c:12-16 | a failure the oracle would report only after the last call does not change the chain's trace or result |
| ConnectionHandler.HandleRequest | webserver/web_server.c:35-54 | the outcome satisfies the gate policy; the response starts with that outcome's status and is a prefix of its canned four-call response; it succeeds iff no write fails; `free` is called iff the answer is 400 or 403; the connection is never closed |
| ConnectionHandler.HelperMatchesOutcome | webserver/web_server.c:39-53 | the handler sends exactly the canned response of its outcome: the 400, 403 and 404 helpers are used only for their own outcome |
| ConnectionHandler.ParsedRequestLeaksOnlyOnNotFound | webserver/web_server.c:39-54 | a parsed request is left unfreed exactly when the answer is 404 |
| ConnectionHandler.SameRequestSameAnswer | webserver/web_server.c:35-54 | the answer and the cleanup do not depend on the website directory or on the connection's write results; with successful writes the same request gets the same bytes |
| ConnectionHandler.TraversalScenario | webserver/web_server.c:45-50 | `GET /../x` gets the full 403 response with the exact Forbidden page and the request is freed |
| ConnectionHandler.NotFoundScenario | webserver/web_server.c:52-53 | `GET /index.html` gets the full 404 response and the request is not freed |
| ConnectionHandler.UnparsableScenario | webserver/web_server.c:36-42 | an unparsable request gets status 400; a write failure at the header stops the response after two calls |
| Startup.Atoi | webserver/web_server.c:86 | `atoi` yields a non-zero value only when the text holds a digit; its stages are specified by SkipSpacesSpec, LeadingDigitsSpec and AtoiSkipsLeadingSpace; AtoiOfDigitRun and AtoiOfDecimal give its value on signed digit runs, and NonNumericReadsAsZero and SignWithoutDigitReadsAsZero give 0 for everything else |
| Startup.LeadingDigits | webserver/web_server.c:86 | the digits `atoi` reads are all decimal digits; LeadingDigitsSpec adds that they are a prefix of the text ending at its end or at the first non-digit |
| Startup.SkipSpacesSpec | webserver/web_server.c:86 | `atoi`'s first stage drops only white-space characters and keeps a suffix that does not start with white space |
| Startup.AtoiSkipsLeadingSpace | webserver/web_server.c:86 | any run of leading white space leaves `atoi`'s result unchanged |
| Startup.LeadingDigitsSpec | webserver/web_server.c:86 | `atoi` reads a prefix of decimal digits that ends at the end of the text or at the first non-digit |
| Startup.DecimalValueOfDecimal | webserver/web_server.c:86 | reading the digits of a number's decimal spelling gives back the number |
| Startup.AtoiOfDigitRun | webserver/web_server.c:86 | `atoi` of an optional `+` or `-`, a digit run and text not starting with a digit is the value of the run, negated after `-` |
| Startup.AtoiOfDecimal | webserver/web_server.c:86 | `atoi` inverts the decimal spelling of every natural number, with or without a sign |
| Startup.SignWithoutDigitReadsAsZero | webserver/web_server.c:86 | a sign not directly followed by a digit (a second sign, white space, the end of the text) reads as 0, so `+ 80` is port 0 |
| Startup.NonNumericReadsAsZero | webserver/web_server.c:86 | text starting with something other than white space, a sign or a digit reads as 0 |
| Startup.CheckArgs | webserver/web_server.c:81-90 | fewer than three argv entries is a usage error and only then; otherwise the port is accepted exactly when `atoi(argv[1])` is neither 0 nor above 65535, and the accepted configuration holds that port and `argv[2]` as its directory |
| Startup.ValidPortAccepted | webserver/web_server.c:86-90 | every decimal port from 1 to 65535 is accepted |
| Startup.LargePortRejected | webserver/web_server.c:87-90 | every decimal port above 65535 that fits a C `int` is rejected |
| Startup.NonNumericPortRejected | webserver/web_server.c:86-90 | a non-numeric port reads as 0 and is rejected |
| Startup.NegativePortAccepted | webserver/web_server.c:86-90 | as written, every negative port that fits a C `int`, such as `-1`, passes the check, while the intended check rejects it |
| Startup.CheckArgsIntended | webserver/web_server.c:87 | the corrected check accepts a port exactly when `atoi(argv[1])` is from 1 to 65535 |
| Startup.ChecksDifferOnlyOnNegativePorts | webserver/web_server.c:87 | the written and the corrected checks differ exactly when `atoi` reads a negative port |

## Left out

- Socket creation, `SO_REUSEADDR`, `bind`, the `accept` loop and the
  connection logging (lines 92-139): operating-system I/O whose logic is
  "exit with failure on error", except that a failed `inet_ntop` logs the
  error, falls back to the address text `<unknown>` and keeps serving.
- The three `handle_connection` variants (lines 56-78) have empty bodies.
  Sequential, process-per-connection and thread-pool dispatch are
  concurrency that the code does not implement, so there is nothing to model.
  Because those bodies are empty, nothing in the program as written calls
  `handle_request`: `ConnectionHandler` models that function on its own, not
  a path the running server reaches.
- `libhttp.h` is not part of this model: parsing is an input, and the write
  calls are the `failAt` oracle. Only the `path` field of the parsed request
  is read by the code and modelled.
- Startup.CheckArgs: `atoi` is modelled on unbounded integers. C leaves
  `atoi` overflow undefined, so ports spelled with more digits than an `int`
  holds are not modelled faithfully.
- The `(uint16_t)` cast and `htons` of the port (line 108): network byte-order
  plumbing after the check.
- The usage and "invalid port" messages (lines 82, 88) are output only; the
  model returns the error kind instead.
- `free(request)` is modelled as a flag: whether the library's request owns
  further allocations is not visible.

## Findings

| source | as written | input that shows it | evidently intended | confidence | as-written member | corrected member |
|---|---|---|---|---|---|---|
| webserver/web_server.c:87 | `port == 0 \|\| port > 65535` rejects only zero and large values | `program -1 www`: `atoi` reads -1, the check passes, and line 108 casts -1 to the 16-bit port 65535 | a listening port must be in 1..65535 | not executed; medium | Startup.NegativePortAccepted | Startup.CheckArgsIntended |
