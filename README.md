# Braintree GraphQL bridge — a verified model

This project models the request/response bridge of the Braintree MCP tool servers. Each tool call becomes one authenticated GraphQL request to the Braintree API, retried in the SSE server, and the answer is turned into a reply for the caller. A call without credentials, or with a rejected query, sends nothing. There are two servers:

- `braintree_sse_server.py`, served over SSE:
  - a retrying `make_braintree_request` with exponential backoff;
  - `retry-after` handling for HTTP 429;
  - retries for GraphQL errors whose message names a transient condition;
  - defensive parsing (`safe_json_parse`) and defensive serialisation (`sanitize_for_json`, `safe_json_dumps`);
  - the tools `braintree_sse_ping` and `braintree_execute_graphql_sse`, which validates the query.
- `braintree_server.py`, served over stdio:
  - a single-attempt `make_braintree_request`;
  - the tools `braintree_ping` and `braintree_get_graphql_id_from_legacy_id`.

Modules:

| module | file | contents |
|---|---|---|
| `Wrappers` | `wrappers.dfy` | `Option` |
| `Text` | `text.dfy` | the Python string operations used (`lower`, `in`, `startswith`, `strip`, `s[:n]`, `join`, `isdigit`, integer formatting) |
| `Python` | `python.dfy` | Python values, exceptions (`Res`), `in`, `[]`, `.get`, iteration, and the opaque renderings `str()`, `isoformat()`, `json.dumps` text and `str(e)` |
| `Serialise` | `serialise.dfy` | `sanitize_for_json`, `safe_json_dumps` |
| `SafeParse` | `parse.dfy` | `safe_json_parse` around an opaque JSON parser |
| `Bridge` | `bridge.dfy` | what both servers share: configuration, endpoint, payload, the outcome of a POST, the status-error detail, and ping classification |
| `SseServer` | `sse_server.dfy` | the retry loop, query validation and the SSE tools |
| `StdioServer` | `stdio_server.dfy` | the single-attempt request and the stdio tools |

The network is an oracle. For the SSE server, `outcomes[k]` is what the (k+1)-th POST gives:

- a response (status, content type, `retry-after`, body);
- an `httpx.RequestError`;
- any other exception.

The retry loop `SseServer.MakeRequest` consumes these outcomes. It returns the result, every request it posted, and every wait it slept. It is proved to follow `SseServer.Request`, the function that specifies it:

- `SseServer.Decide` gives the verdict on one attempt;
- `SseServer.Verdicts` gives the verdict on each POST, with the backoff `2^k` after k retries;
- `SseServer.Follow` follows those verdicts until one finishes.

Waits are whole seconds. The backoff starts at 1 and only doubles, and `retry-after` is used only when it is all digits.

The parser, the Python renderings and Base64 are opaque functions carried in `Bridge.Env`. `Env.orjson` says whether orjson is installed as `json_lib`. The tools are modelled as written. Where the code departs from what it evidently intends (see "## Findings"), the intended behaviour is a separate member, and a contract relates the two.

## Model

| member | source | states |
|---|---|---|
| Bridge.HasCredentials | braintree_server.py:39-40 | a public or private key that is unset or set to the empty string counts as missing |
| Bridge.CredentialsIgnoreMerchantId | braintree_server.py:39 | the merchant ID plays no part in the credentials check |
| Bridge.ApiUrl | braintree_server.py:22-26 | the sandbox endpoint exactly when the environment is "sandbox", the production endpoint otherwise |
| Bridge.Payload | braintree_server.py:53-55 | the payload always carries `query`; it carries `variables` exactly when the variables are truthy, with the keys in that order |
| Bridge.StatusDetail | braintree_server.py:81-87 | an error body that is not a container (a number, null) raises TypeError at the first `in`; any detail that answers starts with " - " |
| Bridge.StatusDetailPrefersErrorsList | braintree_server.py:78-83 | the status-error detail is " - " followed by `errors[0].message` when the error body has an `errors` list whose first entry has a message |
| Bridge.StatusDetailFallsBackToErrorObject | braintree_server.py:84-85 | without `errors`, the detail is " - " followed by `error.message` |
| Bridge.StatusDetailQuotesBodyOtherwise | braintree_server.py:86-87 | with neither key, the detail is " - Response: " followed by the first 200 characters of the body |
| Bridge.StatusDetailOfErrorsDoc | braintree_sse_server.py:303-305 | an error document built by `safe_json_parse` is reported as " - " followed by its message |
| Bridge.JoinedMessages | braintree_server.py:113 | a value that cannot be iterated raises, and so does a non-empty dict, whose keys have no `.get`; an empty list joins to "" |
| Bridge.MessageTexts | braintree_server.py:113 | one text per error entry, in order: its `message`, or "Unknown error" when it has none |
| Bridge.JoinedMessagesOfWellFormed | braintree_server.py:113 | for well-formed entries the join never raises and equals the messages joined by ", " |
| Bridge.MessagesOfWellFormed | braintree_server.py:113 | the list comprehension yields each entry's message, or "Unknown error" |
| Bridge.AllStringsOfStrings | braintree_server.py:113 | `str.join` accepts a list of strings and yields exactly those strings |
| Bridge.ClassifyPing | braintree_server.py:111-119 | a result that is not a container raises TypeError; once `errors` is present, the verdict is its joined messages or an exception; errors are reported only when `errors` is present |
| Bridge.ErrorsDocIsReported | braintree_server.py:111-114 | an error document such as the missing-credentials result is classified as errors, with its message |
| Bridge.PongIffNoErrorsAndPingIsPong | braintree_server.py:111-117 | the ping verdict is pong exactly for a dict without `errors` whose `data` is a dict with `ping == "pong"` |
| Bridge.PingErrorsComeFirst | braintree_server.py:111-114 | an `errors` list wins over any `data`: its messages are reported, joined |
| Text.ContainsIffOccurs | braintree_sse_server.py:251 | substring search succeeds exactly when the needle occurs at some index of the text |
| Text.Strip | braintree_sse_server.py:510 | `strip()` yields a slice of the input; everything cut off is whitespace, and the result neither starts nor ends with whitespace |
| Text.NatToStringRoundTrip | braintree_sse_server.py:299 | the decimal text of a status code or offset reads back as the same number |
| Python.In | braintree_sse_server.py:243 | `in` answers for dicts, lists, tuples and strings, and raises TypeError for anything else |
| Python.GetItem | braintree_sse_server.py:305 | `o[key]` answers exactly for a dict holding the key, with its value |
| Python.DictGet | braintree_sse_server.py:249 | `.get` answers exactly on dicts, with the stored value or the default |
| Serialise.JsonSafeIsSerialisable | braintree_sse_server.py:54-88 | everything the sanitiser produces is accepted by the JSON encoder |
| Serialise.Sanitize | braintree_sse_server.py:54-88 | past the depth cap the value becomes `str(obj)`; dicts keep exactly their keys; lists and tuples become lists of the same length and order; objects go through `__dict__`; accepted leaves stay unchanged; other leaves become `isoformat()` or `str()`; the result is always JSON-safe |
| Serialise.SanitizeKeepsSafeValues | braintree_sse_server.py:54-88 | a JSON-safe value that fits under the cap passes through unchanged |
| Serialise.SafeJsonDumpsAsWritten | braintree_sse_server.py:90-115 | a serialisable value is encoded as it is, as bytes exactly when orjson is the encoder; anything else is sanitised and encoded as `str` |
| Serialise.SafeJsonDumpsReturnsBytesWithOrjson | braintree_sse_server.py:101-102 | with orjson, an ordinary ping result comes back as bytes |
| Serialise.SafeJsonDumps | braintree_sse_server.py:90-115 | the result is always `str` and serialisable: the value itself when it is serialisable, else its sanitised form |
| Serialise.SafeJsonDumpsAgreesWithoutOrjson | braintree_sse_server.py:90-115 | with the standard encoder, the code as written already gives the intended result |
| SafeParse.Context | braintree_sse_server.py:137 | the context is the whole text up to 200 characters; a longer text is cut to 200 characters plus "..." |
| SafeParse.SafeJsonParse | braintree_sse_server.py:117-173 | never raises: empty input, an HTML page, a decode error and any other parser failure each give their error document with context; otherwise the parsed value |
| SafeParse.DecodeErrorReportsPosition | braintree_sse_server.py:153-161 | a decode failure gives one error entry whose message contains " at position N", N reading back as the offset, with the 200-character context |
| SseServer.Headers | braintree_sse_server.py:195-201 | five headers: Basic authentication first, API version 2025-04-01, and `Accept: application/json` |
| SseServer.Pow2Doubles | braintree_sse_server.py:210-290 | the backoff starts at 1 second and each retry doubles it (`backoff_time *= 2` at :259 and :290) |
| SseServer.AnyTransient | braintree_sse_server.py:248-253 | a positive scan is witnessed by an entry whose lower-cased string message contains a transient phrase |
| SseServer.AnyTransientOfWellFormed | braintree_sse_server.py:248-253 | on well-formed entries the scan never raises and answers whether some message is transient |
| SseServer.InspectBody | braintree_sse_server.py:243-253 | a body that is not a container raises TypeError; a container without `errors` is never retried; a retry is asked for only by a dict holding `errors` |
| SseServer.RetryAfterWait | braintree_sse_server.py:285-286 | an all-digit `retry-after` is the wait, in seconds; anything else leaves the backoff |
| SseServer.StatusErrorDetail | braintree_sse_server.py:299-311 | the detail always answers and starts with " - "; when reading the parsed body raises, it is the raw-body quote |
| SseServer.UnparsableErrorBodyReportsDecodeError | braintree_sse_server.py:299-311 | a status-error body that is not JSON is reported through the parser's message and offset |
| SseServer.Decide | braintree_sse_server.py:212-326 | an attempt is retried only with retries left, after the expected wait: the backoff, or `retry-after` for a 429 |
| SseServer.DecideRetriesExactlyRetryable | braintree_sse_server.py:225-326 | an attempt is retried exactly when retries are left and it is a 5xx, a 429, a connection or other exception, or a 2xx body whose inspection is not a clean "no retry" |
| SseServer.StatusErrorsWithoutRetryAreReported | braintree_sse_server.py:278-313 | a 4xx other than 429, or any status error with no retries left, returns "HTTP Status Error: <code>" plus the detail |
| SseServer.RateLimitHonoursRetryAfter | braintree_sse_server.py:283-291 | a 429 with retries left waits exactly an all-digit `retry-after`, else the backoff |
| SseServer.GraphqlErrorsRetriedOnlyWhenTransient | braintree_sse_server.py:243-262 | a 2xx body with well-formed GraphQL errors is retried exactly when retries are left and some message is transient; otherwise the body is returned unchanged |
| SseServer.BodyWithoutErrorsIsReturned | braintree_sse_server.py:240-262 | a 2xx JSON object without `errors` is returned as it is |
| SseServer.Verdicts | braintree_sse_server.py:210-326 | one verdict per possible POST (`max_retries + 1`), the k-th decided after k retries with backoff `2^k`; a retry is never the last verdict |
| SseServer.Follow | braintree_sse_server.py:212-327 | following the verdicts from POST k on makes at least one and at most the remaining number of POSTs, with one wait fewer than POSTs |
| SseServer.FollowRetriesThenFinishes | braintree_sse_server.py:212-327 | every verdict followed but the last is a retry whose wait is recorded in order; the last finishes with the result |
| SseServer.Request | braintree_sse_server.py:175-332 | missing credentials: the credentials error with no POST and no wait; negative `max_retries`: "Failed after retries with unknown error" with no POST; otherwise 1 to `max_retries + 1` POSTs and one wait fewer |
| SseServer.RequestRetriesThenFinishes | braintree_sse_server.py:212-327 | every POST of a request but the last was retried after the wait its verdict names, and the last one's verdict gives the result |
| SseServer.RequestWaitsAreExpected | braintree_sse_server.py:210-296 | the k-th wait is the backoff `2^k`, or the `retry-after` of a 429; the backoff doubles after every retry, 429 retries included |
| SseServer.ConnectionFailuresExhaustRetries | braintree_sse_server.py:264-276 | when every POST fails to connect, all `max_retries + 1` POSTs are made, waiting 1, 2, 4, … seconds, and the last failure is reported |
| SseServer.ClientErrorsAreNotRetried | braintree_sse_server.py:278-313 | a 4xx other than 429 is the last POST whenever it comes, and the request returns its status error |
| SseServer.ScanErrors | braintree_sse_server.py:248-253 | the `for … break` scan computes exactly `AnyTransient`, raising where it raises |
| SseServer.InspectResponseBody | braintree_sse_server.py:243-253 | the checks on a 2xx body compute `InspectBody` |
| SseServer.HandleAttempt | braintree_sse_server.py:214-326 | the body of the retry loop gives the verdict `Decide` specifies |
| SseServer.SendWithRetries | braintree_sse_server.py:207-332 | the `while` loop and what follows it: with `max_retries >= 0` the POSTs, waits and result are those of following the verdicts; with a negative `max_retries` nothing is sent and the unknown-error document is returned; every POST sends the same request |
| SseServer.MakeRequest | braintree_sse_server.py:175-332 | the loop's result, POST count and waits are those of `Request`; every POST sends the identical request |
| SseServer.ValidateQuery | braintree_sse_server.py:506-512 | accepted exactly when the query is non-empty and, stripped, starts with "query", "mutation" or "{"; it is sent stripped; each rejection carries its message |
| SseServer.BlankQueryRejectedForFormat | braintree_sse_server.py:506-512 | a whitespace-only query is rejected for its format, not as empty |
| SseServer.ExecuteGraphql | braintree_sse_server.py:362-518 | a rejected query sends nothing and returns its error document as `str`; an accepted one is sent stripped with `max_retries = 2`, and the result goes through `safe_json_dumps` as written; the reply is `bytes` exactly when orjson is installed and the result is serialisable; without orjson it is the intended `str` |
| SseServer.PingReplyAsWritten | braintree_sse_server.py:349-360 | the reply is "pong" exactly for a pong verdict |
| SseServer.PingFailureHidesTheException | braintree_sse_server.py:358-360 | as written, every failure is reported as `str({})`, whatever the exception |
| SseServer.PingOfNullDataHidesTheError | braintree_sse_server.py:353-360 | `{"data": null}` gives "Error connecting to Braintree: " followed by `str({})` |
| SseServer.PingOfUnexpectedShapeShowsBytesWithOrjson | braintree_sse_server.py:355-357 | with orjson, a serialisable result of unexpected shape is shown as the `str()` of the bytes, `b'...'` |
| SseServer.PingReply | braintree_sse_server.py:347-360 | a failure is reported with the exception's text; otherwise the reply is the one written, with the standard encoder |
| SseServer.PingReplyIsPongExactly | braintree_sse_server.py:349-357 | the reply is "pong" exactly for a dict without `errors` whose `data.ping` is "pong" |
| SseServer.SsePing | braintree_sse_server.py:334-360 | the ping makes at most two POSTs (`max_retries = 1`), all identical, and replies as written; without orjson and when classification succeeds, that is the intended `PingReply` |
| StdioServer.HeadersDifferFromSseOnlyInVersionAndAccept | braintree_server.py:46-51 | the stdio headers are the SSE ones without `Accept`, with API version 2024-07-01 |
| StdioServer.StatusErrorDetailAsWritten | braintree_server.py:76-91 | a JSON decode error quotes the raw body; a parsed body goes through the shared lookups; any other parser failure raises |
| StdioServer.EmptyErrorListEscapes | braintree_server.py:79-89 | the error body `{"errors": []}` makes the detail raise IndexError |
| StdioServer.StatusErrorDetail | braintree_server.py:76-91 | the detail is always a string: the written one when it does not raise, else the raw-body quote |
| StdioServer.LogGraphqlErrors | braintree_server.py:70-71 | looking at a 2xx body raises exactly when it is not a container, or holds "errors" without being a dict |
| StdioServer.RespondIntended | braintree_server.py:57-95 | with a detail that never raises, the caller gets the parsed 2xx body when it can be looked at, and otherwise an error document whose only key is `errors` |
| StdioServer.Respond | braintree_server.py:57-95 | as written, the request raises exactly when the status-error detail raises, with its exception; otherwise it answers as `RespondIntended` |
| StdioServer.MakeRequest | braintree_server.py:34-95 | without credentials nothing is sent and the credentials error returned; otherwise exactly one request is sent and `Respond` on its outcome is the result, an exception included |
| StdioServer.SuccessfulObjectIsReturnedVerbatim | braintree_server.py:66-72 | a 2xx JSON object is returned as parsed, GraphQL errors included |
| StdioServer.UnparsableSuccessIsUnexpected | braintree_server.py:66-95 | a 2xx body that is not JSON gives "An unexpected error occurred: " followed by the parser's error text |
| StdioServer.StatusErrorReportsFirstMessage | braintree_server.py:76-91 | a status error with a first GraphQL error message is reported as "HTTP Status Error: <code> - <message>" |
| StdioServer.JsonDumps | braintree_server.py:119 | `json.dumps` answers exactly for serialisable values |
| StdioServer.PingReply | braintree_server.py:109-119 | a failure while classifying escapes the tool |
| StdioServer.PingRepliesAgreeWithSse | braintree_server.py:109-119 | where classification succeeds on a serialisable result, both servers' ping replies coincide |
| StdioServer.PingReplyIsPongExactly | braintree_server.py:111-117 | the reply is "pong" exactly for a dict without `errors` whose `data.ping` is "pong" |
| StdioServer.Ping | braintree_server.py:97-109 | the ping posts exactly when credentials are present, and then posts the ping query with no variables; an exception from the request escapes the tool |
| StdioServer.EmptyErrorListEscapesThePing | braintree_server.py:79-89 | a 4xx with body `{"errors": []}` makes `braintree_ping` itself raise IndexError |
| StdioServer.PingWithoutCredentials | braintree_server.py:39-40 | without credentials the ping sends nothing and replies "Error pinging Braintree: Server missing Braintree API credentials." |
| StdioServer.PingPong | braintree_server.py:97-119 | a 2xx body `{"data": {"ping": "pong"}}` makes the ping reply "pong" |
| StdioServer.LegacyIdVariables | braintree_server.py:142-145 | the variables are exactly `legacyId` and `type`, taken from the two arguments |
| StdioServer.LegacyIdReply | braintree_server.py:150-165 | a result that is not a container raises TypeError; once `errors` is present, the reply is the "Error retrieving GraphQL ID" text or an exception, never the ID |
| StdioServer.LegacyIdFound | braintree_server.py:155-159 | a truthy `idFromLegacyId` is returned verbatim |
| StdioServer.LegacyIdNotFound | braintree_server.py:160-162 | a null, empty or false ID gives the "No GraphQL ID found" text naming the legacy ID and its type |
| StdioServer.LegacyErrorsComeFirst | braintree_server.py:151-154 | errors take precedence: their messages are reported, joined |
| StdioServer.GetGraphqlIdFromLegacyId | braintree_server.py:123-165 | with credentials, the lookup query is sent with exactly the two variables |
| StdioServer.LegacyIdWithoutCredentials | braintree_server.py:39-40 | without credentials the lookup sends nothing and reports the missing credentials |

## Left out

- Networking, `async`/`await`, the HTTP client and `asyncio.sleep` are not modelled. The POST outcomes are an input, and the waits are recorded instead of slept. The 30-second timeout shows up only as a connection-failure outcome.
- The JSON grammar is not modelled. The parser is an opaque function from text to a value, a decode error (message, offset, text) or another failure. The encoder's text is an opaque rendering, the same for orjson and `json`.
- One opaque parser stands for both servers' parsers: `json_lib.loads` on the response text in the SSE server, and httpx's `response.json()`, the standard `json.loads` on the body, in the stdio server.
- What the encoder accepts is one predicate, `Serialise.Serialisable`, the same for orjson and the standard `json`. Values that only orjson accepts natively, such as datetimes and dataclasses, are not told apart. Nor are those only the standard `json` accepts: integers beyond 64 bits. With orjson the source turns such an integer into its `str()` through the sanitiser and returns `str`, where `Serialise.SafeJsonDumpsAsWritten` keeps the integer and returns `bytes`. So `safe_json_dumps`'s last fallback, `{"error": fallback_msg}`, is not modelled. With orjson it is reached when the value holds both something orjson refuses and a leaf only orjson accepts, such as a datetime: the sanitiser keeps the datetime, and the standard `json.dumps` then refuses it. It is also reached when `sanitize_for_json` itself raises, for instance on a class that has an `isoformat` attribute.
- The orjson branch of `safe_json_parse`, for a library without `loads`, is not modelled. Both libraries have `loads`.
- Base64 of the credentials, `str()`, `isoformat()` and `str(e)` are opaque functions.
- Numbers are integers. Floats are not modelled, NaN and the infinities included: the standard `json` writes them as `NaN` and `Infinity`, and orjson writes `null`. Nor are cyclic objects, or classes, which `sanitize_for_json` passes to the encoder.
- Dict keys are strings. `in` with a non-string key is not modelled.
- Text.Lower: maps only ASCII letters, where Python's `lower()` maps all of Unicode.
- SseServer.RetryAfterWait: accepts only ASCII digits. Python's `isdigit()` accepts every Unicode digit. For other decimal digits, such as "٣", `float()` reads their value and the source waits that long, where the model waits the backoff. For digits that are not decimal, such as "²", `float()` raises ValueError. That exception escapes the request and reaches the callers' `except` clauses, which the model does not take.
- Waits are whole seconds. The source uses floats, but every wait it makes is a power of two or an integer `retry-after`.
- `last_exception` is not tracked. Its only reader, the "Failed after N retries" reply, can be reached only when `max_retries < 0`, and then `last_exception` is always unset.
- The status-error handler's own 5xx retry cannot run and is not modelled. A 5xx with retries left is retried before `raise_for_status`.
- SseServer.ExecuteGraphql: the outer `except` at braintree_sse_server.py:519-523 is not modelled. The only exception that reaches it is the `float()` of a non-decimal `retry-after` digit string, which the model does not raise. The reply would then be the error document "Error executing GraphQL: " followed by the sanitised exception, `{}`. The tool's `query` is typed `str` and validated by the tool framework, so a non-string query is not modelled either.
- SseServer.SsePing: for the same reason the ping's `except` is reached in the model only through classification, not through a raising `float()`.
- Redirects are not modelled. The HTTP client does not follow them, and `raise_for_status` treats every non-2xx status as an error.
- `print` diagnostics are not modelled, including the error-position marker of `safe_json_parse`.
- Also not modelled:
  - the module-level credential warning;
  - dotenv loading, where the configuration is an input;
  - tool registration;
  - the `__main__` blocks;
  - the unused `random_string` parameter of the SSE ping.
- Concurrency between tool calls is not modelled. They share no mutable state.
- The transient phrases are the four at braintree_sse_server.py:251, "too many requests" included.
- The stdio tools can raise: nothing in them catches an exception that escapes `make_braintree_request`, such as the one in the third finding.

## Findings

| source | as written | input that shows it | evidently intended | confidence | as-written member | corrected member |
|---|---|---|---|---|---|---|
| braintree_sse_server.py:101-102 | `safe_json_dumps` returns `json_lib.dumps(obj)` directly, and with orjson that is `bytes` | a serialisable result such as `{"data": {"ping": "pong"}}` with orjson installed (`SafeJsonDumpsReturnsBytesWithOrjson`); the SSE ping then shows an unexpected result as `b'...'` (`PingOfUnexpectedShapeShowsBytesWithOrjson`) | a `str` in every case, as the annotation and the "consistent return type" comment say | not executed; high | Serialise.SafeJsonDumpsAsWritten | Serialise.SafeJsonDumps |
| braintree_sse_server.py:358-360 | the ping's failure reply formats `sanitize_for_json(e)`, which is the sanitised `__dict__` of the exception, an empty dict; the execute tool's outer `except` formats its message the same way at braintree_sse_server.py:522, giving "Error executing GraphQL: {}", a second instance that the model does not reach because that `except` is left out | result `{"data": null}`: `None.get` raises, and the reply is "Error connecting to Braintree: {}" (`PingOfNullDataHidesTheError`) | the exception's text, `{e}`, as the prints beside both replies (braintree_sse_server.py:359 and :520) and the stdio server's messages (braintree_server.py:75 and :95) format it | not executed; medium | SseServer.PingReplyAsWritten | SseServer.PingReply |
| braintree_server.py:79-89 | only `JSONDecodeError` is caught while reading a status-error body | status 400 with body `{"errors": []}`: IndexError escapes `make_braintree_request` and the tool (`EmptyErrorListEscapes`, `EmptyErrorListEscapesThePing`) | fall back to quoting the raw body, as the SSE server's `except Exception` does | not executed; medium | StdioServer.StatusErrorDetailAsWritten | StdioServer.StatusErrorDetail |
