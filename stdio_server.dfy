/**
 * The stdio server (braintree_server.py): a single-attempt GraphQL request without
 * retries or defensive parsing, the ping tool, and the legacy-ID lookup tool.
 *
 * The network is an oracle: `outcome` is what the one POST gives.
 */
module StdioServer {
  import opened Wrappers
  import opened Python
  import Text
  import SafeParse
  import Serialise
  import opened Bridge
  import SseServer

  const API_VERSION := "2024-07-01"

  /** The headers of the POST: those of the SSE server without `Accept`, and an older API version. */
  function Headers(env: Env, config: Config): seq<(string, string)> {
    [("Authorization", Authorization(env, config)),
     ("Braintree-Version", API_VERSION),
     ("Content-Type", "application/json"),
     ("User-Agent", SseServer.USER_AGENT)]
  }

  /** The two servers send the same credentials, content type and user agent; only the version differs and `Accept` is missing. */
  lemma HeadersDifferFromSseOnlyInVersionAndAccept(env: Env, config: Config)
    ensures var sse := SseServer.Headers(env, config);
            Headers(env, config) == [sse[0], ("Braintree-Version", API_VERSION), sse[2], sse[4]]
            && sse[1] == ("Braintree-Version", SseServer.API_VERSION) && sse[3] == ("Accept", "application/json")
  {
  }

  /** The request the stdio server sends. */
  function StdioRequest(env: Env, config: Config, query: string, variables: Value): HttpRequest {
    HttpRequest(ApiUrl(config), Headers(env, config), Payload(query, variables))
  }

  /**
   * The detail of a status error as written: `response.json()` then the same lookups as
   * the SSE server, but only `JSONDecodeError` is caught. Any other exception (an empty
   * `errors` list, an entry without `message`, a parser failure of another kind)
   * escapes the request.
   */
  function StatusErrorDetailAsWritten(env: Env, body: string): (r: Res<string>)
    ensures env.parse(body).DecodeError? ==> r == Ok(RawDetail(body))
    ensures env.parse(body).Parsed? ==> r == StatusDetail(env.parse(body).value, body, env.render)
    ensures env.parse(body).ParseCrash? ==> r.Raise?
  {
    match env.parse(body)
    case DecodeError(_, _, _) => Ok(RawDetail(body))
    case ParseCrash(display) => Raise(Exc(ParserFailure, Str(display)))
    case Parsed(errResp) => StatusDetail(errResp, body, env.render)
  }

  /** An error body `{"errors": []}` makes the detail raise IndexError instead of quoting the body. */
  lemma EmptyErrorListEscapes(env: Env, body: string)
    requires env.parse(body) == SafeParse.Parsed(Dict([("errors", List([]))]))
    ensures StatusErrorDetailAsWritten(env, body) == Raise(Exc(IndexError, List([])))
    ensures StatusErrorDetail(env, body) == RawDetail(body)
  {
  }

  /**
   * The detail of a status error as intended: whatever fails while reading the error
   * body, the detail falls back to quoting the raw body, so the request always answers.
   */
  function StatusErrorDetail(env: Env, body: string): (detail: string)
    ensures StatusErrorDetailAsWritten(env, body).Ok? ==> detail == StatusErrorDetailAsWritten(env, body).value
    ensures StatusErrorDetailAsWritten(env, body).Raise? ==> detail == RawDetail(body)
  {
    match StatusErrorDetailAsWritten(env, body)
    case Ok(detail) => detail
    case Raise(_) => RawDetail(body)
  }

  /** The exceptions of `if "errors" in result: print(result["errors"])`, the only look the server takes at a 2xx body. */
  function LogGraphqlErrors(result: Value): (r: Res<()>)
    ensures r.Ok? <==> IsContainer(result) && (Has(result, "errors") ==> GetItem(result, "errors").Ok?)
  {
    var hasErrors :- In("errors", result);
    if hasErrors then
      var _ :- GetItem(result, "errors");
      Ok(())
    else Ok(())
  }

  /** What a request produced: the request posted, if any, and the result or the exception that escaped. */
  datatype Exchange = Exchange(sent: Option<HttpRequest>, result: Res<Value>)

  /** The 2xx outcomes whose parsed body the server hands back as it is. */
  predicate ReturnsParsedBody(env: Env, outcome: Attempt) {
    && outcome.Responded? && IsSuccess(outcome.status)
    && env.parse(outcome.body).Parsed? && LogGraphqlErrors(env.parse(outcome.body).value).Ok?
  }

  /**
   * The result the server makes of the one POST's outcome, as intended: the status-error
   * detail never raises. The caller gets the parsed 2xx body, or else an error document
   * whose only key is `errors`.
   */
  function RespondIntended(env: Env, outcome: Attempt): (v: Value)
    ensures ReturnsParsedBody(env, outcome) ==> v == env.parse(outcome.body).value
    ensures !ReturnsParsedBody(env, outcome) ==> v.Dict? && Keys(v.entries) == ["errors"]
  {
    match outcome
    case ConnectFailed(detail) => ErrorsDoc("HTTP Request Error connecting to Braintree: " + detail)
    case Broken(detail) => ErrorsDoc("An unexpected error occurred: " + detail)
    case Responded(status, _, _, body) =>
      if !IsSuccess(status) then
        ErrorsDoc("HTTP Status Error: " + Text.NatToString(status) + StatusErrorDetail(env, body))
      else match env.parse(body)
        case DecodeError(_, _, display) => ErrorsDoc("An unexpected error occurred: " + display)
        case ParseCrash(display) => ErrorsDoc("An unexpected error occurred: " + display)
        case Parsed(result) =>
          match LogGraphqlErrors(result)
          case Raise(e) => ErrorsDoc("An unexpected error occurred: " + env.render.excText(e))
          case Ok(_) => result
  }

  /** A status error whose error body makes the written detail raise. */
  predicate DetailEscapes(env: Env, outcome: Attempt) {
    outcome.Responded? && !IsSuccess(outcome.status) && StatusErrorDetailAsWritten(env, outcome.body).Raise?
  }

  /**
   * The result the server makes of the one POST's outcome, as written: it raises
   * exactly when the status-error detail does, with that exception, and otherwise
   * answers as intended.
   */
  function Respond(env: Env, outcome: Attempt): (r: Res<Value>)
    ensures r.Raise? <==> DetailEscapes(env, outcome)
    ensures r.Raise? ==> r.exc == StatusErrorDetailAsWritten(env, outcome.body).exc
    ensures r.Ok? ==> r.value == RespondIntended(env, outcome)
  {
    match outcome
    case ConnectFailed(detail) => Ok(ErrorsDoc("HTTP Request Error connecting to Braintree: " + detail))
    case Broken(detail) => Ok(ErrorsDoc("An unexpected error occurred: " + detail))
    case Responded(status, _, _, body) =>
      if !IsSuccess(status) then
        var detail :- StatusErrorDetailAsWritten(env, body);
        Ok(ErrorsDoc("HTTP Status Error: " + Text.NatToString(status) + detail))
      else match env.parse(body)
        case DecodeError(_, _, display) => Ok(ErrorsDoc("An unexpected error occurred: " + display))
        case ParseCrash(display) => Ok(ErrorsDoc("An unexpected error occurred: " + display))
        case Parsed(result) =>
          match LogGraphqlErrors(result)
          case Raise(e) => Ok(ErrorsDoc("An unexpected error occurred: " + env.render.excText(e)))
          case Ok(_) => Ok(result)
  }

  /** `make_braintree_request(query, variables)`: no POST without credentials, else exactly one. */
  function MakeRequest(env: Env, config: Config, query: string, variables: Value, outcome: Attempt): (x: Exchange)
    ensures x.sent.None? <==> !HasCredentials(config)
    ensures x.sent.None? ==> x.result == Ok(ErrorsDoc(MISSING_CREDENTIALS_MESSAGE))
    ensures x.sent.Some? ==> x.sent.value == StdioRequest(env, config, query, variables) && x.result == Respond(env, outcome)
  {
    if !HasCredentials(config) then Exchange(None, Ok(ErrorsDoc(MISSING_CREDENTIALS_MESSAGE)))
    else Exchange(Some(StdioRequest(env, config, query, variables)), Respond(env, outcome))
  }

  /** A 2xx JSON object is returned exactly as parsed, GraphQL errors included: nothing is retried or rewritten. */
  lemma SuccessfulObjectIsReturnedVerbatim(env: Env, status: nat, contentType: string, retryAfter: Option<string>, body: string)
    requires IsSuccess(status) && env.parse(body).Parsed? && env.parse(body).value.Dict?
    ensures Respond(env, Responded(status, contentType, retryAfter, body)) == Ok(env.parse(body).value)
  {
  }

  /** A 2xx body that is not JSON gives the parser's error text, with no context from the body. */
  lemma UnparsableSuccessIsUnexpected(env: Env, status: nat, contentType: string, retryAfter: Option<string>, body: string)
    requires IsSuccess(status) && env.parse(body).DecodeError?
    ensures Respond(env, Responded(status, contentType, retryAfter, body))
            == Ok(ErrorsDoc("An unexpected error occurred: " + env.parse(body).display))
  {
  }

  /** A status error whose body names a first GraphQL error reports that message. */
  lemma StatusErrorReportsFirstMessage(env: Env, status: nat, contentType: string, retryAfter: Option<string>, body: string)
    requires !IsSuccess(status) && env.parse(body).Parsed?
    requires var errResp := env.parse(body).value;
             errResp.Dict? && Lookup(errResp.entries, "errors").Some?
             && var errors := Lookup(errResp.entries, "errors").value;
             errors.List? && errors.items != [] && EntryMessage(errors.items[0]).Some?
    ensures var errors := Lookup(env.parse(body).value.entries, "errors").value;
            Respond(env, Responded(status, contentType, retryAfter, body))
            == Ok(ErrorsDoc("HTTP Status Error: " + Text.NatToString(status) + " - "
                            + PyStr(EntryMessage(errors.items[0]).value, env.render)))
  {
    StatusDetailPrefersErrorsList(env.parse(body).value, body, env.render);
    var errors := Lookup(env.parse(body).value.entries, "errors").value;
    var head := "HTTP Status Error: " + Text.NatToString(status);
    var message := PyStr(EntryMessage(errors.items[0]).value, env.render);
    assert StatusErrorDetailAsWritten(env, body) == Ok(" - " + message);
    assert head + (" - " + message) == head + " - " + message;
  }

  /** `json.dumps(result)`: the encoder's text for a serialisable value; anything else raises TypeError. */
  function JsonDumps(o: Value, render: Render): (r: Res<string>)
    ensures r.Ok? <==> Serialise.Serialisable(o)
    ensures r.Ok? ==> r.value == render.json(o)
  {
    if Serialise.Serialisable(o) then Ok(render.json(o)) else Raise(Exc(TypeError, o))
  }

  /** The reply of `braintree_ping` to a result; nothing is caught, so a failure escapes the tool. */
  function PingReply(result: Value, render: Render): (r: Res<string>)
    ensures ClassifyPing(result).Raise? ==> r == Raise(ClassifyPing(result).exc)
  {
    var verdict :- ClassifyPing(result);
    match verdict
    case ErrorsReported(joined) => Ok("Error pinging Braintree: " + joined)
    case Pong => Ok("pong")
    case Unexpected =>
      var text :- JsonDumps(result, render);
      Ok("Unexpected response from Braintree ping: " + text)
  }

  /** Where classification succeeds on a serialisable result, both servers give the same ping reply. */
  lemma PingRepliesAgreeWithSse(result: Value, render: Render)
    requires ClassifyPing(result).Ok? && Serialise.Serialisable(result)
    ensures PingReply(result, render) == Ok(SseServer.PingReply(result, render))
  {
  }

  /** The reply is "pong" exactly when the result is a dict without `errors` whose `data.ping` is "pong". */
  lemma PingReplyIsPongExactly(result: Value, render: Render)
    ensures PingReply(result, render) == Ok("pong") <==>
              && result.Dict?
              && Lookup(result.entries, "errors").None?
              && Lookup(result.entries, "data").Some?
              && Lookup(result.entries, "data").value.Dict?
              && Lookup(Lookup(result.entries, "data").value.entries, "ping") == Some(Str("pong"))
  {
    PongIffNoErrorsAndPingIsPong(result);
  }

  /** `braintree_ping`: the ping query, one POST, and the reply; an exception from the request escapes it. */
  function Ping(env: Env, config: Config, outcome: Attempt): (r: (Option<HttpRequest>, Res<string>))
    ensures r.0.None? <==> !HasCredentials(config)
    ensures r.0.Some? ==> r.0.value == StdioRequest(env, config, PING_QUERY, Leaf(NoneVal))
    ensures MakeRequest(env, config, PING_QUERY, Leaf(NoneVal), outcome).result.Raise? ==>
              r.1 == Raise(MakeRequest(env, config, PING_QUERY, Leaf(NoneVal), outcome).result.exc)
  {
    var x := MakeRequest(env, config, PING_QUERY, Leaf(NoneVal), outcome);
    (x.sent, match x.result
             case Raise(e) => Raise(e)
             case Ok(result) => PingReply(result, env.render))
  }

  /** A status 400 with the body `{"errors": []}` makes the ping itself raise IndexError. */
  lemma EmptyErrorListEscapesThePing(env: Env, config: Config, status: nat, contentType: string, retryAfter: Option<string>, body: string)
    requires HasCredentials(config) && 400 <= status < 500
    requires env.parse(body) == SafeParse.Parsed(Dict([("errors", List([]))]))
    ensures Ping(env, config, Responded(status, contentType, retryAfter, body)).1 == Raise(Exc(IndexError, List([])))
  {
    EmptyErrorListEscapes(env, body);
  }

  /** Without credentials the ping sends nothing and reports the missing credentials. */
  lemma PingWithoutCredentials(env: Env, config: Config, outcome: Attempt)
    requires !HasCredentials(config)
    ensures Ping(env, config, outcome) == (None, Ok("Error pinging Braintree: " + MISSING_CREDENTIALS_MESSAGE))
  {
    ErrorsDocIsReported(MISSING_CREDENTIALS_MESSAGE);
  }

  /** A 2xx reply `{"data": {"ping": "pong"}}` makes the ping answer "pong". */
  lemma PingPong(env: Env, config: Config, status: nat, contentType: string, retryAfter: Option<string>, body: string)
    requires HasCredentials(config) && IsSuccess(status)
    requires env.parse(body) == SafeParse.Parsed(Dict([("data", Dict([("ping", Str("pong"))]))]))
    ensures Ping(env, config, Responded(status, contentType, retryAfter, body)).1 == Ok("pong")
  {
    PongIffNoErrorsAndPingIsPong(Dict([("data", Dict([("ping", Str("pong"))]))]));
  }

  /** The legacy-ID query document, as the source writes it. */
  const LEGACY_ID_QUERY :=
    "\n        query IdFromLegacyId($legacyId: ID!, $type: LegacyIdType!) {\n            idFromLegacyId(legacyId: $legacyId, type: $type)\n        }\n    "

  /** `{"legacyId": legacy_id, "type": legacy_id_type}`. */
  function LegacyIdVariables(legacyId: string, idType: string): (v: Value)
    ensures v.Dict? && Keys(v.entries) == ["legacyId", "type"]
    ensures Lookup(v.entries, "legacyId") == Some(Str(legacyId)) && Lookup(v.entries, "type") == Some(Str(idType))
    ensures Truthy(v)
  {
    Dict([("legacyId", Str(legacyId)), ("type", Str(idType))])
  }

  /** The reply to a result whose shape is not recognised, carrying the result's JSON text. */
  function UnexpectedLegacyReply(result: Value, render: Render): Res<Value> {
    var text :- JsonDumps(result, render);
    Ok(Str("Unexpected response structure from Braintree: " + text))
  }

  /**
   * The reply of `braintree_get_graphql_id_from_legacy_id` to a result: the errors
   * first, then `data.idFromLegacyId`, returned as it is when truthy; nothing is caught.
   * A result that is not a container raises at once; once `errors` is there, the reply
   * is the error text or an exception, never the ID.
   */
  function LegacyIdReply(result: Value, legacyId: string, idType: string, render: Render): (r: Res<Value>)
    ensures !IsContainer(result) ==> r.Raise? && r.exc.kind == TypeError
    ensures r.Ok? && IsContainer(result) && Has(result, "errors") ==>
              r.value.Leaf? && r.value.scalar.StrVal? && Text.StartsWith(r.value.scalar.s, "Error retrieving GraphQL ID: ")
  {
    var hasErrors :- In("errors", result);
    if hasErrors then
      var errors :- GetItem(result, "errors");
      var joined :- JoinedMessages(errors);
      Ok(Str("Error retrieving GraphQL ID: " + joined))
    else if !Has(result, "data") then UnexpectedLegacyReply(result, render)
    else
      var data :- GetItem(result, "data");
      var hasId :- In("idFromLegacyId", data);
      if !hasId then UnexpectedLegacyReply(result, render)
      else
        var graphqlId :- GetItem(data, "idFromLegacyId");
        if Truthy(graphqlId) then Ok(graphqlId)
        else Ok(Str("No GraphQL ID found for legacy ID '" + legacyId + "' of type '" + idType + "'."))
  }

  /** The lookup result `{"data": {"idFromLegacyId": id}}` of a response without errors. */
  predicate AnswersLegacyId(result: Value, graphqlId: Value) {
    && result.Dict? && Lookup(result.entries, "errors").None?
    && Lookup(result.entries, "data").Some? && Lookup(result.entries, "data").value.Dict?
    && Lookup(Lookup(result.entries, "data").value.entries, "idFromLegacyId") == Some(graphqlId)
  }

  /** A truthy ID is returned as it is. */
  lemma LegacyIdFound(result: Value, graphqlId: Value, legacyId: string, idType: string, render: Render)
    requires AnswersLegacyId(result, graphqlId) && Truthy(graphqlId)
    ensures LegacyIdReply(result, legacyId, idType, render) == Ok(graphqlId)
  {
  }

  /** A null, empty or false ID is reported as not found, naming the legacy ID and its type. */
  lemma LegacyIdNotFound(result: Value, graphqlId: Value, legacyId: string, idType: string, render: Render)
    requires AnswersLegacyId(result, graphqlId) && !Truthy(graphqlId)
    ensures LegacyIdReply(result, legacyId, idType, render)
            == Ok(Str("No GraphQL ID found for legacy ID '" + legacyId + "' of type '" + idType + "'."))
  {
  }

  /** Errors are reported before any data is looked at. */
  lemma LegacyErrorsComeFirst(result: Value, legacyId: string, idType: string, render: Render)
    requires result.Dict? && Lookup(result.entries, "errors").Some?
    requires var errors := Lookup(result.entries, "errors").value;
             errors.List? && forall i :: 0 <= i < |errors.items| ==> WellFormedEntry(errors.items[i])
    ensures LegacyIdReply(result, legacyId, idType, render)
            == Ok(Str("Error retrieving GraphQL ID: " + Text.Join(", ", MessageTexts(Lookup(result.entries, "errors").value.items))))
  {
    JoinedMessagesOfWellFormed(Lookup(result.entries, "errors").value.items);
  }

  /** `braintree_get_graphql_id_from_legacy_id`: the lookup query with the two variables, one POST, and the reply. */
  function GetGraphqlIdFromLegacyId(env: Env, config: Config, legacyId: string, idType: string, outcome: Attempt)
    : (r: (Option<HttpRequest>, Res<Value>))
    ensures HasCredentials(config) ==>
              r.0 == Some(StdioRequest(env, config, LEGACY_ID_QUERY, LegacyIdVariables(legacyId, idType)))
    ensures HasCredentials(config) && r.0.Some? ==>
              Lookup(r.0.value.payload.entries, "variables") == Some(LegacyIdVariables(legacyId, idType))
  {
    var x := MakeRequest(env, config, LEGACY_ID_QUERY, LegacyIdVariables(legacyId, idType), outcome);
    (x.sent, match x.result
             case Raise(e) => Raise(e)
             case Ok(result) => LegacyIdReply(result, legacyId, idType, env.render))
  }

  /** Without credentials the lookup sends nothing and reports the missing credentials. */
  lemma LegacyIdWithoutCredentials(env: Env, config: Config, legacyId: string, idType: string, outcome: Attempt)
    requires !HasCredentials(config)
    ensures GetGraphqlIdFromLegacyId(env, config, legacyId, idType, outcome)
            == (None, Ok(Str("Error retrieving GraphQL ID: " + MISSING_CREDENTIALS_MESSAGE)))
  {
    var entry := Dict([("message", Str(MISSING_CREDENTIALS_MESSAGE))]);
    assert WellFormedEntry(entry);
    JoinedMessagesOfWellFormed([entry]);
  }
}
