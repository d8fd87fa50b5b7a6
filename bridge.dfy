/**
 * What the two servers (braintree_server.py over stdio, braintree_sse_server.py over SSE)
 * share: configuration and endpoint selection, the outcome of one HTTP attempt, the
 * request payload, the detail of an HTTP status error and the classification of a
 * ping reply.
 */
module Bridge {
  import opened Wrappers
  import opened Python
  import Text
  import SafeParse

  /** The process configuration read from the environment (`None` when a variable is unset). */
  datatype Config = Config(
    merchantId: Option<string>,
    publicKey: Option<string>,
    privateKey: Option<string>,
    environment: Option<string>)

  const SANDBOX_URL := "https://payments.sandbox.braintree-api.com/graphql"
  const PRODUCTION_URL := "https://payments.braintree-api.com/graphql"
  const MISSING_CREDENTIALS_MESSAGE := "Server missing Braintree API credentials."

  /** An environment variable that is set to a non-empty value (Python truthiness of `os.getenv`). */
  predicate Present(v: Option<string>) {
    v.Some? && v.value != ""
  }

  /**
   * `all([BRAINTREE_PUBLIC_KEY, BRAINTREE_PRIVATE_KEY])`: the check each request makes
   * first. A key set to the empty string counts as missing.
   */
  predicate HasCredentials(config: Config)
    ensures config.publicKey == Some("") || config.privateKey == Some("") ==> !HasCredentials(config)
    ensures config.publicKey.None? || config.privateKey.None? ==> !HasCredentials(config)
  {
    Present(config.publicKey) && Present(config.privateKey)
  }

  /** The merchant ID plays no part in the check. */
  lemma CredentialsIgnoreMerchantId(config: Config, merchantId: Option<string>)
    ensures HasCredentials(config.(merchantId := merchantId)) == HasCredentials(config)
  {
  }

  /** `BRAINTREE_ENVIRONMENT`, which defaults to "sandbox" when unset. */
  function Environment(config: Config): string {
    config.environment.GetOr("sandbox")
  }

  /** `BRAINTREE_API_URL`: the sandbox endpoint exactly when the environment is "sandbox". */
  function ApiUrl(config: Config): (url: string)
    ensures url == SANDBOX_URL <==> Environment(config) == "sandbox"
    ensures url == PRODUCTION_URL <==> Environment(config) != "sandbox"
  {
    if Environment(config) == "sandbox" then SANDBOX_URL else PRODUCTION_URL
  }

  /**
   * Opaque collaborators: the JSON parser, the Python renderings and Base64; `orjson`
   * says whether `json_lib` is orjson (installed) or the standard `json`.
   */
  datatype Env = Env(parse: string -> SafeParse.ParseOutcome, render: Render, base64: string -> string, orjson: bool)

  /**
   * What one POST gave: a response (status, `content-type` header or "", `retry-after`
   * header, body text), an `httpx.RequestError` (connection failure or the 30 s timeout),
   * or any other exception raised while sending.
   */
  datatype Attempt =
    | Responded(status: nat, contentType: string, retryAfter: Option<string>, body: string)
    | ConnectFailed(detail: string)
    | Broken(detail: string)

  /** `response.raise_for_status()` lets exactly the 2xx statuses through. */
  predicate IsSuccess(status: nat) {
    200 <= status < 300
  }

  /** An HTTP request as the bridge sends it. */
  datatype HttpRequest = HttpRequest(url: string, headers: seq<(string, string)>, payload: Value)

  /** `{"query": query}`, plus `"variables"` when the variables are truthy. */
  function Payload(query: string, variables: Value): (p: Value)
    ensures p.Dict? && Lookup(p.entries, "query") == Some(Str(query))
    ensures Lookup(p.entries, "variables") == if Truthy(variables) then Some(variables) else None
    ensures Keys(p.entries) == if Truthy(variables) then ["query", "variables"] else ["query"]
  {
    Dict([("query", Str(query))] + if Truthy(variables) then [("variables", variables)] else [])
  }

  /** The Basic authentication header value: `"Basic " + base64(public_key:private_key)`. */
  function Authorization(env: Env, config: Config): string {
    "Basic " + env.base64(config.publicKey.GetOr("") + ":" + config.privateKey.GetOr(""))
  }

  /** `" - Response: " + text[:200]`, the fallback detail quoting the raw body. */
  function RawDetail(body: string): string {
    " - Response: " + Text.Prefix(body, SafeParse.CONTEXT_LENGTH)
  }

  /**
   * The detail appended to "HTTP Status Error: <code>" once the error body has been
   * parsed into `errResp`: `errors[0].message`, else `error.message`, else the raw body.
   * Any step may raise (an empty `errors` list, an entry without `message`, ...); a
   * body that parsed to a number or null raises at the first `in`. Whatever answers
   * is appended after " - ".
   */
  function StatusDetail(errResp: Value, body: string, render: Render): (r: Res<string>)
    ensures !IsContainer(errResp) ==> r.Raise? && r.exc.kind == TypeError
    ensures r.Ok? ==> Text.StartsWith(r.value, " - ")
  {
    var hasErrors :- In("errors", errResp);
    if hasErrors then
      var errors :- GetItem(errResp, "errors");
      var first :- GetIndex(errors, 0);
      var message :- GetItem(first, "message");
      Ok(" - " + PyStr(message, render))
    else
      // `errResp` answered `in` once, so it is a container and answers again without raising.
      if !Has(errResp, "error") then Ok(RawDetail(body))
      else
        var error :- GetItem(errResp, "error");
        var hasMessage :- In("message", error);
        if !hasMessage then Ok(RawDetail(body))
        else
          var message :- GetItem(error, "message");
          Ok(" - " + PyStr(message, render))
  }

  /** The `message` of a GraphQL error entry, if it is a dict holding one. */
  function EntryMessage(entry: Value): Option<Value> {
    if entry.Dict? then Lookup(entry.entries, "message") else None
  }

  /** The detail prefers the first GraphQL error message ... */
  lemma StatusDetailPrefersErrorsList(errResp: Value, body: string, render: Render)
    requires errResp.Dict? && Lookup(errResp.entries, "errors").Some?
    requires var errors := Lookup(errResp.entries, "errors").value;
             errors.List? && errors.items != [] && EntryMessage(errors.items[0]).Some?
    ensures StatusDetail(errResp, body, render)
            == Ok(" - " + PyStr(EntryMessage(Lookup(errResp.entries, "errors").value.items[0]).value, render))
  {
  }

  /** An error document of the kind `safe_json_parse` builds is reported through its message. */
  lemma StatusDetailOfErrorsDoc(message: string, context: string, body: string, render: Render)
    ensures StatusDetail(ErrorsDocWithContext(message, context), body, render) == Ok(" - " + message)
  {
    StatusDetailPrefersErrorsList(ErrorsDocWithContext(message, context), body, render);
  }

  /** ... then the message of a single `error` object ... */
  lemma StatusDetailFallsBackToErrorObject(errResp: Value, body: string, render: Render)
    requires errResp.Dict? && Lookup(errResp.entries, "errors").None?
    requires Lookup(errResp.entries, "error").Some? && EntryMessage(Lookup(errResp.entries, "error").value).Some?
    ensures StatusDetail(errResp, body, render)
            == Ok(" - " + PyStr(EntryMessage(Lookup(errResp.entries, "error").value).value, render))
  {
  }

  /** ... and otherwise quotes the first 200 characters of the body. */
  lemma StatusDetailQuotesBodyOtherwise(errResp: Value, body: string, render: Render)
    requires errResp.Dict? && Lookup(errResp.entries, "errors").None? && Lookup(errResp.entries, "error").None?
    ensures StatusDetail(errResp, body, render) == Ok(" - Response: " + Text.Prefix(body, 200))
  {
  }

  /**
   * `", ".join([err.get("message", "Unknown error") for err in errors])`. A value that
   * cannot be iterated raises; so does a non-empty dict, whose keys are iterated and have
   * no `.get`; an empty list joins to the empty text.
   */
  function JoinedMessages(errors: Value): (r: Res<string>)
    ensures !IsContainer(errors) ==> r.Raise?
    ensures errors.Dict? && errors.entries != [] ==> r.Raise?
    ensures errors == List([]) ==> r == Ok("")
  {
    var entries :- Iterate(errors);
    var messages :- MessagesOf(entries);
    var texts :- AllStrings(messages);
    Ok(Text.Join(", ", texts))
  }

  /** `[err.get("message", "Unknown error") for err in entries]`. */
  function MessagesOf(entries: seq<Value>): (r: Res<seq<Value>>)
    ensures r.Ok? ==> |r.value| == |entries|
  {
    if entries == [] then Ok([])
    else
      var first :- DictGet(entries[0], "message", Str("Unknown error"));
      var rest :- MessagesOf(entries[1..]);
      Ok([first] + rest)
  }

  /** The strings `str.join` accepts; the first non-string raises TypeError. */
  function AllStrings(values: seq<Value>): (r: Res<seq<string>>)
    ensures r.Ok? ==> |r.value| == |values|
  {
    if values == [] then Ok([])
    else if values[0].Leaf? && values[0].scalar.StrVal? then
      var rest :- AllStrings(values[1..]);
      Ok([values[0].scalar.s] + rest)
    else Raise(Exc(TypeError, values[0]))
  }

  /** A GraphQL error entry as the API sends it: a dict whose `message`, if present, is a string. */
  predicate WellFormedEntry(entry: Value) {
    entry.Dict? &&
    match Lookup(entry.entries, "message")
    case None => true
    case Some(m) => m.Leaf? && m.scalar.StrVal?
  }

  /** `entry.get("message", default)` of a well-formed entry, as text. */
  function MessageOr(entry: Value, default: string): string
    requires WellFormedEntry(entry)
  {
    match Lookup(entry.entries, "message")
    case None => default
    case Some(m) => m.scalar.s
  }

  /** The texts well-formed entries contribute, in order. */
  function MessageTexts(entries: seq<Value>): (ts: seq<string>)
    requires forall i :: 0 <= i < |entries| ==> WellFormedEntry(entries[i])
    ensures |ts| == |entries|
    ensures forall i :: 0 <= i < |entries| ==> ts[i] == MessageOr(entries[i], "Unknown error")
  {
    if entries == [] then [] else [MessageOr(entries[0], "Unknown error")] + MessageTexts(entries[1..])
  }

  /** For well-formed entries the join never raises and lists every message, in order, separated by ", ". */
  lemma {:induction false} JoinedMessagesOfWellFormed(entries: seq<Value>)
    requires forall i :: 0 <= i < |entries| ==> WellFormedEntry(entries[i])
    ensures JoinedMessages(List(entries)) == Ok(Text.Join(", ", MessageTexts(entries)))
  {
    MessagesOfWellFormed(entries);
    AllStringsOfStrings(MessagesOf(entries).value, MessageTexts(entries));
  }

  /** Every well-formed entry yields its message, or "Unknown error" when it has none. */
  lemma {:induction false} MessagesOfWellFormed(entries: seq<Value>)
    requires forall i :: 0 <= i < |entries| ==> WellFormedEntry(entries[i])
    ensures MessagesOf(entries).Ok?
    ensures forall i :: 0 <= i < |entries| ==> MessagesOf(entries).value[i] == Str(MessageOr(entries[i], "Unknown error"))
  {
    if entries != [] {
      MessagesOfWellFormed(entries[1..]);
      assert DictGet(entries[0], "message", Str("Unknown error")) == Ok(Str(MessageOr(entries[0], "Unknown error")));
      var rest := MessagesOf(entries[1..]).value;
      assert MessagesOf(entries).value == [Str(MessageOr(entries[0], "Unknown error"))] + rest;
      forall i | 1 <= i < |entries|
        ensures MessagesOf(entries).value[i] == Str(MessageOr(entries[i], "Unknown error"))
      {
        assert entries[i] == entries[1..][i - 1];
      }
    }
  }

  /** A list of string values passes `str.join`'s type check and yields those strings. */
  lemma {:induction false} AllStringsOfStrings(values: seq<Value>, texts: seq<string>)
    requires |values| == |texts| && forall i :: 0 <= i < |values| ==> values[i] == Str(texts[i])
    ensures AllStrings(values) == Ok(texts)
  {
    if values != [] {
      AllStringsOfStrings(values[1..], texts[1..]);
      assert values[0] == Str(texts[0]);
      assert texts == [texts[0]] + texts[1..];
    }
  }

  /** How a ping reply is read: errors reported, "pong", or an unexpected shape. */
  datatype PingVerdict = ErrorsReported(joined: string) | Pong | Unexpected

  /** The ping query document, as the source writes it. */
  const PING_QUERY := "\n        query Ping {\n            ping\n        }\n    "

  /**
   * The classification both ping tools make: `errors` is looked at first (its messages
   * joined), then `data.ping == "pong"`; anything else is unexpected. Python may raise
   * on the way (a `data` that is null, an `errors` value that cannot be iterated, ...).
   * Errors are reported exactly when `errors` is there, and then nothing else is looked at.
   */
  function ClassifyPing(result: Value): (r: Res<PingVerdict>)
    ensures !IsContainer(result) ==> r.Raise? && r.exc.kind == TypeError
    ensures IsContainer(result) && Has(result, "errors") ==> r.Raise? || r.value.ErrorsReported?
    ensures r.Ok? && r.value.ErrorsReported? ==> IsContainer(result) && Has(result, "errors")
  {
    var hasErrors :- In("errors", result);
    if hasErrors then
      var errors :- GetItem(result, "errors");
      var joined :- JoinedMessages(errors);
      Ok(ErrorsReported(joined))
    else
      if !Has(result, "data") then Ok(Unexpected)
      else
        var data :- GetItem(result, "data");
        var ping :- DictGet(data, "ping", Leaf(NoneVal));
        Ok(if ping == Str("pong") then Pong else Unexpected)
  }

  /** An error document, such as the one reporting missing credentials, is reported with its message. */
  lemma ErrorsDocIsReported(message: string)
    ensures ClassifyPing(ErrorsDoc(message)) == Ok(ErrorsReported(message))
  {
    var entry := Dict([("message", Str(message))]);
    assert WellFormedEntry(entry);
    JoinedMessagesOfWellFormed([entry]);
  }

  /** "pong" is reported exactly for a dict without `errors` whose `data` is a dict with `ping` equal to "pong". */
  lemma PongIffNoErrorsAndPingIsPong(result: Value)
    ensures ClassifyPing(result) == Ok(Pong) <==>
              && result.Dict?
              && Lookup(result.entries, "errors").None?
              && Lookup(result.entries, "data").Some?
              && Lookup(result.entries, "data").value.Dict?
              && Lookup(Lookup(result.entries, "data").value.entries, "ping") == Some(Str("pong"))
  {
    if ClassifyPing(result) == Ok(Pong) {
      assert In("errors", result) == Ok(false);
      assert In("data", result) == Ok(true);
      assert GetItem(result, "data").Ok?;
    }
  }

  /** An `errors` list of well-formed entries wins over any `data`: its messages are reported, joined. */
  lemma PingErrorsComeFirst(result: Value)
    requires result.Dict? && Lookup(result.entries, "errors").Some?
    requires var errors := Lookup(result.entries, "errors").value;
             errors.List? && forall i :: 0 <= i < |errors.items| ==> WellFormedEntry(errors.items[i])
    ensures ClassifyPing(result)
            == Ok(ErrorsReported(Text.Join(", ", MessageTexts(Lookup(result.entries, "errors").value.items))))
  {
    JoinedMessagesOfWellFormed(Lookup(result.entries, "errors").value.items);
  }
}
