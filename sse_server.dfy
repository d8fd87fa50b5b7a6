/**
 * The SSE server (braintree_sse_server.py): the retrying GraphQL request, the query
 * validation of the execute tool, and the two tools built on the request.
 *
 * The network is an oracle: `outcomes[k]` is what the (k+1)-th POST gives. A request is
 * specified by `Decide`, the verdict on one attempt, `Verdicts`, the verdict on each
 * possible POST, `Follow`, which follows those verdicts until one finishes, and `Request`,
 * the whole request; `MakeRequest` is the loop itself, proved to follow them.
 */
module SseServer {
  import opened Wrappers
  import opened Python
  import Text
  import SafeParse
  import Serialise
  import opened Bridge

  const API_VERSION := "2025-04-01"
  const USER_AGENT := "MCPBraintreeServer/0.1.0"
  const UNKNOWN_FAILURE_MESSAGE := "Failed after retries with unknown error"
  /** The lower-case phrases that mark a GraphQL error as worth retrying. */
  const TRANSIENT_PHRASES := ["rate limit", "too many requests", "timeout", "temporary"]

  /** The headers of every POST, in the order the source builds them. */
  function Headers(env: Env, config: Config): (hs: seq<(string, string)>)
    ensures |hs| == 5 && hs[0] == ("Authorization", Authorization(env, config))
    ensures hs[1] == ("Braintree-Version", API_VERSION) && hs[3] == ("Accept", "application/json")
  {
    [("Authorization", Authorization(env, config)),
     ("Braintree-Version", API_VERSION),
     ("Content-Type", "application/json"),
     ("Accept", "application/json"),
     ("User-Agent", USER_AGENT)]
  }

  /** The request every attempt sends: same endpoint, headers and payload each time. */
  function SseRequest(env: Env, config: Config, query: string, variables: Value): HttpRequest {
    HttpRequest(ApiUrl(config), Headers(env, config), Payload(query, variables))
  }

  /** `2 ** n`: the backoff before the (n+1)-th retry, the wait starting at 1 s and doubling. */
  function Pow2(n: nat): nat {
    if n == 0 then 1 else 2 * Pow2(n - 1)
  }

  /** The backoff starts at 1 s and each retry doubles it. */
  lemma Pow2Doubles(n: nat)
    ensures Pow2(0) == 1 && Pow2(n + 1) == 2 * Pow2(n)
  {
  }

  /** A lower-cased message mentions one of the transient phrases. */
  predicate IsTransientMessage(lowered: string) {
    exists i :: 0 <= i < |TRANSIENT_PHRASES| && Text.Contains(lowered, TRANSIENT_PHRASES[i])
  }

  /**
   * The scan over the GraphQL errors: each entry's `message` (default "") is
   * lower-cased and checked for a transient phrase; the scan stops at the first transient one. An entry that
   * is not a dict, or a message that is not a string, raises.
   */
  function AnyTransient(entries: seq<Value>): (r: Res<bool>)
    ensures r == Ok(true) ==>
              exists i :: 0 <= i < |entries| && entries[i].Dict?
                          && var m := Lookup(entries[i].entries, "message");
                          m.Some? && m.value.Leaf? && m.value.scalar.StrVal?
                          && IsTransientMessage(Text.Lower(m.value.scalar.s))
  {
    if entries == [] then Ok(false)
    else
      var message :- DictGet(entries[0], "message", Str(""));
      var lowered :- LowerOf(message);
      if IsTransientMessage(lowered) then Ok(true)
      else
        var r := AnyTransient(entries[1..]);
        assert r == Ok(true) ==> exists i :: 1 <= i < |entries| && entries[i] == entries[1..][i - 1]
          && entries[i].Dict?
          && var m := Lookup(entries[i].entries, "message");
          m.Some? && m.value.Leaf? && m.value.scalar.StrVal? && IsTransientMessage(Text.Lower(m.value.scalar.s));
        r
  }

  /** A well-formed entry whose message (or "" when it has none) is transient. */
  predicate TransientEntry(entry: Value)
    requires WellFormedEntry(entry)
  {
    IsTransientMessage(Text.Lower(MessageOr(entry, "")))
  }

  /** On well-formed entries the scan never raises and answers whether some entry is transient. */
  lemma {:induction false} AnyTransientOfWellFormed(entries: seq<Value>)
    requires forall i :: 0 <= i < |entries| ==> WellFormedEntry(entries[i])
    ensures AnyTransient(entries) == Ok(exists i :: 0 <= i < |entries| && TransientEntry(entries[i]))
  {
    if entries != [] {
      AnyTransientOfWellFormed(entries[1..]);
      assert DictGet(entries[0], "message", Str("")) == Ok(Str(MessageOr(entries[0], "")));
      if !TransientEntry(entries[0]) {
        assert (exists i :: 0 <= i < |entries| && TransientEntry(entries[i]))
               == (exists i :: 0 <= i < |entries[1..]| && TransientEntry(entries[1..][i])) by {
          forall i | 0 <= i < |entries| && TransientEntry(entries[i])
            ensures exists j :: 0 <= j < |entries[1..]| && TransientEntry(entries[1..][j])
          {
            assert i != 0 && entries[1..][i - 1] == entries[i];
          }
        }
      }
    }
  }

  /**
   * What a 2xx body says about retrying: `"errors" in result`, then `result["errors"]`
   * (printed, and equal to `result.get("errors", [])`), iterated and scanned. Any step may
   * raise. A retry is asked for only by a dict that holds `errors`, and a body without
   * `errors` is accepted as it is.
   */
  function InspectBody(result: Value): (r: Res<bool>)
    ensures !IsContainer(result) ==> r.Raise? && r.exc.kind == TypeError
    ensures IsContainer(result) && !Has(result, "errors") ==> r == Ok(false)
    ensures r == Ok(true) ==> result.Dict? && Lookup(result.entries, "errors").Some?
  {
    var hasErrors :- In("errors", result);
    if !hasErrors then Ok(false)
    else
      var errors :- GetItem(result, "errors");
      var entries :- Iterate(errors);
      AnyTransient(entries)
  }

  /** `float(retry_after)` when the `retry-after` header is a string of digits, else the backoff. */
  function RetryAfterWait(retryAfter: Option<string>, backoff: nat): (w: nat)
    ensures retryAfter.Some? && Text.IsDigits(retryAfter.value) ==> w == Text.DigitsValue(retryAfter.value)
    ensures !(retryAfter.Some? && Text.IsDigits(retryAfter.value)) ==> w == backoff
  {
    if retryAfter.Some? && retryAfter.value != "" && Text.IsDigits(retryAfter.value)
    then Text.DigitsValue(retryAfter.value)
    else backoff
  }

  /**
   * The detail of a status error: the error body goes through `safe_json_parse`; anything
   * raised falls back to the raw body, so the detail always answers, and after " - ".
   */
  function StatusErrorDetail(env: Env, contentType: string, body: string): (detail: string)
    ensures Text.StartsWith(detail, " - ")
    ensures StatusDetail(SafeParse.SafeJsonParse(env.parse, Str(body), contentType), body, env.render).Raise? ==>
              detail == RawDetail(body)
  {
    match StatusDetail(SafeParse.SafeJsonParse(env.parse, Str(body), contentType), body, env.render)
    case Ok(detail) => detail
    case Raise(_) => RawDetail(body)
  }

  /** An error body that is not JSON is reported through the parser's message, naming the offset. */
  lemma UnparsableErrorBodyReportsDecodeError(env: Env, contentType: string, body: string)
    requires body != "" && !SafeParse.LooksLikeHtml(body, contentType) && env.parse(body).DecodeError?
    ensures StatusErrorDetail(env, contentType, body)
            == " - " + ("Invalid JSON response: " + env.parse(body).msg + " at position " + Text.NatToString(env.parse(body).pos))
  {
    var e := env.parse(body);
    var m := "Invalid JSON response: " + e.msg + " at position " + Text.NatToString(e.pos);
    var v := SafeParse.SafeJsonParse(env.parse, Str(body), contentType);
    assert v == ErrorsDocWithContext(m, SafeParse.Context(body));
    StatusDetailOfErrorsDoc(m, SafeParse.Context(body), body, env.render);
  }

  /** What to do after one attempt: wait and try again, or stop with a result. */
  datatype Decision = Retry(wait: nat) | Finish(result: Value)

  /** The outcomes a retry is made for, when retries are left. */
  predicate Retryable(env: Env, outcome: Attempt) {
    match outcome
    case ConnectFailed(_) => true
    case Broken(_) => true
    case Responded(status, contentType, _, body) =>
      || status >= 500
      || status == 429
      || (IsSuccess(status) && InspectBody(SafeParse.SafeJsonParse(env.parse, Str(body), contentType)) != Ok(false))
  }

  /** The wait before the retry: the backoff, or the `retry-after` seconds of a 429. */
  function ExpectedWait(outcome: Attempt, backoff: nat): nat {
    if outcome.Responded? && outcome.status == 429 then RetryAfterWait(outcome.retryAfter, backoff) else backoff
  }

  /**
   * The body of the retry loop for one attempt, made when `attempts` retries have been
   * made and the current backoff is `backoff`. A 5xx status answered with retries left is
   * retried before `raise_for_status`, so the handler's own 5xx retry never fires and is
   * not modelled.
   */
  function Decide(env: Env, outcome: Attempt, attempts: nat, maxRetries: int, backoff: nat): (d: Decision)
    ensures d.Retry? ==> attempts < maxRetries && d.wait == ExpectedWait(outcome, backoff)
  {
    match outcome
    case ConnectFailed(detail) =>
      if attempts < maxRetries then Retry(backoff)
      else Finish(ErrorsDoc("HTTP Request Error connecting to Braintree: " + detail))
    case Broken(detail) =>
      if attempts < maxRetries then Retry(backoff)
      else Finish(ErrorsDoc("An unexpected error occurred: " + detail))
    case Responded(status, contentType, retryAfter, body) =>
      if status >= 500 && attempts < maxRetries then Retry(backoff)
      else if !IsSuccess(status) then
        if status == 429 && attempts < maxRetries then Retry(RetryAfterWait(retryAfter, backoff))
        else Finish(ErrorsDoc("HTTP Status Error: " + Text.NatToString(status)
                              + StatusErrorDetail(env, contentType, body)))
      else
        var result := SafeParse.SafeJsonParse(env.parse, Str(body), contentType);
        match InspectBody(result)
        case Raise(e) =>
          if attempts < maxRetries then Retry(backoff)
          else Finish(ErrorsDoc("An unexpected error occurred: " + env.render.excText(e)))
        case Ok(retryable) =>
          if retryable && attempts < maxRetries then Retry(backoff) else Finish(result)
  }

  /** An attempt is retried exactly when retries are left and its outcome is one the source retries. */
  lemma DecideRetriesExactlyRetryable(env: Env, outcome: Attempt, attempts: nat, maxRetries: int, backoff: nat)
    ensures Decide(env, outcome, attempts, maxRetries, backoff).Retry? <==> attempts < maxRetries && Retryable(env, outcome)
  {
  }

  /** The number of POSTs made, the waits between them, and the result returned. */
  datatype Trace = Trace(posts: nat, waits: seq<nat>, result: Value)

  /** Verdicts that can be followed to the end: a retry is never the last one. */
  predicate Followable(ds: seq<Decision>) {
    forall k :: 0 <= k < |ds| && ds[k].Retry? ==> k + 1 < |ds|
  }

  /** The verdict on the (k+1)-th POST, decided after k retries with the backoff `2 ** k`. */
  function Verdict(env: Env, outcomes: seq<Attempt>, k: nat, maxRetries: int): Decision
    requires k < |outcomes|
  {
    Decide(env, outcomes[k], k, maxRetries, Pow2(k))
  }

  /** The verdict on each POST the loop may make with `max_retries` retries. */
  function Verdicts(env: Env, maxRetries: nat, outcomes: seq<Attempt>): (ds: seq<Decision>)
    requires maxRetries < |outcomes|
    ensures |ds| == maxRetries + 1 && Followable(ds)
    ensures forall k :: 0 <= k < |ds| ==> ds[k] == Verdict(env, outcomes, k, maxRetries)
  {
    seq(maxRetries + 1, k requires 0 <= k <= maxRetries => Verdict(env, outcomes, k, maxRetries))
  }

  /** The loop from the (from+1)-th POST on: retry while the verdicts say so, and stop at the first that finishes. */
  function Follow(ds: seq<Decision>, from: nat): (t: Trace)
    requires from < |ds| && Followable(ds)
    decreases |ds| - from
    ensures 1 <= t.posts <= |ds| - from
    ensures |t.waits| == t.posts - 1
  {
    match ds[from]
    case Finish(result) => Trace(1, [], result)
    case Retry(wait) =>
      var rest := Follow(ds, from + 1);
      Trace(rest.posts + 1, [wait] + rest.waits, rest.result)
  }

  /** Every verdict followed but the last is a retry, whose wait is recorded; the last one finishes with the result. */
  lemma {:induction false} FollowRetriesThenFinishes(ds: seq<Decision>, from: nat)
    requires from < |ds| && Followable(ds)
    ensures var t := Follow(ds, from);
            && (forall k :: 0 <= k < |t.waits| ==> ds[from + k] == Retry(t.waits[k]))
            && ds[from + t.posts - 1] == Finish(t.result)
    decreases |ds| - from
  {
    if ds[from].Retry? {
      FollowRetriesThenFinishes(ds, from + 1);
      var t := Follow(ds, from);
      var rest := Follow(ds, from + 1);
      assert t.waits == [ds[from].wait] + rest.waits;
      forall k | 1 <= k < |t.waits| ensures ds[from + k] == Retry(t.waits[k]) {
        assert t.waits[k] == rest.waits[k - 1];
        assert from + k == from + 1 + (k - 1);
      }
    }
  }

  /**
   * `make_braintree_request(query, variables, max_retries)`: missing credentials are
   * reported without a POST; a negative `max_retries` skips the loop; otherwise the
   * loop follows the verdicts, making at most `max_retries + 1` POSTs.
   */
  function Request(env: Env, config: Config, maxRetries: int, outcomes: seq<Attempt>): (t: Trace)
    requires maxRetries < |outcomes|
    ensures !HasCredentials(config) ==> t == Trace(0, [], ErrorsDoc(MISSING_CREDENTIALS_MESSAGE))
    ensures HasCredentials(config) && maxRetries < 0 ==> t == Trace(0, [], ErrorsDoc(UNKNOWN_FAILURE_MESSAGE))
    ensures HasCredentials(config) && maxRetries >= 0 ==> 1 <= t.posts <= maxRetries + 1 && |t.waits| == t.posts - 1
  {
    if !HasCredentials(config) then Trace(0, [], ErrorsDoc(MISSING_CREDENTIALS_MESSAGE))
    else if maxRetries < 0 then Trace(0, [], ErrorsDoc(UNKNOWN_FAILURE_MESSAGE))
    else Follow(Verdicts(env, maxRetries, outcomes), 0)
  }

  /**
   * Every POST of a request but the last is retried, after the wait its verdict names;
   * the last one's verdict finishes the request with its result.
   */
  lemma RequestRetriesThenFinishes(env: Env, config: Config, maxRetries: int, outcomes: seq<Attempt>)
    requires HasCredentials(config) && 0 <= maxRetries < |outcomes|
    ensures var t := Request(env, config, maxRetries, outcomes);
            && (forall k :: 0 <= k < |t.waits| ==> Verdict(env, outcomes, k, maxRetries) == Retry(t.waits[k]))
            && Verdict(env, outcomes, t.posts - 1, maxRetries) == Finish(t.result)
  {
    var ds := Verdicts(env, maxRetries, outcomes);
    FollowRetriesThenFinishes(ds, 0);
    var t := Follow(ds, 0);
    forall k | 0 <= k < |t.waits| ensures Verdict(env, outcomes, k, maxRetries) == Retry(t.waits[k]) {
      assert ds[0 + k] == ds[k];
    }
    assert ds[0 + t.posts - 1] == ds[t.posts - 1];
  }

  /** The k-th wait of a request is the backoff `2 ** k`, or the `retry-after` of a 429: the backoff doubles after every retry. */
  lemma RequestWaitsAreExpected(env: Env, config: Config, maxRetries: int, outcomes: seq<Attempt>)
    requires HasCredentials(config) && 0 <= maxRetries < |outcomes|
    ensures var t := Request(env, config, maxRetries, outcomes);
            forall k :: 0 <= k < |t.waits| ==> t.waits[k] == ExpectedWait(outcomes[k], Pow2(k))
  {
    RequestRetriesThenFinishes(env, config, maxRetries, outcomes);
  }

  /** A request whose every POST fails to connect makes all `max_retries + 1` POSTs, backing off 1, 2, 4, ... seconds, and reports the last failure. */
  lemma ConnectionFailuresExhaustRetries(env: Env, config: Config, maxRetries: int, outcomes: seq<Attempt>)
    requires HasCredentials(config) && 0 <= maxRetries < |outcomes|
    requires forall k :: 0 <= k <= maxRetries ==> outcomes[k].ConnectFailed?
    ensures var t := Request(env, config, maxRetries, outcomes);
            && t.posts == maxRetries + 1
            && (forall k :: 0 <= k < |t.waits| ==> t.waits[k] == Pow2(k))
            && t.result == ErrorsDoc("HTTP Request Error connecting to Braintree: " + outcomes[maxRetries].detail)
  {
    RequestRetriesThenFinishes(env, config, maxRetries, outcomes);
  }

  /** A client error other than 429 is never retried: that POST is the last, and the status error is returned. */
  lemma ClientErrorsAreNotRetried(env: Env, maxRetries: nat, outcomes: seq<Attempt>, attempts: nat)
    requires attempts <= maxRetries < |outcomes|
    requires outcomes[attempts].Responded? && !IsSuccess(outcomes[attempts].status)
    requires outcomes[attempts].status < 500 && outcomes[attempts].status != 429
    ensures var o := outcomes[attempts];
            Follow(Verdicts(env, maxRetries, outcomes), attempts)
            == Trace(1, [], ErrorsDoc("HTTP Status Error: " + Text.NatToString(o.status)
                                      + StatusErrorDetail(env, o.contentType, o.body)))
  {
    var ds := Verdicts(env, maxRetries, outcomes);
    assert ds[attempts] == Decide(env, outcomes[attempts], attempts, maxRetries, Pow2(attempts));
  }

  /**
   * A status error that is not retried (a client error other than 429, or any status
   * error once the retries are used up) ends the request with "HTTP Status Error: <code>"
   * and the detail read from the error body.
   */
  lemma StatusErrorsWithoutRetryAreReported(env: Env, outcome: Attempt, attempts: nat, maxRetries: int, backoff: nat)
    requires outcome.Responded? && !IsSuccess(outcome.status)
    requires attempts >= maxRetries || (outcome.status < 500 && outcome.status != 429)
    ensures Decide(env, outcome, attempts, maxRetries, backoff)
            == Finish(ErrorsDoc("HTTP Status Error: " + Text.NatToString(outcome.status)
                                + StatusErrorDetail(env, outcome.contentType, outcome.body)))
  {
  }

  /** A 429 with retries left is retried after `retry-after` seconds when that header is a number, else after the backoff. */
  lemma RateLimitHonoursRetryAfter(env: Env, outcome: Attempt, attempts: nat, maxRetries: int, backoff: nat)
    requires outcome.Responded? && outcome.status == 429 && attempts < maxRetries
    ensures outcome.retryAfter.Some? && Text.IsDigits(outcome.retryAfter.value) ==>
              Decide(env, outcome, attempts, maxRetries, backoff) == Retry(Text.DigitsValue(outcome.retryAfter.value))
    ensures !(outcome.retryAfter.Some? && Text.IsDigits(outcome.retryAfter.value)) ==>
              Decide(env, outcome, attempts, maxRetries, backoff) == Retry(backoff)
  {
  }

  /**
   * A 2xx JSON body carrying a list of well-formed GraphQL errors is retried exactly when
   * retries are left and some message is transient; otherwise the body is the result.
   */
  lemma GraphqlErrorsRetriedOnlyWhenTransient(env: Env, status: nat, contentType: string, retryAfter: Option<string>,
                                              body: string, attempts: nat, maxRetries: int, backoff: nat)
    requires IsSuccess(status) && body != "" && !SafeParse.LooksLikeHtml(body, contentType)
    requires env.parse(body).Parsed? && env.parse(body).value.Dict?
    requires var v := env.parse(body).value;
             Lookup(v.entries, "errors").Some? && Lookup(v.entries, "errors").value.List?
             && forall i :: 0 <= i < |Lookup(v.entries, "errors").value.items| ==>
                  WellFormedEntry(Lookup(v.entries, "errors").value.items[i])
    ensures var v := env.parse(body).value;
            var entries := Lookup(v.entries, "errors").value.items;
            var transient := exists i :: 0 <= i < |entries| && TransientEntry(entries[i]);
            Decide(env, Responded(status, contentType, retryAfter, body), attempts, maxRetries, backoff)
            == if transient && attempts < maxRetries then Retry(backoff) else Finish(v)
  {
    var v := env.parse(body).value;
    AnyTransientOfWellFormed(Lookup(v.entries, "errors").value.items);
  }

  /** A 2xx JSON object without `errors` is returned as it is, at once. */
  lemma BodyWithoutErrorsIsReturned(env: Env, status: nat, contentType: string, retryAfter: Option<string>,
                                    body: string, attempts: nat, maxRetries: int, backoff: nat)
    requires IsSuccess(status) && body != "" && !SafeParse.LooksLikeHtml(body, contentType)
    requires env.parse(body).Parsed? && env.parse(body).value.Dict?
    requires Lookup(env.parse(body).value.entries, "errors").None?
    ensures Decide(env, Responded(status, contentType, retryAfter, body), attempts, maxRetries, backoff)
            == Finish(env.parse(body).value)
  {
  }

  /** The `for error in ...: ... break` scan of the retry loop, proved to compute `AnyTransient`. */
  method ScanErrors(entries: seq<Value>) returns (r: Res<bool>)
    ensures r == AnyTransient(entries)
  {
    var retryable := false;
    var i := 0;
    while i < |entries|
      invariant 0 <= i <= |entries|
      invariant AnyTransient(entries) == AnyTransient(entries[i..])
    {
      var message :- DictGet(entries[i], "message", Str(""));
      var lowered :- LowerOf(message);
      if IsTransientMessage(lowered) {
        retryable := true;
        break;
      }
      assert entries[i..][1..] == entries[i + 1..];
      i := i + 1;
    }
    return Ok(retryable);
  }

  /**
   * The checks on a 2xx body as the loop runs them, statement by statement; they repeat
   * `InspectBody`, which specifies them, with the scan done by `ScanErrors`.
   */
  method InspectResponseBody(result: Value) returns (r: Res<bool>)
    ensures r == InspectBody(result)
  {
    var hasErrors :- In("errors", result);
    if !hasErrors {
      return Ok(false);
    }
    var errors :- GetItem(result, "errors");
    var entries :- Iterate(errors);
    r := ScanErrors(entries);
  }

  /**
   * One pass of the retry loop's body: the POST has given `outcome` after `attempts`
   * retries with the current backoff `backoff`. It repeats, statement by statement, the
   * function `Decide` that specifies it, so that the loop can call it.
   */
  method HandleAttempt(env: Env, outcome: Attempt, attempts: nat, maxRetries: int, backoff: nat)
    returns (decision: Decision)
    ensures decision == Decide(env, outcome, attempts, maxRetries, backoff)
  {
    match outcome
    case ConnectFailed(detail) =>
      if attempts < maxRetries {
        decision := Retry(backoff);
      } else {
        decision := Finish(ErrorsDoc("HTTP Request Error connecting to Braintree: " + detail));
      }
    case Broken(detail) =>
      if attempts < maxRetries {
        decision := Retry(backoff);
      } else {
        decision := Finish(ErrorsDoc("An unexpected error occurred: " + detail));
      }
    case Responded(status, contentType, retryAfter, body) =>
      if status >= 500 && attempts < maxRetries {
        decision := Retry(backoff);
      } else if !IsSuccess(status) {
        if status == 429 && attempts < maxRetries {
          decision := Retry(RetryAfterWait(retryAfter, backoff));
        } else {
          var detail := StatusErrorDetail(env, contentType, body);
          decision := Finish(ErrorsDoc("HTTP Status Error: " + Text.NatToString(status) + detail));
        }
      } else {
        var parsed := SafeParse.SafeJsonParse(env.parse, Str(body), contentType);
        var inspected := InspectResponseBody(parsed);
        if inspected.Raise? {
          if attempts < maxRetries {
            decision := Retry(backoff);
          } else {
            decision := Finish(ErrorsDoc("An unexpected error occurred: " + env.render.excText(inspected.exc)));
          }
        } else if inspected.value && attempts < maxRetries {
          decision := Retry(backoff);
        } else {
          decision := Finish(parsed);
        }
      }
  }

  /**
   * The retry loop of `make_braintree_request` and what follows it, once the request
   * is built. `outcomes` stands for the network, one entry per POST; `sent` records
   * every request posted and `waits` every sleep.
   */
  method SendWithRetries(env: Env, request: HttpRequest, maxRetries: int, outcomes: seq<Attempt>, ghost ds: seq<Decision>)
    returns (result: Value, sent: seq<HttpRequest>, waits: seq<nat>)
    requires maxRetries < |outcomes|
    requires |ds| == if maxRetries >= 0 then maxRetries + 1 else 0
    requires Followable(ds)
    requires forall k {:trigger Verdict(env, outcomes, k, maxRetries)} ::
               0 <= k < |ds| ==> ds[k] == Verdict(env, outcomes, k, maxRetries)
    ensures maxRetries >= 0 ==> Follow(ds, 0) == Trace(|sent|, waits, result)
    ensures maxRetries < 0 ==> sent == [] && waits == [] && result == ErrorsDoc(UNKNOWN_FAILURE_MESSAGE)
    ensures forall i :: 0 <= i < |sent| ==> sent[i] == request
  {
    sent, waits := [], [];
    var attempts: nat := 0;
    var backoff: nat := 1;
    while attempts <= maxRetries
      invariant maxRetries >= 0 ==> attempts <= maxRetries
      invariant maxRetries < 0 ==> attempts == 0
      invariant backoff == Pow2(attempts)
      invariant |sent| == attempts && |waits| == attempts
      invariant forall i :: 0 <= i < |sent| ==> sent[i] == request
      invariant maxRetries >= 0 ==>
                  var rest := Follow(ds, attempts);
                  Follow(ds, 0) == Trace(attempts + rest.posts, waits + rest.waits, rest.result)
      decreases maxRetries - attempts
    {
      sent := sent + [request];
      var decision := HandleAttempt(env, outcomes[attempts], attempts, maxRetries, backoff);
      assert ds[attempts] == Verdict(env, outcomes, attempts, maxRetries) == decision;
      if decision.Finish? {
        result := decision.result;
        return;
      }
      ghost var rest := Follow(ds, attempts + 1);
      assert waits + ([decision.wait] + rest.waits) == (waits + [decision.wait]) + rest.waits;
      // asyncio.sleep(wait)
      waits := waits + [decision.wait];
      attempts := attempts + 1;
      backoff := backoff * 2;
    }
    // Only a negative `max_retries` gets here: every pass of the loop returns or retries with retries left.
    result := ErrorsDoc(UNKNOWN_FAILURE_MESSAGE);
  }

  /**
   * `make_braintree_request(query, variables, max_retries)`: the credentials check,
   * then the same request posted on every attempt of the retry loop.
   */
  method MakeRequest(env: Env, config: Config, query: string, variables: Value, maxRetries: int, outcomes: seq<Attempt>)
    returns (result: Value, sent: seq<HttpRequest>, waits: seq<nat>)
    requires maxRetries < |outcomes|
    ensures Request(env, config, maxRetries, outcomes) == Trace(|sent|, waits, result)
    ensures forall i :: 0 <= i < |sent| ==> sent[i] == SseRequest(env, config, query, variables)
  {
    if !HasCredentials(config) {
      return ErrorsDoc(MISSING_CREDENTIALS_MESSAGE), [], [];
    }
    ghost var ds := if maxRetries >= 0 then Verdicts(env, maxRetries, outcomes) else [];
    result, sent, waits := SendWithRetries(env, SseRequest(env, config, query, variables), maxRetries, outcomes, ds);
  }

  /** The outcome of the execute tool's query validation. */
  datatype Validation = Accepted(query: string) | Rejected(message: string)

  const EMPTY_QUERY_MESSAGE := "Query cannot be empty and must be a string"
  const QUERY_FORMAT_MESSAGE := "Invalid GraphQL query format. Must start with 'query', 'mutation', or '{'"

  /** A query document starting like an operation: `query`, `mutation` or a bare selection set. */
  predicate IsOperation(q: string) {
    Text.StartsWith(q, "query") || Text.StartsWith(q, "mutation") || Text.StartsWith(q, "{")
  }

  /** The execute tool's checks: a non-empty query that, stripped, starts like an operation; it is sent stripped. */
  function ValidateQuery(query: string): (v: Validation)
    ensures v.Accepted? <==> query != "" && IsOperation(Text.Strip(query))
    ensures v.Accepted? ==> v.query == Text.Strip(query)
    ensures query == "" ==> v == Rejected(EMPTY_QUERY_MESSAGE)
    ensures query != "" && v.Rejected? ==> v.message == QUERY_FORMAT_MESSAGE
  {
    if query == "" then Rejected(EMPTY_QUERY_MESSAGE)
    else
      var q := Text.Strip(query);
      if IsOperation(q) then Accepted(q) else Rejected(QUERY_FORMAT_MESSAGE)
  }

  /** A query of whitespace only is not empty, but stripped it starts like nothing and is refused for its format. */
  lemma BlankQueryRejectedForFormat()
    ensures ValidateQuery("   ") == Rejected(QUERY_FORMAT_MESSAGE)
  {
    assert Text.Strip("   ") == "";
  }

  /**
   * `braintree_execute_graphql_sse`: a rejected query is answered with an error
   * document through the standard `json.dumps` and nothing is sent; an accepted one is
   * sent stripped with up to two retries and the result goes through `safe_json_dumps`
   * as written, so with orjson a serialisable result comes back as `bytes`. Without
   * orjson the reply is always `str`, as intended.
   */
  method ExecuteGraphql(env: Env, config: Config, query: string, variables: Value, outcomes: seq<Attempt>)
    returns (reply: Serialise.Encoded, sent: seq<HttpRequest>)
    requires 2 < |outcomes|
    ensures ValidateQuery(query).Rejected? ==> reply == Serialise.Text(ErrorsDoc(ValidateQuery(query).message)) && sent == []
    ensures ValidateQuery(query).Accepted? ==>
              var t := Request(env, config, 2, outcomes);
              && reply == Serialise.SafeJsonDumpsAsWritten(t.result, env.render, env.orjson)
              && |sent| == t.posts
              && forall i :: 0 <= i < |sent| ==> sent[i] == SseRequest(env, config, Text.Strip(query), variables)
    ensures ValidateQuery(query).Accepted? && !env.orjson ==>
              reply == Serialise.SafeJsonDumps(Request(env, config, 2, outcomes).result, env.render)
    ensures reply.Bytes? <==> ValidateQuery(query).Accepted? && env.orjson && Serialise.Serialisable(reply.value)
                              && reply.value == Request(env, config, 2, outcomes).result
  {
    match ValidateQuery(query)
    case Rejected(message) =>
      reply, sent := Serialise.Text(ErrorsDoc(message)), [];
    case Accepted(q) =>
      var result, waits;
      result, sent, waits := MakeRequest(env, config, q, variables, 2, outcomes);
      reply := Serialise.SafeJsonDumpsAsWritten(result, env.render, env.orjson);
      Serialise.SafeJsonDumpsAgreesWithoutOrjson(result, env.render);
  }

  /**
   * The SSE ping reply as written: when classifying the result raises, the message
   * formats `sanitize_for_json(e)`; an exception's `__dict__` is empty, so what is
   * formatted is the sanitised empty dict, whatever the exception was. An unexpected
   * shape is formatted through `safe_json_dumps` as written, which with orjson gives
   * `bytes`, shown as `b'...'`. The reply is "pong" for a pong verdict and only then.
   */
  function PingReplyAsWritten(result: Value, render: Render, orjson: bool): (reply: string)
    ensures reply == "pong" <==> ClassifyPing(result) == Ok(Pong)
  {
    match ClassifyPing(result)
    case Ok(ErrorsReported(joined)) => "Error pinging Braintree: " + joined
    case Ok(Pong) => "pong"
    case Ok(Unexpected) =>
      "Unexpected response from Braintree ping: "
      + Serialise.EncodedText(Serialise.SafeJsonDumpsAsWritten(result, render, orjson), render)
    case Raise(e) =>
      "Error connecting to Braintree: " + PyStr(Serialise.Sanitize(Object(Dict([])), render, Serialise.DEFAULT_MAX_DEPTH, 0), render)
  }

  /** As written, every failure is reported as `str({})`: the text does not depend on the exception. */
  lemma PingFailureHidesTheException(result: Value, render: Render, orjson: bool)
    requires ClassifyPing(result).Raise?
    ensures PingReplyAsWritten(result, render, orjson) == "Error connecting to Braintree: " + render.str(Dict([]))
  {
    var s := Serialise.Sanitize(Object(Dict([])), render, Serialise.DEFAULT_MAX_DEPTH, 0);
    assert s == Serialise.Sanitize(Dict([]), render, Serialise.DEFAULT_MAX_DEPTH, 1);
    assert s == Dict([]);
  }

  /** For instance `{"data": null}`: `None.get` raises, and the reply names no error. */
  lemma PingOfNullDataHidesTheError(render: Render, orjson: bool)
    ensures PingReplyAsWritten(Dict([("data", Leaf(NoneVal))]), render, orjson) == "Error connecting to Braintree: " + render.str(Dict([]))
  {
    PingFailureHidesTheException(Dict([("data", Leaf(NoneVal))]), render, orjson);
  }

  /** With orjson, a serialisable result of unexpected shape is shown in its `b'...'` form. */
  lemma PingOfUnexpectedShapeShowsBytesWithOrjson(result: Value, render: Render)
    requires ClassifyPing(result) == Ok(Unexpected) && Serialise.Serialisable(result)
    ensures PingReplyAsWritten(result, render, true)
            == "Unexpected response from Braintree ping: " + render.bytesStr(render.json(result))
  {
  }

  /**
   * The SSE ping reply as intended, and as the stdio server writes it: a failure is
   * reported with the exception's text, and the result's JSON text is a `str`; the
   * other replies are those written, with the standard encoder.
   */
  function PingReply(result: Value, render: Render): (reply: string)
    ensures ClassifyPing(result).Raise? ==> reply == "Error connecting to Braintree: " + render.excText(ClassifyPing(result).exc)
    ensures ClassifyPing(result).Ok? ==> reply == PingReplyAsWritten(result, render, false)
  {
    match ClassifyPing(result)
    case Ok(ErrorsReported(joined)) => "Error pinging Braintree: " + joined
    case Ok(Pong) => "pong"
    case Ok(Unexpected) =>
      "Unexpected response from Braintree ping: " + Serialise.EncodedText(Serialise.SafeJsonDumps(result, render), render)
    case Raise(e) => "Error connecting to Braintree: " + render.excText(e)
  }

  /** The reply is "pong" exactly when the result is a dict without `errors` whose `data.ping` is "pong". */
  lemma PingReplyIsPongExactly(result: Value, render: Render)
    ensures PingReply(result, render) == "pong" <==>
              && result.Dict?
              && Lookup(result.entries, "errors").None?
              && Lookup(result.entries, "data").Some?
              && Lookup(result.entries, "data").value.Dict?
              && Lookup(Lookup(result.entries, "data").value.entries, "ping") == Some(Str("pong"))
  {
    PongIffNoErrorsAndPingIsPong(result);
  }

  /**
   * `braintree_sse_ping`: the ping query with at most one retry, and the reply as
   * written; it agrees with the intended `PingReply` whenever classification succeeds
   * and orjson is not installed.
   */
  method SsePing(env: Env, config: Config, outcomes: seq<Attempt>) returns (reply: string, sent: seq<HttpRequest>)
    requires 1 < |outcomes|
    ensures var t := Request(env, config, 1, outcomes);
            reply == PingReplyAsWritten(t.result, env.render, env.orjson) && |sent| == t.posts && t.posts <= 2
    ensures var t := Request(env, config, 1, outcomes);
            ClassifyPing(t.result).Ok? && !env.orjson ==> reply == PingReply(t.result, env.render)
    ensures forall i :: 0 <= i < |sent| ==> sent[i] == SseRequest(env, config, PING_QUERY, Leaf(NoneVal))
  {
    var result, waits;
    result, sent, waits := MakeRequest(env, config, PING_QUERY, Leaf(NoneVal), 1, outcomes);
    reply := PingReplyAsWritten(result, env.render, env.orjson);
  }
}
