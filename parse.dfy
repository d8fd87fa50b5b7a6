/**
 * Defensive parsing (`safe_json_parse`, braintree_sse_server.py): an error classifier
 * around the JSON parser. It never raises; every failure becomes an `errors` document
 * carrying a bounded snippet of the offending body.
 */
module SafeParse {
  import opened Python
  import Text

  /** What the JSON library's `loads` does with a text: a value, a decode error with its message and offset, or another exception. */
  datatype ParseOutcome =
    | Parsed(value: Value)
    | DecodeError(msg: string, pos: nat, display: string)
    | ParseCrash(display: string)

  const EMPTY_RESPONSE_MESSAGE := "Empty or non-string response"
  const HTML_RESPONSE_MESSAGE := "Received HTML instead of JSON - possible authentication or URL error"
  /** How many characters of a bad body an error document quotes. */
  const CONTEXT_LENGTH: nat := 200
  /** How many characters are searched for an HTML start tag. */
  const HTML_SNIFF_LENGTH: nat := 1000

  /** `text[:200] + ("..." if len(text) > 200 else "")`. */
  function Context(text: string): (c: string)
    ensures |text| <= CONTEXT_LENGTH ==> c == text
    ensures |text| > CONTEXT_LENGTH ==> |c| == CONTEXT_LENGTH + 3 && c[..CONTEXT_LENGTH] == text[..CONTEXT_LENGTH]
                                        && c[CONTEXT_LENGTH..] == "..."
  {
    Text.Prefix(text, CONTEXT_LENGTH) + (if |text| > CONTEXT_LENGTH then "..." else "")
  }

  /** The content-type announces HTML rather than JSON and the start of the body carries an HTML tag. */
  predicate LooksLikeHtml(text: string, contentType: string) {
    var ct := Text.Lower(contentType);
    var head := Text.Lower(Text.Prefix(text, HTML_SNIFF_LENGTH));
    && contentType != ""
    && !Text.Contains(ct, "application/json")
    && Text.Contains(ct, "text/html")
    && (Text.Contains(head, "<html") || Text.Contains(head, "<!doctype"))
  }

  /** The argument is a non-empty Python string. */
  predicate IsNonEmptyStr(text: Value) {
    text.Leaf? && text.scalar.StrVal? && text.scalar.s != ""
  }

  /**
   * `safe_json_parse(text, content_type)` with the JSON library's `loads` as `parse`.
   * An empty (`""` or `None`, which a caller passing no content type also gives) content type skips the HTML check.
   */
  function SafeJsonParse(parse: string -> ParseOutcome, text: Value, contentType: string): (r: Value)
    ensures !IsNonEmptyStr(text) ==> r == ErrorsDoc(EMPTY_RESPONSE_MESSAGE)
    ensures IsNonEmptyStr(text) && LooksLikeHtml(text.scalar.s, contentType) ==>
              r == ErrorsDocWithContext(HTML_RESPONSE_MESSAGE, Context(text.scalar.s))
    ensures IsNonEmptyStr(text) && !LooksLikeHtml(text.scalar.s, contentType) ==>
              match parse(text.scalar.s)
              case Parsed(v) => r == v
              case DecodeError(msg, pos, _) =>
                r == ErrorsDocWithContext(
                       "Invalid JSON response: " + msg + " at position " + Text.NatToString(pos),
                       Context(text.scalar.s))
              case ParseCrash(display) =>
                r == ErrorsDocWithContext("Error parsing response: " + display, Context(text.scalar.s))
  {
    if !IsNonEmptyStr(text) then ErrorsDoc(EMPTY_RESPONSE_MESSAGE)
    else
      var s := text.scalar.s;
      if LooksLikeHtml(s, contentType) then ErrorsDocWithContext(HTML_RESPONSE_MESSAGE, Context(s))
      else match parse(s)
        case Parsed(v) => v
        case DecodeError(msg, pos, _) =>
          ErrorsDocWithContext("Invalid JSON response: " + msg + " at position " + Text.NatToString(pos), Context(s))
        case ParseCrash(display) =>
          ErrorsDocWithContext("Error parsing response: " + display, Context(s))
  }

  /** The single error entry of a document built by `ErrorsDocWithContext`, if `r` is one. */
  function ErrorEntry(r: Value): Wrappers.Option<(string, string)> {
    if r.Dict? && |r.entries| == 1 && r.entries[0].0 == "errors" && r.entries[0].1.List?
       && |r.entries[0].1.items| == 1 && r.entries[0].1.items[0].Dict?
    then
      var e := r.entries[0].1.items[0].entries;
      if |e| == 2 && e[0].0 == "message" && e[1].0 == "context"
         && e[0].1.Leaf? && e[0].1.scalar.StrVal? && e[1].1.Leaf? && e[1].1.scalar.StrVal?
      then Wrappers.Some((e[0].1.scalar.s, e[1].1.scalar.s))
      else Wrappers.None
    else Wrappers.None
  }

  /**
   * When the parser fails, the result is one error entry whose message names the
   * failure offset in decimal and whose context is the body cut to 200 characters,
   * with "..." exactly when something was cut.
   */
  lemma DecodeErrorReportsPosition(parse: string -> ParseOutcome, body: string, contentType: string)
    requires body != "" && !LooksLikeHtml(body, contentType) && parse(body).DecodeError?
    ensures var entry := ErrorEntry(SafeJsonParse(parse, Str(body), contentType));
            && entry.Some?
            && Text.Contains(entry.value.0, " at position " + Text.NatToString(parse(body).pos))
            && Text.DigitsValue(Text.NatToString(parse(body).pos)) == parse(body).pos
            && (if |body| <= CONTEXT_LENGTH then entry.value.1 == body
                else entry.value.1 == body[..CONTEXT_LENGTH] + "...")
  {
    var r := SafeJsonParse(parse, Str(body), contentType);
    var e := parse(body);
    var msg := "Invalid JSON response: " + e.msg;
    var needle := " at position " + Text.NatToString(e.pos);
    var m := msg + needle;
    assert "Invalid JSON response: " + e.msg + " at position " + Text.NatToString(e.pos) == m;
    assert ErrorEntry(r) == Wrappers.Some((m, Context(body)));
    assert m[|msg|..|msg| + |needle|] == needle;
    Text.OccursContains(m, needle, |msg|);
    Text.NatToStringRoundTrip(e.pos);
  }
}
