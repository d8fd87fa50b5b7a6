/**
 * Defensive serialisation (braintree_sse_server.py): `sanitize_for_json`, a depth-capped
 * rewrite of any Python value into one the JSON encoder accepts, and `safe_json_dumps`,
 * which tries the encoder first and falls back to the sanitised value.
 */
module Serialise {
  import opened Python

  /** The default `max_depth` of `sanitize_for_json`. */
  const DEFAULT_MAX_DEPTH := 10

  /** The shapes `sanitize_for_json` produces: dicts, lists and accepted scalars, all the way down. */
  predicate JsonSafe(o: Value) {
    match o
    case Dict(es) => forall i :: 0 <= i < |es| ==> JsonSafe(es[i].1)
    case List(xs) => forall i :: 0 <= i < |xs| ==> JsonSafe(xs[i])
    case Leaf(_) => true
    case _ => false
  }

  /** The values the JSON encoder serialises without help: tuples become arrays, objects are refused. */
  predicate Serialisable(o: Value) {
    match o
    case Dict(es) => forall i :: 0 <= i < |es| ==> Serialisable(es[i].1)
    case List(xs) => forall i :: 0 <= i < |xs| ==> Serialisable(xs[i])
    case Tuple(xs) => forall i :: 0 <= i < |xs| ==> Serialisable(xs[i])
    case Leaf(_) => true
    case _ => false
  }

  /** Everything the sanitiser produces is accepted by the encoder. */
  lemma {:induction false} JsonSafeIsSerialisable(o: Value)
    requires JsonSafe(o)
    ensures Serialisable(o)
  {
    match o
    case Dict(es) =>
      forall i | 0 <= i < |es| ensures Serialisable(es[i].1) {
        JsonSafeIsSerialisable(es[i].1);
      }
    case List(xs) =>
      forall i | 0 <= i < |xs| ensures Serialisable(xs[i]) {
        JsonSafeIsSerialisable(xs[i]);
      }
    case Leaf(_) =>
  }

  /**
   * `sanitize_for_json(o, max_depth, depth)`. Below the depth cap dicts keep their keys,
   * lists and tuples become lists of the same length and order, objects are replaced
   * by their `__dict__`, accepted scalars stay as they are and other leaves become their
   * `isoformat()` or `str()`; past the cap the value becomes `str(o)`.
   */
  function Sanitize(o: Value, render: Render, maxDepth: int, depth: int): (r: Value)
    decreases o
    ensures JsonSafe(r)
    ensures depth > maxDepth ==> r == Str(PyStr(o, render))
    ensures depth <= maxDepth && o.Dict? ==>
              r.Dict? && Keys(r.entries) == Keys(o.entries)
              && forall i :: 0 <= i < |o.entries| ==>
                   r.entries[i].1 == Sanitize(o.entries[i].1, render, maxDepth, depth + 1)
    ensures depth <= maxDepth && (o.List? || o.Tuple?) ==>
              r.List? && |r.items| == |o.items|
              && forall i :: 0 <= i < |o.items| ==>
                   r.items[i] == Sanitize(o.items[i], render, maxDepth, depth + 1)
    ensures depth <= maxDepth && o.Object? ==> r == Sanitize(o.dunderDict, render, maxDepth, depth + 1)
    ensures depth <= maxDepth && o.Leaf? ==> r == o
    ensures depth <= maxDepth && o.Unserialisable? ==>
              r == Str(if o.hasIsoformat then render.isoformat(o) else PyStr(o, render))
  {
    if depth > maxDepth then Str(PyStr(o, render))
    else match o
      case Dict(es) =>
        Dict(seq(|es|, i requires 0 <= i < |es| =>
                   (es[i].0, Sanitize(es[i].1, render, maxDepth, depth + 1))))
      case List(xs) =>
        List(seq(|xs|, i requires 0 <= i < |xs| => Sanitize(xs[i], render, maxDepth, depth + 1)))
      case Tuple(xs) =>
        List(seq(|xs|, i requires 0 <= i < |xs| => Sanitize(xs[i], render, maxDepth, depth + 1)))
      case Object(d) => Sanitize(d, render, maxDepth, depth + 1)
      case Leaf(_) => o
      case Unserialisable(_, iso) =>
        Str(if iso then render.isoformat(o) else PyStr(o, render))
  }

  /** `o` nests at most `budget` containers deep below the current level (and `budget` is not negative). */
  predicate WithinDepth(o: Value, budget: int) {
    budget >= 0 &&
    match o
    case Dict(es) => forall i :: 0 <= i < |es| ==> WithinDepth(es[i].1, budget - 1)
    case List(xs) => forall i :: 0 <= i < |xs| ==> WithinDepth(xs[i], budget - 1)
    case Tuple(xs) => forall i :: 0 <= i < |xs| ==> WithinDepth(xs[i], budget - 1)
    case Object(d) => WithinDepth(d, budget - 1)
    case _ => true
  }

  /** A value that is already JSON-safe and fits under the cap passes through the sanitiser unchanged. */
  lemma {:induction false} SanitizeKeepsSafeValues(o: Value, render: Render, maxDepth: int, depth: int)
    requires JsonSafe(o) && WithinDepth(o, maxDepth - depth)
    ensures Sanitize(o, render, maxDepth, depth) == o
  {
    match o
    case Dict(es) =>
      var r := Sanitize(o, render, maxDepth, depth);
      forall i | 0 <= i < |es| ensures r.entries[i] == es[i] {
        SanitizeKeepsSafeValues(es[i].1, render, maxDepth, depth + 1);
      }
    case List(xs) =>
      var r := Sanitize(o, render, maxDepth, depth);
      forall i | 0 <= i < |xs| ensures r.items[i] == xs[i] {
        SanitizeKeepsSafeValues(xs[i], render, maxDepth, depth + 1);
      }
    case Leaf(_) =>
  }

  /** The text `safe_json_dumps` hands back: a `str`, or the `bytes` orjson's `dumps` returns. */
  datatype Encoded = Text(value: Value) | Bytes(value: Value)

  /**
   * `safe_json_dumps` as written: the encoder `json_lib` is tried first and its result
   * returned as is, which is `bytes` when `json_lib` is orjson; on failure the sanitised
   * value goes through the standard `json.dumps`, which returns `str`.
   */
  function SafeJsonDumpsAsWritten(o: Value, render: Render, orjson: bool): (e: Encoded)
    ensures Serialisable(e.value)
    ensures Serialisable(o) ==> e.value == o && (e.Bytes? <==> orjson)
    ensures !Serialisable(o) ==> e == Text(Sanitize(o, render, DEFAULT_MAX_DEPTH, 0))
  {
    if Serialisable(o) then
      if orjson then Bytes(o) else Text(o)
    else
      var s := Sanitize(o, render, DEFAULT_MAX_DEPTH, 0);
      JsonSafeIsSerialisable(s);
      Text(s)
  }

  /** With orjson installed, `safe_json_dumps` returns bytes for an ordinary result such as `{"data": {"ping": "pong"}}`. */
  lemma SafeJsonDumpsReturnsBytesWithOrjson(render: Render)
    ensures SafeJsonDumpsAsWritten(Dict([("data", Dict([("ping", Str("pong"))]))]), render, true).Bytes?
  {
  }

  /**
   * `safe_json_dumps` as its comments intend ("consistent return type"): whichever
   * encoder is used, the result is `str`; it is the encoding of the value itself when
   * that is serialisable, else of its sanitised form. It never fails.
   */
  function SafeJsonDumps(o: Value, render: Render): (e: Encoded)
    ensures e.Text?
    ensures Serialisable(e.value)
    ensures Serialisable(o) ==> e.value == o
    ensures !Serialisable(o) ==> e.value == Sanitize(o, render, DEFAULT_MAX_DEPTH, 0)
  {
    match SafeJsonDumpsAsWritten(o, render, true)
    case Bytes(v) => Text(v)
    case Text(v) => Text(v)
  }

  /** Without orjson the source already behaves as intended. */
  lemma SafeJsonDumpsAgreesWithoutOrjson(o: Value, render: Render)
    ensures SafeJsonDumpsAsWritten(o, render, false) == SafeJsonDumps(o, render)
  {
  }

  /**
   * The encoded value formatted into a message with an f-string: a `str` shows as the
   * JSON text itself, `bytes` as their `b'...'` form.
   */
  function EncodedText(e: Encoded, render: Render): string {
    match e
    case Text(v) => render.json(v)
    case Bytes(v) => render.bytesStr(render.json(v))
  }
}
