/**
 * The Python values the bridge handles (parsed JSON bodies, result dictionaries,
 * arbitrary objects handed to the serialiser) and the handful of Python operations
 * applied to them. An operation that Python may abandon with an exception returns
 * a `Res`, so every path on which the source raises is visible in the model.
 */
module Python {
  import opened Wrappers
  import Text

  /** The scalars the JSON encoder accepts: None, booleans, numbers and strings. */
  datatype Scalar = NoneVal | BoolVal(b: bool) | NumVal(n: int) | StrVal(s: string)

  /**
   * A Python value.
   *  - `Dict`: a dict with string keys, in insertion order (keys are distinct in Python);
   *  - `List`, `Tuple`: the two sequence types the sanitiser treats alike;
   *  - `Object`: an instance with a `__dict__`, which is `dunderDict`;
   *  - `Leaf`: a value the JSON encoder's probe accepts as it is;
   *  - `Unserialisable`: a value without `__dict__` that the probe rejects (a set, a
   *    datetime, ...); `hasIsoformat` says whether it offers `isoformat()`.
   */
  datatype Value =
    | Dict(entries: seq<(string, Value)>)
    | List(items: seq<Value>)
    | Tuple(items: seq<Value>)
    | Object(dunderDict: Value)
    | Leaf(scalar: Scalar)
    | Unserialisable(name: string, hasIsoformat: bool)

  /** A Python string value. */
  function Str(s: string): Value {
    Leaf(StrVal(s))
  }

  /**
   * The exception classes the modelled operations can raise; `ParserFailure` is any
   * exception other than `JSONDecodeError` that the JSON parser raises.
   */
  datatype ExcKind = TypeError | AttributeError | KeyError | IndexError | ParserFailure

  /** A raised exception: its class and the value the failing operation was applied to. */
  datatype Exc = Exc(kind: ExcKind, operand: Value)

  /** The outcome of a Python operation: a value, or an exception it raised. */
  datatype Res<+T> = Ok(value: T) | Raise(exc: Exc) {
    predicate IsFailure() {
      Raise?
    }

    function PropagateFailure<U>(): Res<U>
      requires Raise?
    {
      Raise(exc)
    }

    function Extract(): T
      requires Ok?
    {
      value
    }
  }

  /**
   * Renderings that belong to Python and its libraries rather than to the bridge:
   * `str(o)` of a non-string value, `o.isoformat()`, the text `json.dumps` produces for
   * a serialisable value, `str(e)` of an exception, and `str(b)` of the UTF-8 bytes `b`
   * of a text (the `b'...'` form an f-string shows for `bytes`).
   */
  datatype Render = Render(
    str: Value -> string,
    isoformat: Value -> string,
    json: Value -> string,
    excText: Exc -> string,
    bytesStr: string -> string)

  /** `str(o)` and f-string formatting: a string shows as itself. */
  function PyStr(o: Value, render: Render): (s: string)
    ensures o.Leaf? && o.scalar.StrVal? ==> s == o.scalar.s
  {
    match o
    case Leaf(StrVal(s)) => s
    case _ => render.str(o)
  }

  /** The value stored under `key`, if any (the first entry, keys being distinct in Python). */
  function Lookup(entries: seq<(string, Value)>, key: string): (r: Option<Value>)
    ensures r.Some? <==> exists i :: 0 <= i < |entries| && entries[i].0 == key
    ensures r.Some? ==> exists i :: 0 <= i < |entries| && entries[i] == (key, r.value)
  {
    if entries == [] then None
    else if entries[0].0 == key then Some(entries[0].1)
    else
      var r := Lookup(entries[1..], key);
      assert forall i :: 1 <= i < |entries| ==> entries[i] == entries[1..][i - 1];
      r
  }

  /** The keys of a dict, in order. */
  function Keys(entries: seq<(string, Value)>): (ks: seq<string>)
    ensures |ks| == |entries|
    ensures forall i :: 0 <= i < |entries| ==> ks[i] == entries[i].0
  {
    seq(|entries|, i requires 0 <= i < |entries| => entries[i].0)
  }

  /** Python truthiness: empty containers, None, False, 0 and "" are false. */
  predicate Truthy(o: Value) {
    match o
    case Dict(es) => es != []
    case List(xs) => xs != []
    case Tuple(xs) => xs != []
    case Leaf(NoneVal) => false
    case Leaf(BoolVal(b)) => b
    case Leaf(NumVal(n)) => n != 0
    case Leaf(StrVal(s)) => s != ""
    case _ => true
  }

  /** The values that answer Python's `in` without raising: dicts, lists, tuples and strings. */
  predicate IsContainer(o: Value) {
    o.Dict? || o.List? || o.Tuple? || (o.Leaf? && o.scalar.StrVal?)
  }

  /**
   * `key in o` for a string `key` and a container `o`: a key test on a dict, an element
   * test on a list or tuple, a substring test on a string.
   */
  predicate Has(o: Value, key: string)
    requires IsContainer(o)
    ensures o.Dict? ==> (Has(o, key) <==> Lookup(o.entries, key).Some?)
  {
    match o
    case Dict(es) => Lookup(es, key).Some?
    case List(xs) => Str(key) in xs
    case Tuple(xs) => Str(key) in xs
    case Leaf(StrVal(s)) => Text.Contains(s, key)
  }

  /** `key in o` for any `o`: a value that is not a container raises TypeError. */
  function In(key: string, o: Value): (r: Res<bool>)
    ensures r.Ok? <==> IsContainer(o)
    ensures r.Ok? ==> r.value == Has(o, key)
  {
    if IsContainer(o) then Ok(Has(o, key)) else Raise(Exc(TypeError, o))
  }

  /** `o[key]` for a string `key`: only a dict holding `key` answers; a dict without it raises KeyError. */
  function GetItem(o: Value, key: string): (r: Res<Value>)
    ensures r.Ok? <==> o.Dict? && Lookup(o.entries, key).Some?
    ensures r.Ok? ==> r.value == Lookup(o.entries, key).value
  {
    match o
    case Dict(es) =>
      (match Lookup(es, key)
       case Some(v) => Ok(v)
       case None => Raise(Exc(KeyError, o)))
    case _ => Raise(Exc(TypeError, o))
  }

  /**
   * `o[i]` for an integer index: an element of a list or tuple, a one-character string
   * of a string; out of range raises IndexError, a dict (string keys only) KeyError.
   */
  function GetIndex(o: Value, i: nat): (r: Res<Value>)
    ensures (o.List? || o.Tuple?) ==> (r.Ok? <==> i < |o.items|)
    ensures (o.List? || o.Tuple?) && i < |o.items| ==> r == Ok(o.items[i])
  {
    match o
    case List(xs) => if i < |xs| then Ok(xs[i]) else Raise(Exc(IndexError, o))
    case Tuple(xs) => if i < |xs| then Ok(xs[i]) else Raise(Exc(IndexError, o))
    case Leaf(StrVal(s)) => if i < |s| then Ok(Str([s[i]])) else Raise(Exc(IndexError, o))
    case Dict(_) => Raise(Exc(KeyError, o))
    case _ => Raise(Exc(TypeError, o))
  }

  /** `o.get(key, default)`: defined on dicts only; anything else raises AttributeError. */
  function DictGet(o: Value, key: string, default: Value): (r: Res<Value>)
    ensures r.Ok? <==> o.Dict?
    ensures o.Dict? ==> r.value == Lookup(o.entries, key).GetOr(default)
  {
    match o
    case Dict(es) => Ok(Lookup(es, key).GetOr(default))
    case _ => Raise(Exc(AttributeError, o))
  }

  /** What `for x in o` visits: a dict's keys, a sequence's items, a string's characters. */
  function Iterate(o: Value): (r: Res<seq<Value>>)
    ensures (o.List? || o.Tuple?) ==> r == Ok(o.items)
    ensures o.Dict? ==> r.Ok? && |r.value| == |o.entries|
  {
    match o
    case Dict(es) => Ok(seq(|es|, i requires 0 <= i < |es| => Str(es[i].0)))
    case List(xs) => Ok(xs)
    case Tuple(xs) => Ok(xs)
    case Leaf(StrVal(s)) => Ok(seq(|s|, i requires 0 <= i < |s| => Str([s[i]])))
    case _ => Raise(Exc(TypeError, o))
  }

  /** `o.lower()`: defined on strings only. */
  function LowerOf(o: Value): (r: Res<string>)
    ensures r.Ok? <==> o.Leaf? && o.scalar.StrVal?
    ensures r.Ok? ==> r.value == Text.Lower(o.scalar.s)
  {
    match o
    case Leaf(StrVal(s)) => Ok(Text.Lower(s))
    case _ => Raise(Exc(AttributeError, o))
  }

  /** `{"errors": [{"message": message}]}`, the error shape every tool returns. */
  function ErrorsDoc(message: string): Value {
    Dict([("errors", List([Dict([("message", Str(message))])]))])
  }

  /** `{"errors": [{"message": message, "context": context}]}`. */
  function ErrorsDocWithContext(message: string, context: string): Value {
    Dict([("errors", List([Dict([("message", Str(message)), ("context", Str(context))])]))])
  }
}
