/**
 * Decoded JSON request values and the two notions of "missing" the servers apply to them:
 * JavaScript falsiness (`!x`) and PHP's `empty($x)`.
 */
module Json {
  import opened Options

  /**
   * A decoded JSON value. Only the size of arrays and objects matters to the checks
   * modelled here (PHP decodes both into arrays, and an empty array is `empty`).
   */
  datatype Value =
    | Null
    | Bool(b: bool)
    | Number(n: real)
    | Str(s: string)
    | Array(length: nat)
    | Object(size: nat)

  /** The field `key` of a request body; `None` stands for JavaScript's `undefined`. */
  function Field(body: map<string, Value>, key: string): (v: Option<Value>)
    ensures v.Some? <==> key in body
    ensures key in body ==> v == Some(body[key])
  {
    if key in body then Some(body[key]) else None
  }

  /**
   * JavaScript truthiness of a destructured field. JSON cannot carry NaN, so the falsy
   * values are `undefined`, `null`, `false`, `0` and the empty string.
   */
  predicate Truthy(v: Option<Value>)
    ensures Truthy(v) <==> v !in {None, Some(Null), Some(Bool(false)), Some(Number(0.0)), Some(Str(""))}
  {
    match v
    case None => false
    case Some(Null) => false
    case Some(Bool(b)) => b
    case Some(Number(n)) => n != 0.0
    case Some(Str(s)) => s != ""
    case Some(Array(_)) => true
    case Some(Object(_)) => true
  }

  /** PHP `$input[$key] ?? $default`: a missing key and a null value both give the default. */
  function Coalesce(body: map<string, Value>, key: string, default: Value): (v: Value)
    ensures key !in body || body[key] == Null ==> v == default
    ensures key in body && body[key] != Null ==> v == body[key]
  {
    if key in body && body[key] != Null then body[key] else default
  }

  /**
   * PHP `empty($x)` on a decoded value: null, false, 0, 0.0, "", "0" and an empty array.
   * Unlike JavaScript, the one-character string "0" counts as empty.
   */
  predicate PhpEmpty(v: Value)
    ensures PhpEmpty(v) <==> v in {Null, Bool(false), Number(0.0), Str(""), Str("0"), Array(0), Object(0)}
  {
    match v
    case Null => true
    case Bool(b) => !b
    case Number(n) => n == 0.0
    case Str(s) => s == "" || s == "0"
    case Array(length) => length == 0
    case Object(size) => size == 0
  }

  /** Every value JavaScript treats as falsy is also empty for PHP (after `?? ''`), but not conversely. */
  lemma FalsyIsEmpty(body: map<string, Value>, key: string)
    ensures !Truthy(Field(body, key)) ==> PhpEmpty(Coalesce(body, key, Str("")))
    ensures exists v: Value :: Truthy(Some(v)) && PhpEmpty(v)
  {
    assert Truthy(Some(Str("0"))) && PhpEmpty(Str("0"));
  }
}
