/**
 * JSON values as Python's `json` module hands them to the wallbox model, and
 * the few Python operations on them that the model relies on: `==`, truth
 * value, `int()` and `str()`.
 */
module Json {
  import opened Wrappers
  import Decimal

  /** A decoded JSON value. Python keeps integers and floats apart; floats are exact reals here. */
  datatype Value =
    | Null
    | Bool(b: bool)
    | Int(i: int)
    | Float(f: real)
    | Str(s: string)
    | List(items: seq<Value>)
    | Object(fields: map<string, Value>)

  /** A JSON object, the shape of every document the wallbox sends. */
  type Doc = map<string, Value>

  /** The Python exceptions the value model can raise, with the key being processed. */
  datatype Error =
    | KeyError(key: string)
    | TypeError(key: string)
    | ValueError(key: string)
    | ZeroDivisionError

  /** The numeric view of a value: `bool` is a subclass of `int` in Python. */
  function AsNumber(v: Value): (r: Option<real>)
    ensures r.Some? <==> (v.Bool? || v.Int? || v.Float?)
  {
    match v
    case Bool(b) => Some(if b then 1.0 else 0.0)
    case Int(i) => Some(i as real)
    case Float(f) => Some(f)
    case _ => None
  }

  /**
   * Python's `==` on decoded values: numbers (and booleans) compare by value,
   * everything else structurally.
   */
  predicate Equal(a: Value, b: Value) {
    if AsNumber(a).Some? && AsNumber(b).Some? then AsNumber(a).value == AsNumber(b).value
    else a == b
  }

  /** Python's truth value, `bool(v)`. */
  predicate Truthy(v: Value) {
    match v
    case Null => false
    case Bool(b) => b
    case Int(i) => i != 0
    case Float(f) => f != 0.0
    case Str(s) => s != ""
    case List(items) => items != []
    case Object(fields) => fields != map[]
  }

  /** Truncation toward zero, as `int()` does to a float. */
  function Truncate(f: real): (r: int)
    ensures f >= 0.0 ==> r as real <= f < r as real + 1.0
    ensures f < 0.0 ==> r as real - 1.0 < f <= r as real
  {
    if f >= 0.0 then f.Floor else -((-f).Floor)
  }

  /** Python's `int(v)`; `key` names the field being converted, for the error. */
  function ToInt(v: Value, key: string): (r: Result<int, Error>)
    ensures r.Ok? <==> (v.Bool? || v.Int? || v.Float? || (v.Str? && Decimal.ParseInt(v.s).Some?))
    ensures v.Int? ==> r == Ok(v.i)
    ensures r.Err? ==> r.error == (if v.Str? then ValueError(key) else TypeError(key))
  {
    match v
    case Bool(b) => Ok(if b then 1 else 0)
    case Int(i) => Ok(i)
    case Float(f) => Ok(Truncate(f))
    case Str(s) =>
      (match Decimal.ParseInt(s)
       case Some(i) => Ok(i)
       case None => Err(ValueError(key)))
    case _ => Err(TypeError(key))
  }

  /**
   * Python's `str(v)` for the values whose text the model needs; floats, lists
   * and objects (whose `repr` is not modelled) give None.
   */
  function ToText(v: Value): Option<string> {
    match v
    case Null => Some("None")
    case Bool(b) => Some(if b then "True" else "False")
    case Int(i) => Some(Decimal.IntToString(i))
    case Str(s) => Some(s)
    case _ => None
  }

  /** `int(str(i)) == i`: an integer survives printing and re-reading as a JSON string. */
  lemma ToIntOfPrintedInt(i: int, key: string)
    ensures ToInt(Str(Decimal.IntToString(i)), key) == Ok(i)
  {
    Decimal.IntRoundTrip(i);
  }

  /** `==` is an equivalence on decoded values, and it never equates values of unrelated kinds. */
  lemma EqualIsEquivalence(a: Value, b: Value, c: Value)
    ensures Equal(a, a)
    ensures Equal(a, b) ==> Equal(b, a)
    ensures Equal(a, b) && Equal(b, c) ==> Equal(a, c)
    ensures Equal(a, b) && AsNumber(a).None? ==> a == b
  {
  }
}
