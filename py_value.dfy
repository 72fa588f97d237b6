/**
 * The Python values the backend passes around (JSON-like data, model objects,
 * datetimes), the exceptions it can raise, and the library behaviour it relies
 * on but that is not part of this model (csv parsing, `str()`, `strftime`,
 * pydantic's `.dict()`), which every operation receives as a parameter.
 */
module Py {

  /** A `datetime.datetime` value; only `strftime` ever looks inside it. */
  datatype Moment = Moment(ticks: int)

  /** A Python value. Dict keys are strings (all dicts in the backend come from JSON or csv). */
  datatype Value =
    | NoneValue
    | Bool(b: bool)
    | Int(i: int)
    | Str(s: string)
    | DateTime(moment: Moment)
    | List(items: seq<Value>)
    | Dict(entries: map<string, Value>)
      /** An object that exposes its attributes through `__dict__`. */
    | Instance(attrs: map<string, Value>)
      /** A pydantic `BaseModel`. */
    | Model(fields: map<string, Value>)

  /** The exceptions the modelled code raises. */
  datatype Error =
    | KeyError
    | TypeError
    | AttributeError
      /** `ValueError(message)` raised explicitly by the code. */
    | ValueError(message: string)
      /** The `ValueError` of tuple unpacking: `got` values where `expected` were needed. */
    | UnpackError(expected: nat, got: nat)
      /** pydantic's `ValidationError` when a model field gets a value of the wrong type. */
    | ValidationError

  /** Library behaviour the backend calls but that is not modelled. */
  datatype Lib = Lib(
    /** `parse_csv`: the rows `csv.DictReader` reads from a text. */
    parseCsv: string -> seq<Value>,
    /** Python's `str()` on a value that is not already a string. */
    str: Value -> string,
    /** `datetime.strftime(format)`. */
    strftime: (Moment, string) -> string,
    /** pydantic's `.dict()` on a model with the given fields. */
    modelDump: map<string, Value> -> Value)

  /** Python's `str(v)`: a string is its own text, anything else is rendered by the library. */
  function StrOf(v: Value, lib: Lib): (r: string)
    ensures v.Str? ==> r == v.s
  {
    if v.Str? then v.s else lib.str(v)
  }
}
