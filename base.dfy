/** Vocabulary shared by every module: optional values, the outcome of a call
    that may raise, and the dynamically typed Python values that flow through
    report rows, cache entries and JSON replies. */
module Base {

  datatype Option<T> = None | Some(value: T)

  /** The outcome of a call that may raise: `Err` carries the exception text. */
  datatype Result<T> = Ok(value: T) | Err(message: string)

  /** A Python value. `VObject` stands for an instance of a user class (one
      that has a `__dict__`); `text` is what `str()` gives for it. */
  datatype Value =
    | VNone
    | VBool(b: bool)
    | VInt(i: int)
    | VFloat(r: real)
    | VStr(s: string)
    | VList(items: seq<Value>)
    | VDict(fields: map<string, Value>)
    | VObject(className: string, text: string)

  /** Python truthiness (`if v:`). */
  predicate Truthy(v: Value)
  {
    match v
    case VNone => false
    case VBool(b) => b
    case VInt(i) => i != 0
    case VFloat(r) => r != 0.0
    case VStr(s) => s != []
    case VList(xs) => xs != []
    case VDict(m) => m != map[]
    case VObject(_, _) => true
  }

  /** One row of a data frame, or one JSON object: field name to value. */
  type Record = map<string, Value>

  /** A data frame: its column names in order and its rows. */
  datatype Table = Table(columns: seq<string>, rows: seq<Record>)

  /** `row.get(key, default)`. */
  function GetOr(r: Record, key: string, default: Value): Value
  {
    if key in r then r[key] else default
  }

  /** Python `x or default`: the value itself when truthy, else the default. */
  function OrElse(v: Value, default: Value): Value
  {
    if Truthy(v) then v else default
  }

  /** Concatenation of a sequence of sequences, as repeated `extend` does. */
  function Flatten<T>(xss: seq<seq<T>>): seq<T>
  {
    if xss == [] then [] else xss[0] + Flatten(xss[1..])
  }

  lemma {:induction false} FlattenAppend<T>(xss: seq<seq<T>>, ys: seq<T>)
    ensures Flatten(xss + [ys]) == Flatten(xss) + ys
  {
    if xss != [] {
      assert (xss + [ys])[1..] == xss[1..] + [ys];
      FlattenAppend(xss[1..], ys);
    }
  }
}
