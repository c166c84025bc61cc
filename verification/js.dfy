/** JavaScript values as the warehouse service handles them: loosely typed
    record fields, plain objects, and thrown errors. */
module Js {

  datatype Option<+T> = None | Some(value: T)

  /** A field value. `Null` and `Undefined` are distinct, as in JavaScript;
      strings and numbers are the only other values the records carry. */
  datatype Value = Null | Undefined | Str(s: string) | Num(n: int)

  /** A plain object: field name to value. An absent field is not a key. */
  type Record = map<string, Value>

  /** The property read `obj[field]`: an absent field reads as `undefined`. */
  function Get(r: Record, field: string): Value
  {
    if field in r then r[field] else Undefined
  }

  /** A thrown `Error`: its `name`, its numeric `code` when it has one, and its `message`. */
  datatype Failure = Failure(name: string, code: Option<int>, message: string)

  /** How an awaited call ends: it returns a value or it throws. */
  datatype Outcome<+T> = Returned(value: T) | Threw(error: Failure)
}
