/**
 * JavaScript values as the SDK sees them when it reads a property of a plain
 * object: enough of JSON plus `undefined` to talk about JavaScript truthiness
 * and about `Object.assign`. Numbers are integers here (no NaN, no fractions).
 */
module JsonValues {

  datatype Json =
    | Undefined
    | Null
    | Bool(b: bool)
    | Num(n: int)
    | Str(s: string)
    | Arr(items: seq<Json>)
    | Obj(fields: map<string, Json>)

  /** JavaScript truthiness: `undefined`, `null`, `false`, `0` and `""` are falsy, everything else
      (every object and every array, even an empty one) is truthy. */
  predicate Truthy(j: Json)
  {
    match j
    case Undefined => false
    case Null => false
    case Bool(b) => b
    case Num(n) => n != 0
    case Str(s) => s != ""
    case Arr(_) => true
    case Obj(_) => true
  }

  /** Property read `obj[key]` on a plain object: a missing key reads as `undefined`. */
  function Field(obj: map<string, Json>, key: string): (r: Json)
    ensures key !in obj ==> r == Undefined
    ensures key in obj ==> r == obj[key]
  {
    if key in obj then obj[key] else Undefined
  }
}
