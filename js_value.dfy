/** The small slice of JavaScript value semantics that the data-preparation
    code of the map component relies on: JSON scalars, truthiness, the `||`
    operator, and the string a value becomes when it is used as an object key. */
module JsValue {

  datatype Option<+T> = None | Some(value: T) {
    function GetOr(default: T): T {
      match this
      case Some(v) => v
      case None => default
    }
  }

  /** A JSON scalar as it appears in a parsed property bag. `undefined` (a
      missing member) and `null` behave alike in every expression modelled
      here, so both are `Null`. */
  datatype Value = Null | Bool(b: bool) | Num(n: int) | Str(s: string)

  /** JavaScript truthiness of a scalar (NaN and -0 do not arise: numbers are
      integers). */
  predicate Truthy(v: Value) {
    match v
    case Null => false
    case Bool(b) => b
    case Num(n) => n != 0
    case Str(s) => s != ""
  }

  /** `a || b`: the left operand when it is truthy, otherwise the right one. */
  function Or(a: Value, b: Value): (r: Value)
    ensures Truthy(a) ==> r == a
    ensures !Truthy(a) ==> r == b
  {
    if Truthy(a) then a else b
  }

  /** A property bag (a parsed JSON object). */
  type PropertyBag = map<string, Value>

  /** `bag[key]`: a member that is absent reads as `undefined`. */
  function Get(bag: PropertyBag, key: string): Value {
    if key in bag then bag[key] else Null
  }

  /** `Number(x || 0)` and `Number(x ?? 0)` on a JSON number or null: an absent
      or null count is 0. */
  function CountOf(x: Option<int>): int {
    x.GetOr(0)
  }

  /** A position of a GeoJSON geometry, carried unchanged. */
  datatype Position = Position(lng: real, lat: real)

  /** Decimal digits of a natural number, as `String(n)` prints it. */
  function NatDigits(n: nat): string
    decreases n
  {
    var d := ['0', '1', '2', '3', '4', '5', '6', '7', '8', '9'][n % 10];
    if n < 10 then [d] else NatDigits(n / 10) + [d]
  }

  /** The property name a value becomes in `obj[v]` (ToString of a scalar). */
  function KeyString(v: Value): string {
    match v
    case Null => "null"
    case Bool(b) => if b then "true" else "false"
    case Num(n) => if n < 0 then "-" + NatDigits(-n) else NatDigits(n)
    case Str(s) => s
  }
}
