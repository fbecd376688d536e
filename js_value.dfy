/**
 * JavaScript values as the services see them after `response.json()`, with the three
 * language rules the code leans on: truthiness (`if (x)`, `x || y`), `String(x)`,
 * and property reads (`x.key`), which throw a TypeError on `null` and `undefined`.
 */
module JsValue {
  import opened Wrappers
  import opened JsText

  /** Numbers are integers here: the application never looks at a fractional one. */
  datatype Js =
    | Undefined
    | Null
    | Bool(b: bool)
    | Num(n: int)
    | Str(s: string)
    | Arr(elems: seq<Js>)
    | Obj(fields: map<string, Js>)

  predicate Nullish(j: Js) { j.Undefined? || j.Null? }

  /** `Boolean(j)`: false for undefined, null, false, 0 and "" only. */
  predicate Truthy(j: Js)
  {
    match j
    case Undefined => false
    case Null => false
    case Bool(b) => b
    case Num(n) => n != 0
    case Str(s) => s != ""
    case Arr(_) => true
    case Obj(_) => true
  }

  function IntString(n: int): string
  {
    if n < 0 then "-" + Decimal(-n) else Decimal(n)
  }

  /** `String(j)`. Arrays join their elements with "," (null and undefined as ""). */
  function Stringify(j: Js): (r: string)
    decreases j, 1
    ensures j.Str? ==> r == j.s
  {
    match j
    case Undefined => "undefined"
    case Null => "null"
    case Bool(b) => if b then "true" else "false"
    case Num(n) => IntString(n)
    case Str(s) => s
    case Arr(xs) => JoinFrom(j, 0)
    case Obj(_) => "[object Object]"
  }

  /** `a.slice(from).join(",")` for the array `a`. */
  function JoinFrom(a: Js, from: nat): string
    requires a.Arr?
    decreases a, 0, |a.elems| - from
  {
    if from >= |a.elems| then ""
    else
      var e := a.elems[from];
      var head := if Nullish(e) then "" else Stringify(e);
      if from + 1 == |a.elems| then head else head + "," + JoinFrom(a, from + 1)
  }

  /** The message of the TypeError thrown by reading `key` of null or undefined
      (a stand-in for the engine's message, which differs by engine and by syntax;
      the model only relies on it being non-empty). */
  function ReadError(j: Js, key: string): (m: string)
    ensures m != ""
  {
    "Cannot read properties of " + (if j.Null? then "null" else "undefined")
      + " (reading '" + key + "')"
  }

  /** `j[key]` on an own property: fails exactly on null and undefined,
      and gives `undefined` for a key the object does not have. */
  function Get(j: Js, key: string): (r: Result<Js, string>)
    ensures r.Failure? <==> Nullish(j)
    ensures r.Failure? ==> r.error != ""
    ensures j.Obj? && key in j.fields ==> r == Success(j.fields[key])
    ensures !Nullish(j) && !(j.Obj? && key in j.fields) ==> r == Success(Undefined)
  {
    match j
    case Undefined => Failure(ReadError(j, key))
    case Null => Failure(ReadError(j, key))
    case Obj(m) => Success(if key in m then m[key] else Undefined)
    case _ => Success(Undefined)
  }
}
