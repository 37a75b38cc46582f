/** The JavaScript values that travel from the form collectors to the document
    generators, with the truthiness test behind `x || fallback` and the text
    conversion a template literal `${x}` applies. */
module JsValues {
  import opened Strings

  datatype Value =
    | Null
    | Str(s: string)
    | Num(n: int)   // a number, as an exact integer: the values here are counts
    | NaN
    | List(items: seq<Value>)
    | Obj(fields: map<string, Value>)

  /** A plain object: the keys it has and what they hold. A key it lacks reads as undefined. */
  type Record = map<string, Value>

  /** JavaScript truthiness: null, undefined, "", 0 and NaN are falsy; arrays and objects,
      even empty ones, are truthy. */
  predicate Truthy(v: Value)
  {
    match v
    case Null => false
    case Str(s) => s != ""
    case Num(n) => n != 0
    case NaN => false
    case List(_) => true
    case Obj(_) => true
  }

  /** `String(v)`: arrays are joined with commas, their null entries giving the empty text,
      and every plain object reads "[object Object]". */
  function ToText(v: Value): string
    decreases v
  {
    match v
    case Null => "null"
    case Str(s) => s
    case Num(n) => IntToString(n)
    case NaN => "NaN"
    case List(items) =>
      Join(seq(|items|, i requires 0 <= i < |items| => if items[i].Null? then "" else ToText(items[i])), ",")
    case Obj(_) => "[object Object]"
  }

  /** `${data.key || fallback}`: the fallback when the key is missing or falsy,
      the value's text otherwise. */
  function Or(data: Record, key: string, fallback: string): (r: string)
    ensures key !in data || !Truthy(data[key]) ==> r == fallback
    ensures key in data && data[key].Str? && data[key].s != "" ==> r == data[key].s
  {
    if key in data && Truthy(data[key]) then ToText(data[key]) else fallback
  }

  /** An array of strings. */
  function TextList(xs: seq<string>): (v: Value)
    ensures v.List? && |v.items| == |xs|
    ensures forall i :: 0 <= i < |xs| ==> v.items[i] == Str(xs[i])
  {
    List(seq(|xs|, i requires 0 <= i < |xs| => Str(xs[i])))
  }
}
