/** The JavaScript values the browser scripts handle, with the language rules
    the scripts lean on: truthiness, `parseFloat` of an arbitrary value, and
    the `table[key] || fallback` idiom on an object literal. */
module Js {
  import opened Numbers

  /** A primitive JavaScript value. Objects and arrays are not modelled. */
  datatype JsValue = Undefined | Null | Bool(b: bool) | Num(n: Number) | Str(s: string)

  /** JavaScript's ToBoolean: undefined, null, false, 0, NaN and "" are falsy. */
  predicate Truthy(v: JsValue)
  {
    match v
    case Undefined => false
    case Null => false
    case Bool(b) => b
    case Num(n) => !(n.NaN? || n == Finite(0.0))
    case Str(s) => s != []
  }

  /** `parseFloat(v)`: the argument is converted to a string first. A number's
      own text reads back as that number; `undefined`, `null`, `true` and
      `false` read as NaN. */
  function ParseFloatValue(v: JsValue): (n: Number)
    ensures v.Num? ==> n == v.n
    ensures v.Str? ==> n == JsParseFloat(v.s)
    ensures v.Undefined? || v.Null? || v.Bool? ==> n.NaN?
  {
    match v
    case Num(n) => n
    case Str(s) => JsParseFloat(s)
    case _ => NaN
  }

  /** Whether `name` is a property every object literal inherits from
      Object.prototype; looking it up on a literal finds a function. */
  predicate IsPrototypeMember(name: string)
  {
    name in {"constructor", "hasOwnProperty", "isPrototypeOf", "propertyIsEnumerable",
             "toLocaleString", "toString", "valueOf", "__proto__",
             "__defineGetter__", "__defineSetter__", "__lookupGetter__", "__lookupSetter__"}
  }

  /** The result of `table[key] || fallback`: a string, or an inherited
      Object.prototype member (a function, hence truthy). */
  datatype Property = Own(text: string) | Inherited(name: string)

  /** Whether `k` is a non-empty run of lower-case ASCII letters: no number's
      text (digits, `NaN`, `Infinity`) is such a word. */
  predicate IsWord(k: string)
  {
    k != [] && forall i :: 0 <= i < |k| ==> 'a' <= k[i] <= 'z'
  }

  /** `table[key] || fallback` on an object literal whose keys are words and
      whose values are non-empty strings. A number key never names an entry;
      `undefined`, `null`, `true` and `false` are looked up by their text. */
  function Lookup(table: map<string, string>, key: JsValue, fallback: string): (r: Property)
    requires forall k :: k in table ==> IsWord(k) && table[k] != ""
    ensures key.Str? && key.s in table ==> r == Own(table[key.s])
    ensures r.Inherited? <==> key.Str? && key.s !in table && IsPrototypeMember(key.s)
    ensures r.Own? ==> r.text == fallback || r.text in table.Values
  {
    match key
    case Num(_) => Own(fallback)
    case Undefined => Entry(table, "undefined", fallback)
    case Null => Entry(table, "null", fallback)
    case Bool(b) => Entry(table, if b then "true" else "false", fallback)
    case Str(s) =>
      if s in table then Own(table[s])
      else if IsPrototypeMember(s) then Inherited(s)
      else Own(fallback)
  }

  function Entry(table: map<string, string>, k: string, fallback: string): Property
  {
    if k in table then Own(table[k]) else Own(fallback)
  }
}
