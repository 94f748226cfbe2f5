/** The Python values the server code handles, with the language rules it
    leans on: truthiness, `float(v)`, `str(v)` and `dict.get` with a default. */
module Py {
  import opened Text
  import opened Numbers
  import opened Wrappers

  /** A Python value as it comes out of a database row or a JSON body.
      Lists, dicts, `Decimal` and `datetime` values are not modelled. */
  datatype PyValue = PyNone | PyBool(b: bool) | PyInt(i: int) | PyFloat(x: Number) | PyStr(s: string)

  /** Python's `bool(v)`: None, False, 0, 0.0 and "" are falsy; NaN is truthy. */
  predicate Truthy(v: PyValue)
  {
    match v
    case PyNone => false
    case PyBool(b) => b
    case PyInt(i) => i != 0
    case PyFloat(x) => x != Finite(0.0)
    case PyStr(s) => s != []
  }

  /** Python's `float(v)`; `None` where it raises (None is a TypeError, a
      malformed string a ValueError). */
  function Float(v: PyValue): (r: Option<Number>)
    ensures v.PyNone? ==> r.None?
    ensures v.PyStr? ==> r == PyParseFloat(v.s)
    ensures v.PyFloat? ==> r == Some(v.x)
    ensures v.PyBool? || v.PyInt? ==> r.Some? && r.value.Finite?
  {
    match v
    case PyNone => None
    case PyBool(b) => Some(Finite(if b then 1.0 else 0.0))
    case PyInt(i) => Some(Finite(i as real))
    case PyFloat(x) => Some(x)
    case PyStr(s) => PyParseFloat(s)
  }

  /** Python's `str(v)`, which is also what an f-string prints. A float is
      printed by its shortest round-tripping repr, which is given as
      `floatRepr`. */
  function Str(v: PyValue, floatRepr: Number -> string): string
  {
    match v
    case PyNone => "None"
    case PyBool(b) => if b then "True" else "False"
    case PyInt(i) => IntToString(i)
    case PyFloat(x) => floatRepr(x)
    case PyStr(s) => s
  }

  /** `d.get(key, default)`: the stored value whenever the key is there,
      even a stored None; the default only when the key is missing. */
  function DictGet(d: map<string, PyValue>, key: string, default: PyValue): (r: PyValue)
    ensures key in d ==> r == d[key]
    ensures key !in d ==> r == default
  {
    if key in d then d[key] else default
  }

  /** `table.get(key, default)` on a dict whose keys are strings: a value
      that is not a string never finds an entry. */
  function TableGet(table: map<string, string>, key: PyValue, default: string): (r: string)
    ensures key.PyStr? && key.s in table ==> r == table[key.s]
    ensures !(key.PyStr? && key.s in table) ==> r == default
    ensures r == default || r in table.Values
  {
    if key.PyStr? && key.s in table then table[key.s] else default
  }
}
