/**
 * Decoded JSON values as the server handles them: ConceptNet pages, edges
 * and concept nodes are Python dicts, lists and scalars.  A JSON number is
 * a real (Python compares `1 == 1.0`).  A dict is a map; the order in
 * which Python iterates its keys (insertion order) is the uninterpreted
 * `KeyOrder`.
 */
module JsonValues {

  datatype Option<T> = None | Some(value: T)

  datatype Json =
    | Null
    | Bool(b: bool)
    | Num(r: real)
    | Str(s: string)
    | Arr(items: seq<Json>)
    | Obj(fields: map<string, Json>)

  /** The keys of a dict in Python's iteration (insertion) order. */
  const KeyOrder: map<string, Json> -> seq<string>

  /** `str(v)` of a value that is not a string (`'None'`, `'True'`, `'1.5'`,
    * a list or dict display); the model leaves the text open. */
  const FormatOther: Json -> string

  /** How an f-string renders a value: a string as itself. */
  function Text(j: Json): (r: string)
    ensures j.Str? ==> r == j.s
  {
    if j.Str? then j.s else FormatOther(j)
  }

  /** Python truthiness (`bool(x)`) of a decoded value. */
  predicate Truthy(j: Json)
  {
    match j
    case Null => false
    case Bool(b) => b
    case Num(r) => r != 0.0
    case Str(s) => s != []
    case Arr(a) => a != []
    case Obj(m) => m != map[]
  }

  /** `key in d` for a dict `d`. */
  predicate Has(d: Json, key: string)
  {
    d.Obj? && key in d.fields
  }

  /** `d.get(key, default)` for a dict `d` (a non-dict yields the default). */
  function FieldOr(d: Json, key: string, default: Json): Json
  {
    if Has(d, key) then d.fields[key] else default
  }

  /** `d.get(key)`: JSON null stands for Python's None. */
  function Field(d: Json, key: string): Json
  {
    FieldOr(d, key, Null)
  }

  /** The Python `or` operator: the left operand when truthy, else the right. */
  function Or(a: Json, b: Json): (r: Json)
    ensures Truthy(a) ==> r == a
    ensures !Truthy(a) ==> r == b
  {
    if Truthy(a) then a else b
  }

  /** Python iteration over a value (`for x in v`, `list.extend(v)`):
    * a list yields its items, a string its one-character strings and a
    * dict its keys; None marks a scalar, where Python raises TypeError. */
  function Items(j: Json): (r: Option<seq<Json>>)
    ensures j.Arr? ==> r == Some(j.items)
    ensures j.Str? ==> r.Some? && |r.value| == |j.s|
    ensures r.Some? <==> j.Arr? || j.Str? || j.Obj?
  {
    match j
    case Arr(a) => Some(a)
    case Str(s) => Some(seq(|s|, i requires 0 <= i < |s| => Str([s[i]])))
    case Obj(m) =>
      var keys := KeyOrder(m);
      Some(seq(|keys|, i requires 0 <= i < |keys| => Str(keys[i])))
    case _ => None
  }

  /** `len(v)`: None where Python raises TypeError. */
  function Len(j: Json): (r: Option<nat>)
    ensures j.Arr? ==> r == Some(|j.items|)
    ensures r.None? <==> !(j.Arr? || j.Str? || j.Obj?)
  {
    match j
    case Arr(a) => Some(|a|)
    case Str(s) => Some(|s|)
    case Obj(m) => Some(|m.Keys|)
    case _ => None
  }

  /** Whether Python can put the value in a set or use it as a dict key. */
  predicate Hashable(j: Json)
  {
    !(j.Arr? || j.Obj?)
  }
}
