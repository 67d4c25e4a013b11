/** The Python values that flow through the client and the signal handlers:
    decoded JSON bodies and the dictionaries built from them, with the bits of
    Python semantics the code leans on (truthiness, `dict.get`, `a or b`,
    `str(x)`, `int(x)`, `len(x)`, hashing, and what a `for x in v: x.get(...)`
    loop visits). */
module Json {
  import opened Base
  import opened Text

  datatype Json =
    | JNull
    | JBool(b: bool)
    | JInt(i: int)
    | JStr(s: string)
    | JList(items: seq<Json>)
    | JObj(fields: map<string, Json>)

  /** Python's `bool(v)`. */
  predicate Truthy(j: Json) {
    match j
    case JNull => false
    case JBool(b) => b
    case JInt(i) => i != 0
    case JStr(s) => s != ""
    case JList(xs) => xs != []
    case JObj(m) => m != map[]
  }

  /** Python `a or b`. */
  function Or(a: Json, b: Json): (r: Json)
    ensures Truthy(r) <==> Truthy(a) || Truthy(b)
    ensures Truthy(a) ==> r == a
    ensures !Truthy(a) ==> r == b
  {
    if Truthy(a) then a else b
  }

  /** `d.get(k)`. */
  function Get(m: map<string, Json>, k: string): (r: Json)
    ensures k !in m ==> r == JNull
    ensures k in m ==> r == m[k]
  {
    if k in m then m[k] else JNull
  }

  /** `d.get(k, default)`: the default is used only when the key is absent. */
  function GetOr(m: map<string, Json>, k: string, default: Json): (r: Json)
    ensures k !in m ==> r == default
    ensures k in m ==> r == m[k]
  {
    if k in m then m[k] else default
  }

  /** `d.get('success', False)`, as a condition. */
  predicate Succeeded(m: map<string, Json>) {
    Truthy(GetOr(m, "success", JBool(false)))
  }

  /** Python's `type(v).__name__`. */
  function TypeName(j: Json): string {
    match j
    case JNull => "NoneType"
    case JBool(_) => "bool"
    case JInt(_) => "int"
    case JStr(_) => "str"
    case JList(_) => "list"
    case JObj(_) => "dict"
  }

  /** The text of the `AttributeError` raised by `v.get(...)` on a non-dict. */
  function NoGet(j: Json): string {
    "'" + TypeName(j) + "' object has no attribute 'get'"
  }

  /** Python `str(v)` as used by f-strings. Dictionaries are rendered as
      `{...}`: their key order is not part of this model. */
  function PyStr(j: Json): string
    decreases j, 0
  {
    match j
    case JNull => "None"
    case JBool(b) => if b then "True" else "False"
    case JInt(i) => IntToString(i)
    case JStr(s) => s
    case JList(xs) => "[" + ReprItems(xs) + "]"
    case JObj(_) => "{...}"
  }

  function Repr(j: Json): string
    decreases j, 1
  {
    match j
    case JStr(s) => "'" + s + "'"
    case JList(xs) => "[" + ReprItems(xs) + "]"
    case _ => PyStr(j)
  }

  function ReprItems(xs: seq<Json>): string
    decreases xs, 0
  {
    if xs == [] then ""
    else if |xs| == 1 then Repr(xs[0])
    else Repr(xs[0]) + ", " + ReprItems(xs[1..])
  }

  /** Python `int(v)`; `None` stands for the `TypeError`/`ValueError` it raises. */
  function PyInt(j: Json): Option<int> {
    match j
    case JInt(i) => Some(i)
    case JBool(b) => Some(if b then 1 else 0)
    case JStr(s) => ParseInt(s)
    case _ => None
  }

  /** Python `len(v)`; `None` stands for the `TypeError` raised on numbers and `None`. */
  function PyLen(j: Json): Option<nat> {
    match j
    case JStr(s) => Some(|s|)
    case JList(xs) => Some(|xs|)
    case JObj(m) => Some(|m|)
    case _ => None
  }

  /** The text of the `TypeError` raised by `len(v)` when `PyLen(v)` is `None`. */
  function NoLen(j: Json): string {
    "object of type '" + TypeName(j) + "' has no len()"
  }

  /** The value a Python `set` stores for `v`: `True == 1` and `False == 0`
      hash alike; lists and dicts are unhashable (`None`). */
  function HashKey(j: Json): Option<Json> {
    match j
    case JBool(b) => Some(JInt(if b then 1 else 0))
    case JList(_) => None
    case JObj(_) => None
    case _ => Some(j)
  }

  /** What a loop `for x in v: x.get(...)` gets through: the dictionaries it
      visits, in order, and the error that stops it, if any. Iterating a
      non-empty string or dict yields strings, whose `.get` fails at once; an
      empty one yields nothing; numbers, booleans and `None` are not
      iterable. */
  datatype Walk = Walk(items: seq<map<string, Json>>, failure: Option<string>)

  function DictPrefix(xs: seq<Json>): (w: Walk)
    ensures |w.items| <= |xs|
    ensures forall i :: 0 <= i < |w.items| ==> xs[i] == JObj(w.items[i])
    ensures w.failure.None? ==> |w.items| == |xs|
    ensures w.failure.Some? ==> |w.items| < |xs| && !xs[|w.items|].JObj?
  {
    if xs == [] then Walk([], None)
    else match xs[0] {
      case JObj(m) =>
        var rest := DictPrefix(xs[1..]);
        Walk([m] + rest.items, rest.failure)
      case other => Walk([], Some(NoGet(other)))
    }
  }

  function GetLoop(j: Json): Walk {
    match j
    case JList(xs) => DictPrefix(xs)
    case JStr(s) => if s == "" then Walk([], None) else Walk([], Some(NoGet(JStr(""))))
    case JObj(m) => if m == map[] then Walk([], None) else Walk([], Some(NoGet(JStr(""))))
    case _ => Walk([], Some("'" + TypeName(j) + "' object is not iterable"))
  }
}
