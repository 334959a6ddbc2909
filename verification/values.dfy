/** Python runtime values as the agents see them: JSON-like data, with
    dictionaries as finite maps from string keys. */
module Values {
  import opened Wrappers

  /** `Atom` stands for any scalar that is neither a string nor None (ints,
      floats, booleans): it carries its `str()` text and its truthiness. */
  datatype Value =
    | Null
    | Str(s: string)
    | Atom(text: string, truthy: bool)
    | List(items: seq<Value>)
    | Obj(fields: map<string, Value>)

  /** A Python `dict` with string keys. Insertion order is not modelled. */
  type Dict = map<string, Value>

  /** Python truthiness: None, "", [], {} and falsy scalars are false. */
  predicate Truthy(v: Value) {
    match v
    case Null => false
    case Str(s) => |s| > 0
    case Atom(_, t) => t
    case List(xs) => |xs| > 0
    case Obj(m) => |m| > 0
  }

  /** No element of `xs` occurs twice. */
  predicate Distinct<T(==)>(xs: seq<T>) {
    forall i, j :: 0 <= i < j < |xs| ==> xs[i] != xs[j]
  }

  /** `d.get(key)`: None when the key is missing. */
  function Get(d: Dict, key: string): (r: Value)
    ensures key !in d ==> r == Null
    ensures key in d ==> r == d[key]
  {
    if key in d then d[key] else Null
  }

  /** `d.get(key, default)`. */
  function GetOr(d: Dict, key: string, default: Value): (r: Value)
    ensures key !in d ==> r == default
    ensures key in d ==> r == d[key]
  {
    if key in d then d[key] else default
  }

  /** Python's `a or b`. */
  function Or(a: Value, b: Value): (r: Value)
    ensures Truthy(a) ==> r == a
    ensures !Truthy(a) ==> r == b
  {
    if Truthy(a) then a else b
  }

  /** `a or b` is truthy exactly when one of its operands is. */
  lemma OrTruthy(a: Value, b: Value)
    ensures Truthy(Or(a, b)) <==> Truthy(a) || Truthy(b)
  {
  }

  /** `d.update(u)` viewed as a value: keys of `u` win, every other key of `d`
      keeps its value. */
  function Update(d: Dict, u: Dict): (r: Dict)
    ensures r.Keys == d.Keys + u.Keys
    ensures forall k :: k in u ==> r[k] == u[k]
    ensures forall k :: k in d && k !in u ==> r[k] == d[k]
  {
    d + u
  }

  /** Values a Python `set` accepts (lists and dicts are unhashable). */
  predicate Hashable(v: Value) {
    !v.List? && !v.Obj?
  }

  /** `str(v)`. Strings render as themselves, None as "None", scalars as their
      text; containers are rendered by `show`, which stands for Python's repr. */
  function PyStr(show: Value -> string, v: Value): (r: string)
    ensures v.Str? ==> r == v.s
  {
    match v
    case Null => "None"
    case Str(s) => s
    case Atom(t, _) => t
    case _ => show(v)
  }

  /** Updating twice with the same dictionary is the same as updating once. */
  lemma UpdateIdempotent(d: Dict, u: Dict)
    ensures Update(Update(d, u), u) == Update(d, u)
  {
    var once := Update(d, u);
    var twice := Update(once, u);
    assert twice.Keys == once.Keys;
    forall k | k in twice
      ensures twice[k] == once[k]
    {
    }
  }

  /** A per-record loop: one output per record, in order, each `entry` of that record. */
  method UpdateEach(records: seq<Dict>, entry: Dict -> Dict) returns (results: seq<Dict>)
    ensures |results| == |records|
    ensures forall k :: 0 <= k < |records| ==> results[k] == entry(records[k])
  {
    results := [];
    for i := 0 to |records|
      invariant |results| == i
      invariant forall k :: 0 <= k < i ==> results[k] == entry(records[k])
    {
      results := results + [entry(records[i])];
    }
  }
}
