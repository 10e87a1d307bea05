/** The few pieces of Python's runtime that the normalisers lean on, stated
    over `Json` values: `dict.get`, `d[k]`, `d.items()`, iteration, truth
    values, `str()` and the exceptions each of them raises. */
module Py {
  import opened Results
  import opened JsonValues
  import Text

  /** The exceptions the dispatch code can raise. `JsonDecodeError` is kept
      apart because the Workers host answers it with its own status. */
  datatype PyError =
    | AttributeError(typeName: string, attr: string)
    | KeyError(key: string)
    | TypeError(message: string)
    | JsonDecodeError
    | TransportError(reason: string)
    | HttpStatusError(status: int)
    | ValueError(message: string)

  type Outcome<T> = Result<T, PyError>

  /** `type(v).__name__` for each kind of value `json.loads` returns. */
  function TypeName(j: Json): string {
    match j
    case Null => "NoneType"
    case Bool(_) => "bool"
    case Num(_) => "int"
    case Str(_) => "str"
    case Arr(_) => "list"
    case Obj(_) => "dict"
  }

  /** Python truthiness: `None`, `False`, `0` and empty containers are false. */
  predicate Truthy(j: Json) {
    match j
    case Null => false
    case Bool(b) => b
    case Num(n) => n != 0
    case Str(s) => |s| > 0
    case Arr(items) => |items| > 0
    case Obj(fields) => |fields| > 0
  }

  /** `j.get(k, d)`: the stored value when `k` is present (even when it is
      `None`), `d` only when `k` is absent; anything but a dict has no `get`. */
  function Get(j: Json, k: string, d: Json): (r: Outcome<Json>)
    ensures r.Ok? <==> j.Obj?
    ensures r.Err? ==> r.error == AttributeError(TypeName(j), "get")
  {
    match j
    case Obj(fields) =>
      (match Lookup(fields, k)
       case Some(v) => Ok(v)
       case None => Ok(d))
    case _ => Err(AttributeError(TypeName(j), "get"))
  }

  /** `j[k]` with a string key. */
  function Subscript(j: Json, k: string): (r: Outcome<Json>)
    ensures r.Ok? <==> j.Obj? && Lookup(j.fields, k).Some?
    ensures r.Ok? ==> r.value == Field(j, k)
    ensures j.Obj? && Lookup(j.fields, k).None? ==> r == Err(KeyError(k))
  {
    match j
    case Obj(fields) =>
      (match Lookup(fields, k)
       case Some(v) => Ok(v)
       case None => Err(KeyError(k)))
    case Arr(_) => Err(TypeError("list indices must be integers or slices, not str"))
    case Str(_) => Err(TypeError("string indices must be integers, not 'str'"))
    case _ => Err(TypeError("'" + TypeName(j) + "' object is not subscriptable"))
  }

  /** `j.items()`. */
  function Items(j: Json): (r: Outcome<Fields>)
    ensures r.Ok? <==> j.Obj?
    ensures r.Ok? ==> r.value == j.fields
  {
    if j.Obj? then Ok(j.fields) else Err(AttributeError(TypeName(j), "items"))
  }

  /** `for x in j`: a list yields its items, a dict its keys, a string its
      one-character substrings; `None`, booleans and numbers are not iterable. */
  function Iter(j: Json): (r: Outcome<seq<Json>>)
    ensures r.Ok? <==> j.Arr? || j.Obj? || j.Str?
    ensures j.Arr? ==> r == Ok(j.items)
  {
    match j
    case Arr(items) => Ok(items)
    case Obj(fields) => Ok(seq(|fields|, i requires 0 <= i < |fields| => Str(fields[i].0)))
    case Str(s) => Ok(seq(|s|, i requires 0 <= i < |s| => Str([s[i]])))
    case _ => Err(TypeError("'" + TypeName(j) + "' object is not iterable"))
  }

  /** A list comprehension `[f(x) for x in xs]`: it stops at the first
      element whose step raises, and raises that. */
  function MapAll(f: Json -> Outcome<Json>, xs: seq<Json>): (r: Outcome<seq<Json>>)
    ensures r.Ok? <==> forall i :: 0 <= i < |xs| ==> f(xs[i]).Ok?
    ensures r.Ok? ==> |r.value| == |xs|
    ensures r.Ok? ==> forall i :: 0 <= i < |xs| ==> f(xs[i]) == Ok(r.value[i])
    ensures r.Err? ==> exists i :: 0 <= i < |xs| && f(xs[i]) == Err(r.error) &&
                         forall j :: 0 <= j < i ==> f(xs[j]).Ok?
  {
    if |xs| == 0 then Ok([])
    else
      var head :- f(xs[0]);
      match MapAll(f, xs[1..])
      case Err(e) =>
        var i :| 0 <= i < |xs[1..]| && f(xs[1..][i]) == Err(e) &&
                 forall j :: 0 <= j < i ==> f(xs[1..][j]).Ok?;
        assert f(xs[i + 1]) == Err(e);
        assert forall j :: 1 <= j < i + 1 ==> f(xs[j]).Ok? by {
          forall j | 1 <= j < i + 1 ensures f(xs[j]).Ok? {
            assert xs[j] == xs[1..][j - 1];
          }
        }
        Err(e)
      case Ok(tail) =>
        assert forall i :: 1 <= i < |xs| ==> xs[i] == xs[1..][i - 1];
        Ok([head] + tail)
  }

  /** Whether `j` may be looked up in a dict (`x in d` hashes `x`). */
  predicate Hashable(j: Json) {
    !j.Arr? && !j.Obj?
  }

  /** `repr(j)`. String escapes are not modelled: a string is shown between
      single quotes as it stands. */
  function Repr(j: Json): string
    decreases j, 1
  {
    if j.Str? then "'" + j.s + "'" else Show(j)
  }

  /** `str(j)`, as an f-string renders it. */
  function Show(j: Json): string
    decreases j, 0
  {
    match j
    case Null => "None"
    case Bool(b) => if b then "True" else "False"
    case Num(n) => Text.Decimal(n)
    case Str(s) => s
    case Arr(items) =>
      "[" + Text.Join(seq(|items|, i requires 0 <= i < |items| => Repr(items[i])), ", ") + "]"
    case Obj(fields) =>
      "{" + Text.Join(seq(|fields|, i requires 0 <= i < |fields| =>
                            "'" + fields[i].0 + "': " + Repr(fields[i].1)), ", ") + "}"
  }

  /** `str(e)` for each exception. */
  function Message(e: PyError): string {
    match e
    case AttributeError(t, a) => "'" + t + "' object has no attribute '" + a + "'"
    case KeyError(k) => "'" + k + "'"
    case TypeError(m) => m
    case JsonDecodeError => "Expecting value: line 1 column 1 (char 0)"
    case TransportError(reason) => reason
    case HttpStatusError(status) => "HTTP status " + Text.Decimal(status)
    case ValueError(m) => m
  }

  /** The default of `dict.get` is used only for an absent key: a key that is
      present with value `None` yields `None`, not the default. */
  lemma GetDefaultOnlyWhenAbsent(fields: Fields, k: string, d: Json)
    requires d != Null
    ensures k !in Keys(fields) ==> Get(Obj(fields), k, d) == Ok(d)
    ensures (k, Null) in fields && DistinctKeys(fields) ==> Get(Obj(fields), k, d) == Ok(Null)
  {
    LookupFinds(fields, k);
    if (k, Null) in fields && DistinctKeys(fields) {
      var i :| 0 <= i < |fields| && fields[i] == (k, Null);
      LookupAt(fields, i);
    }
  }
}
