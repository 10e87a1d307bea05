/** JSON values as Python's `json.loads` produces them. Objects are ordered
    association lists, so that the insertion order Python dictionaries keep
    is part of the value. Floating-point numbers are not modelled. */
module JsonValues {
  import opened Results

  datatype Json =
    | Null
    | Bool(b: bool)
    | Num(n: int)
    | Str(s: string)
    | Arr(items: seq<Json>)
    | Obj(fields: seq<(string, Json)>)

  type Fields = seq<(string, Json)>

  /** The keys of an association list, in order. */
  function Keys(fields: Fields): (ks: seq<string>)
    ensures |ks| == |fields|
    ensures forall i :: 0 <= i < |fields| ==> ks[i] == fields[i].0
  {
    seq(|fields|, i requires 0 <= i < |fields| => fields[i].0)
  }

  predicate Distinct(xs: seq<string>) {
    forall i, j :: 0 <= i < j < |xs| ==> xs[i] != xs[j]
  }

  /** No key occurs twice: the shape of every Python dictionary. */
  predicate DistinctKeys(fields: Fields) {
    forall i, j :: 0 <= i < j < |fields| ==> fields[i].0 != fields[j].0
  }

  lemma DistinctKeysOf(fields: Fields)
    ensures DistinctKeys(fields) <==> Distinct(Keys(fields))
  {
  }

  /** The value stored under `k`: the first binding of `k`, which is the only
      one when the keys are distinct. */
  function Lookup(fields: Fields, k: string): Option<Json> {
    if |fields| == 0 then None
    else if fields[0].0 == k then Some(fields[0].1)
    else Lookup(fields[1..], k)
  }

  /** A key is found exactly when it is bound, and what is found is bound
      to it. */
  lemma {:induction false} LookupFinds(fields: Fields, k: string)
    ensures Lookup(fields, k).Some? <==> k in Keys(fields)
    ensures Lookup(fields, k).Some? ==> (k, Lookup(fields, k).value) in fields
  {
    if |fields| > 0 {
      LookupFinds(fields[1..], k);
      assert Keys(fields) == [fields[0].0] + Keys(fields[1..]);
    }
  }

  /** With distinct keys, every binding is what its key finds. */
  lemma {:induction false} LookupAt(fields: Fields, i: int)
    requires DistinctKeys(fields) && 0 <= i < |fields|
    ensures Lookup(fields, fields[i].0) == Some(fields[i].1)
  {
    if i > 0 {
      LookupAt(fields[1..], i - 1);
    }
  }

  /** The keys of an object value, empty for anything else. */
  function ObjKeys(j: Json): seq<string> {
    if j.Obj? then Keys(j.fields) else []
  }

  /** `k in j` for a dict `j`. */
  predicate Has(j: Json, k: string) {
    j.Obj? && Lookup(j.fields, k).Some?
  }

  /** The value under `k` of an object, `Null` when it is absent or `j` is
      not an object. Used to state properties of normalised outputs. */
  function Field(j: Json, k: string): Json {
    if j.Obj? then
      match Lookup(j.fields, k)
      case Some(v) => v
      case None => Null
    else Null
  }

  /** In an object with distinct keys, each binding is what its key finds. */
  lemma FieldAt(fields: Fields, i: int)
    requires DistinctKeys(fields) && 0 <= i < |fields|
    ensures Field(Obj(fields), fields[i].0) == fields[i].1
  {
    LookupAt(fields, i);
  }

  /** A list of strings as a JSON array. */
  function StrArray(xs: seq<string>): (j: Json)
    ensures j.Arr? && |j.items| == |xs|
    ensures forall i :: 0 <= i < |xs| ==> j.items[i] == Str(xs[i])
  {
    Arr(seq(|xs|, i requires 0 <= i < |xs| => Str(xs[i])))
  }

  /** Keep the bindings whose key is in `keep`, in their original order. */
  function Restrict(fields: Fields, keep: set<string>): (r: Fields)
    ensures forall i :: 0 <= i < |r| ==> r[i].0 in keep && r[i] in fields
  {
    if |fields| == 0 then []
    else if fields[0].0 in keep then [fields[0]] + Restrict(fields[1..], keep)
    else Restrict(fields[1..], keep)
  }

  /** Dropping keys never changes the lookup of a key that is kept. */
  lemma {:induction false} LookupRestrict(fields: Fields, keep: set<string>, k: string)
    requires k in keep
    ensures Lookup(Restrict(fields, keep), k) == Lookup(fields, k)
  {
    if |fields| > 0 {
      LookupRestrict(fields[1..], keep, k);
    }
  }
}
