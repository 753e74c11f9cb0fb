/** The parsed plan JSON, and the few Python operations the post-processing
    applies to it: truthiness, `d.get(k, default)`, `d[k]`, `d[k] = v`,
    `x[0]` / `x[-1]`, iteration and hashing. Each operation fails with the
    exception Python raises when the value has the wrong type. */
module PyJson {

  datatype Option<+T> = None | Some(value: T)

  /** The exceptions the post-processing can raise. `run` catches `KeyError`
      and `AttributeError` (and a JSON decode error); the others escape. */
  datatype PyError = KeyError | AttributeError | TypeError | ValueError | IndexError

  datatype Result<+T> = Ok(value: T) | Err(error: PyError) {
    predicate IsFailure() { Err? }
    function PropagateFailure<U>(): Result<U> requires Err? { Err(error) }
    function Extract(): T requires Ok? { value }
  }

  /** A value as `json.loads` returns it. An object keeps its keys in
      insertion order, as a Python dict does. */
  datatype Json =
    | JNull
    | JBool(b: bool)
    | JInt(i: int)
    | JFloat(r: real)
    | JStr(s: string)
    | JArr(elems: seq<Json>)
    | JObj(fields: seq<(string, Json)>)

  /** Python's `bool(x)`. */
  predicate Truthy(j: Json) {
    match j
    case JNull => false
    case JBool(b) => b
    case JInt(i) => i != 0
    case JFloat(r) => r != 0.0
    case JStr(s) => s != []
    case JArr(xs) => xs != []
    case JObj(fs) => fs != []
  }

  /** The keys of an object, in insertion order. */
  function Keys(fields: seq<(string, Json)>): (ks: seq<string>)
    ensures |ks| == |fields|
    ensures forall i :: 0 <= i < |fields| ==> ks[i] == fields[i].0
  {
    if fields == [] then [] else [fields[0].0] + Keys(fields[1..])
  }

  /** The value stored under `k`, if any. */
  function Lookup(fields: seq<(string, Json)>, k: string): Option<Json> {
    if fields == [] then None
    else if fields[0].0 == k then Some(fields[0].1)
    else Lookup(fields[1..], k)
  }

  /** Lemma: a key is found exactly when it is one of the keys. */
  lemma {:induction false} LookupSpec(fields: seq<(string, Json)>, k: string)
    ensures Lookup(fields, k).Some? <==> k in Keys(fields)
  {
    if fields != [] {
      LookupSpec(fields[1..], k);
      assert Keys(fields) == [fields[0].0] + Keys(fields[1..]);
    }
  }

  predicate HasKey(fields: seq<(string, Json)>, k: string) {
    Lookup(fields, k).Some?
  }

  function LookupOr(fields: seq<(string, Json)>, k: string, default: Json): Json {
    match Lookup(fields, k)
    case Some(v) => v
    case None => default
  }

  /** `d[k] = v` on a dict: an existing key keeps its place and gets the new
      value, a new key goes at the end. */
  function Store(fields: seq<(string, Json)>, k: string, v: Json): seq<(string, Json)> {
    if fields == [] then [(k, v)]
    else if fields[0].0 == k then [(k, v)] + fields[1..]
    else [fields[0]] + Store(fields[1..], k, v)
  }

  /** Lemma: after `d[k] = v`, `d[k]` is `v`, every other key reads as
      before, and the keys are the old ones, plus `k` at the end when it is
      new. */
  lemma {:induction false} StoreSpec(fields: seq<(string, Json)>, k: string, v: Json)
    ensures Lookup(Store(fields, k, v), k) == Some(v)
    ensures forall k' :: k' != k ==> Lookup(Store(fields, k, v), k') == Lookup(fields, k')
    ensures Keys(Store(fields, k, v)) == if k in Keys(fields) then Keys(fields) else Keys(fields) + [k]
  {
    if fields != [] && fields[0].0 != k {
      StoreSpec(fields[1..], k, v);
      assert Store(fields, k, v)[1..] == Store(fields[1..], k, v);
    }
  }

  /** Lemma: two stores under different keys: both new values read back and
      every other key reads as before. */
  lemma StoreTwice(fields: seq<(string, Json)>, k1: string, v1: Json, k2: string, v2: Json)
    requires k1 != k2
    ensures Lookup(Store(Store(fields, k1, v1), k2, v2), k1) == Some(v1)
    ensures Lookup(Store(Store(fields, k1, v1), k2, v2), k2) == Some(v2)
    ensures forall k :: k != k1 && k != k2 ==> Lookup(Store(Store(fields, k1, v1), k2, v2), k) == Lookup(fields, k)
  {
    StoreSpec(fields, k1, v1);
    StoreSpec(Store(fields, k1, v1), k2, v2);
  }

  /** `d.get(k, default)`; only a dict has `get`. */
  function GetOr(j: Json, k: string, default: Json): Result<Json> {
    if j.JObj? then Ok(LookupOr(j.fields, k, default)) else Err(AttributeError)
  }

  /** `d[k]` with a string key. */
  function Subscript(j: Json, k: string): Result<Json> {
    match j
    case JObj(fs) => if HasKey(fs, k) then Ok(Lookup(fs, k).value) else Err(KeyError)
    case _ => Err(TypeError)
  }

  /** `d[k] = v`: only a dict accepts a string key. */
  function StoreKey(j: Json, k: string, v: Json): Result<Json> {
    if j.JObj? then Ok(JObj(Store(j.fields, k, v))) else Err(TypeError)
  }

  /** `x[0]` (or `x[-1]` when `last`). An object's keys are strings, so an
      integer subscript is a `KeyError`; a string yields a one-character
      string. */
  function Index(j: Json, last: bool): Result<Json> {
    match j
    case JArr(xs) => if xs == [] then Err(IndexError) else Ok(if last then xs[|xs| - 1] else xs[0])
    case JStr(s) => if s == [] then Err(IndexError) else Ok(JStr([if last then s[|s| - 1] else s[0]]))
    case JObj(_) => Err(KeyError)
    case _ => Err(TypeError)
  }

  /** What `for x in j` (or `list.extend(j)`) visits: a list's elements, a
      dict's keys, a string's characters. */
  function Iterate(j: Json): (r: Result<seq<Json>>)
    ensures r.Ok? ==> |r.value| == match j { case JArr(xs) => |xs| case JObj(fs) => |fs| case JStr(s) => |s| case _ => 0 }
    ensures r.Err? <==> !(j.JArr? || j.JObj? || j.JStr?)
  {
    match j
    case JArr(xs) => Ok(xs)
    case JObj(fs) => Ok(seq(|fs|, i requires 0 <= i < |fs| => JStr(fs[i].0)))
    case JStr(s) => Ok(seq(|s|, i requires 0 <= i < |s| => JStr([s[i]])))
    case _ => Err(TypeError)
  }

  /** Lists and dicts cannot go into a Python set. */
  predicate Hashable(j: Json) {
    !(j.JArr? || j.JObj?)
  }

  /** `str(x)` as an f-string uses it; `show` stands for Python's rendering
      of non-string values. */
  function Text(j: Json, show: Json -> string): string {
    if j.JStr? then j.s else show(j)
  }
}
