/**
 * The slice of Python's data model the agent relies on: JSON-like values as
 * they come back from the LLM output parser and from yfinance, their
 * truthiness, and insertion-ordered dictionaries with distinct keys.
 */
module PyData {
  import opened Wrappers

  /** A JSON-like Python value. Lists and dicts nested inside other payloads are `Other`. */
  datatype Json =
    | Null
    | Bool(b: bool)
    | Int(i: int)
    | Float(x: real)
    | Str(s: string)
    | List(items: seq<Json>)
    | Other(nonEmpty: bool)

  /** Python truthiness (`bool(v)`). */
  predicate Truthy(v: Json) {
    match v
    case Null => false
    case Bool(b) => b
    case Int(i) => i != 0
    case Float(x) => x != 0.0
    case Str(s) => s != ""
    case List(items) => items != []
    case Other(nonEmpty) => nonEmpty
  }

  /** A JSON object / yfinance `info` dict, looked up by key only. */
  type Object = map<string, Json>

  /** `obj.get(k)`: the stored value, or `None` when the key is absent. */
  function Get(obj: Object, k: string): (v: Json)
    ensures k in obj ==> v == obj[k]
    ensures k !in obj ==> v == Null
  {
    if k in obj then obj[k] else Null
  }

  /** `obj.get(k, default)`. */
  function GetDefault(obj: Object, k: string, default: Json): (v: Json)
    ensures k in obj ==> v == obj[k]
    ensures k !in obj ==> v == default
  {
    if k in obj then obj[k] else default
  }

  /** `a or b`: the first operand when it is truthy, else the second. */
  function Or(a: Json, b: Json): (r: Json)
    ensures Truthy(a) ==> r == a
    ensures !Truthy(a) ==> r == b
  {
    if Truthy(a) then a else b
  }

  /**
   * A Python `dict` whose iteration order matters: its entries in insertion
   * order. The keys are pairwise distinct (see `DistinctKeys`).
   */
  type Table<K, V> = seq<(K, V)>

  /** A `dict` with string keys. */
  type Dict<V> = Table<string, V>

  /** `list(d.keys())`. */
  function Keys<K, V>(d: Table<K, V>): (ks: seq<K>)
    ensures |ks| == |d|
    ensures forall i :: 0 <= i < |d| ==> ks[i] == d[i].0
  {
    if d == [] then [] else [d[0].0] + Keys(d[1..])
  }

  ghost predicate DistinctKeys<K, V>(d: Table<K, V>) {
    forall i, j :: 0 <= i < j < |d| ==> d[i].0 != d[j].0
  }

  /** `d.get(k)` on a dict. */
  function Lookup<K(==), V>(d: Table<K, V>, k: K): (r: Option<V>)
    ensures r.None? <==> k !in Keys(d)
    ensures r.Some? ==> exists i :: 0 <= i < |d| && d[i] == (k, r.value)
  {
    if d == [] then None
    else if d[0].0 == k then Some(d[0].1)
    else
      var r := Lookup(d[1..], k);
      assert r.Some? ==> exists i :: 0 <= i < |d| - 1 && d[1..][i] == (k, r.value);
      assert Keys(d) == [d[0].0] + Keys(d[1..]);
      r
  }

  /** With distinct keys, `d.get` finds the value stored with each key. */
  lemma LookupDistinct<K, V>(d: Table<K, V>, i: nat)
    requires DistinctKeys(d)
    requires i < |d|
    ensures Lookup(d, d[i].0) == Some(d[i].1)
  {
    assert Keys(d)[i] == d[i].0;
    var r := Lookup(d, d[i].0);
    var j :| 0 <= j < |d| && d[j] == (d[i].0, r.value);
    assert i == j;
  }

  /**
   * `d[k] = v`: an existing key keeps its position and gets the new value,
   * a new key is appended at the end.
   */
  function Assign<K(==), V>(d: Table<K, V>, k: K, v: V): (r: Table<K, V>)
    ensures Keys(r) == if k in Keys(d) then Keys(d) else Keys(d) + [k]
  {
    if d == [] then [(k, v)]
    else if d[0].0 == k then [(k, v)] + d[1..]
    else
      var rest := Assign(d[1..], k, v);
      assert Keys(d) == [d[0].0] + Keys(d[1..]);
      assert Keys([d[0]] + rest) == [d[0].0] + Keys(rest);
      [d[0]] + rest
  }

  /** After `d[k] = v`, `d.get(k)` is `v` and every other key reads as before. */
  lemma {:induction false} AssignLookup<K, V>(d: Table<K, V>, k: K, v: V, k': K)
    ensures Lookup(Assign(d, k, v), k') == if k' == k then Some(v) else Lookup(d, k')
  {
    if d != [] && d[0].0 != k {
      AssignLookup(d[1..], k, v, k');
    }
  }

  /** Assignment keeps the keys distinct. */
  lemma AssignDistinct<K, V>(d: Table<K, V>, k: K, v: V)
    requires DistinctKeys(d)
    ensures DistinctKeys(Assign(d, k, v))
  {
    var r := Assign(d, k, v);
    var ks, rs := Keys(d), Keys(r);
    assert forall i, j :: 0 <= i < j < |d| ==> ks[i] != ks[j];
    forall i, j | 0 <= i < j < |r|
      ensures r[i].0 != r[j].0
    {
      assert r[i].0 == rs[i] && r[j].0 == rs[j];
    }
  }
}
