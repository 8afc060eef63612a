/**
 * Python values as they appear in concept records, mention records and store metadata,
 * with Python truthiness, dictionaries as ordered key/value lists, `str()` and the
 * exceptions the code can raise.
 */
module PyValues {
  import opened Wrappers
  import opened PyStrings

  /** A Python value. Floats, tuples and sets are not part of this model. */
  datatype Value =
    | PyNone
    | PyBool(b: bool)
    | PyInt(i: int)
    | PyStr(s: string)
    | PyList(items: seq<Value>)
    | PyDict(entries: Record)
    | PyType(name: string)            // a class object such as `str`

  /** A Python `dict` with string keys: its items in insertion order. */
  type Record = seq<(string, Value)>

  /** The exceptions the modelled code raises. */
  datatype Error =
    | KeyError(key: string)           // `d[key]` on a missing key
    | AttributeError(what: string)    // a `str` method called on a non-string
    | TypeError(what: string)         // an operation on a value of the wrong type
    | IndexError(what: string)        // a list index past the end
    | ValueError(msg: string)         // an explicit `raise ValueError(msg)`
    | RepresenterError(msg: string)   // `yaml.safe_dump` given a value it cannot represent

  /** Python truthiness: `None`, `False`, `0`, `""` and empty containers are falsy. */
  predicate Truthy(v: Value) {
    match v
    case PyNone => false
    case PyBool(b) => b
    case PyInt(i) => i != 0
    case PyStr(s) => s != []
    case PyList(items) => items != []
    case PyDict(entries) => entries != []
    case PyType(_) => true
  }

  /** The keys of a dictionary, in insertion order. */
  function Keys(d: Record): (ks: seq<string>)
    ensures |ks| == |d|
    ensures forall i :: 0 <= i < |d| ==> ks[i] == d[i].0
  {
    if d == [] then [] else [d[0].0] + Keys(d[1..])
  }

  /** `k in d`. */
  predicate HasKey(d: Record, k: string) {
    k in Keys(d)
  }

  /** Python dictionaries never hold a key twice; every record built by the model keeps this. */
  predicate UniqueKeys(d: Record) {
    forall i, j :: 0 <= i < j < |d| ==> d[i].0 != d[j].0
  }

  /** `d.get(k)`: the value stored under `k`, if any. */
  function Get(d: Record, k: string): (r: Option<Value>)
    ensures r.Some? <==> HasKey(d, k)
    ensures r.Some? ==> (k, r.value) in d
  {
    if d == [] then None
    else if d[0].0 == k then Some(d[0].1)
    else Get(d[1..], k)
  }

  /** In a dictionary without repeated keys, the value under a key is the one of its item. */
  lemma {:induction false} GetUnique(d: Record, i: nat)
    requires UniqueKeys(d) && i < |d|
    ensures Get(d, d[i].0) == Some(d[i].1)
  {
    if i > 0 {
      GetUnique(d[1..], i - 1);
    }
  }

  /** `d[k] = v`: the key `k` gets the value `v`, every other key keeps its own. */
  function Set(d: Record, k: string, v: Value): (r: Record)
    ensures forall k' :: Get(r, k') == if k' == k then Some(v) else Get(d, k')
    ensures HasKey(r, k)
    ensures UniqueKeys(d) ==> UniqueKeys(r)
  {
    if d == [] then [(k, v)]
    else if d[0].0 == k then
      var r := [(k, v)] + d[1..];
      assert r[0] == (k, v) && r[1..] == d[1..];
      r
    else
      var rest := Set(d[1..], k, v);
      var r := [d[0]] + rest;
      assert r[0] == d[0] && r[1..] == rest;
      assert UniqueKeys(d) ==> UniqueKeys(r) by {
        if UniqueKeys(d) {
          HeadNotInTail(d);
          assert Get(rest, d[0].0) == Get(d[1..], d[0].0);
          ConsUnique(d[0], rest);
        }
      }
      r
  }

  /** In a dictionary without repeated keys, the first key is not among the others. */
  lemma HeadNotInTail(d: Record)
    requires d != [] && UniqueKeys(d)
    ensures !HasKey(d[1..], d[0].0) && UniqueKeys(d[1..])
  {
    forall j | 0 <= j < |d[1..]| ensures Keys(d[1..])[j] != d[0].0 {
      assert d[1..][j] == d[j + 1];
    }
  }

  /** A new key in front of a dictionary without repeated keys repeats none. */
  lemma ConsUnique(x: (string, Value), rest: Record)
    requires UniqueKeys(rest) && !HasKey(rest, x.0)
    ensures UniqueKeys([x] + rest)
  {
    forall j | 0 <= j < |rest| ensures rest[j].0 != x.0 {
      assert Keys(rest)[j] == rest[j].0;
    }
  }

  /** After `d[k] = v`, an existing key keeps its position and a new key goes last. */
  lemma {:induction false} SetKeys(d: Record, k: string, v: Value)
    ensures Keys(Set(d, k, v)) == if HasKey(d, k) then Keys(d) else Keys(d) + [k]
  {
    if d != [] && d[0].0 != k {
      SetKeys(d[1..], k, v);
      assert Set(d, k, v) == [d[0]] + Set(d[1..], k, v);
      assert Keys(Set(d, k, v)) == [d[0].0] + Keys(Set(d[1..], k, v));
    }
  }

  /** The items of `d` that `keep` accepts, in the order of `d` (a dict comprehension with a filter). */
  function Filter(d: Record, keep: ((string, Value)) -> bool): (r: Record)
    ensures |r| <= |d|
    ensures forall e :: e in r <==> e in d && keep(e)
  {
    if d == [] then []
    else if keep(d[0]) then [d[0]] + Filter(d[1..], keep)
    else Filter(d[1..], keep)
  }

  /** Filtering distributes over concatenation: the kept items keep their relative order. */
  lemma {:induction false} FilterConcat(a: Record, b: Record, keep: ((string, Value)) -> bool)
    ensures Filter(a + b, keep) == Filter(a, keep) + Filter(b, keep)
  {
    if a == [] {
      assert a + b == b;
    } else {
      assert (a + b)[0] == a[0];
      assert (a + b)[1..] == a[1..] + b;
      FilterConcat(a[1..], b, keep);
    }
  }

  /** Filtering a dictionary without repeated keys: a key keeps its value exactly when its item is kept. */
  lemma {:induction false} GetFilter(d: Record, keep: ((string, Value)) -> bool, k: string)
    requires UniqueKeys(d)
    ensures Get(Filter(d, keep), k) ==
            if Get(d, k).Some? && keep((k, Get(d, k).value)) then Get(d, k) else None
  {
    if d != [] {
      assert UniqueKeys(d[1..]);
      GetFilter(d[1..], keep, k);
      if d[0].0 == k {
        assert !HasKey(d[1..], k);
        assert !HasKey(Filter(d[1..], keep), k);
      }
    }
  }

  /** `str(v)`. */
  function Str(v: Value): string {
    match v
    case PyStr(s) => s
    case _ => Repr(v)
  }

  /** `repr(v)`; strings are quoted with `'` and no escaping is modelled. */
  function Repr(v: Value): string
    decreases v
  {
    match v
    case PyNone => "None"
    case PyBool(b) => if b then "True" else "False"
    case PyInt(i) => IntToString(i)
    case PyStr(s) => "'" + s + "'"
    case PyList(items) => "[" + Join(", ", seq(|items|, j requires 0 <= j < |items| => Repr(items[j]))) + "]"
    case PyDict(entries) =>
      "{" + Join(", ", seq(|entries|, j requires 0 <= j < |entries| => "'" + entries[j].0 + "': " + Repr(entries[j].1))) + "}"
    case PyType(name) => "<class '" + name + "'>"
  }
}
