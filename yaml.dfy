/**
 * Parsed YAML/JSON values as the Python code sees them after `yaml.safe_load`
 * or `json.loads`: `None`, booleans, integers, strings, lists and dicts.
 * A dict keeps insertion order, so it is an association list; `Other`
 * stands for any remaining scalar (a float, a date) through its `str()`
 * text and its truthiness.
 */
module Yaml {
  import opened Wrappers

  datatype Value =
    | Null
    | Bool(b: bool)
    | Int(i: int)
    | Str(s: string)
    | List(items: seq<Value>)
    | Map(entries: seq<(string, Value)>)
    | Other(text: string, truthy: bool)

  type Entries = seq<(string, Value)>

  /** Python truthiness: `None`, `False`, `0`, `""`, `[]` and `{}` are false. */
  predicate Truthy(v: Value) {
    match v
    case Null => false
    case Bool(b) => b
    case Int(i) => i != 0
    case Str(s) => s != ""
    case List(xs) => xs != []
    case Map(es) => es != []
    case Other(_, t) => t
  }

  /** The keys of a dict, in insertion order (`dict.keys()`). */
  function Keys(es: Entries): (ks: seq<string>)
    ensures |ks| == |es|
    ensures forall i :: 0 <= i < |es| ==> ks[i] == es[i].0
  {
    if es == [] then [] else [es[0].0] + Keys(es[1..])
  }

  /** No key occurs twice: every Python dict satisfies this. */
  predicate UniqueKeys(es: Entries) {
    forall i, j :: 0 <= i < j < |es| ==> es[i].0 != es[j].0
  }

  /** A value all of whose dicts, at any depth, have unique keys. */
  predicate WellFormed(v: Value) {
    match v
    case List(xs) => forall i :: 0 <= i < |xs| ==> WellFormed(xs[i])
    case Map(es) => UniqueKeys(es) && forall i :: 0 <= i < |es| ==> WellFormed(es[i].1)
    case _ => true
  }

  /** `d[k]` when `k in d`, as an Option. */
  function Get(es: Entries, k: string): (r: Option<Value>)
    ensures r.None? <==> k !in Keys(es)
  {
    if es == [] then None
    else if es[0].0 == k then Some(es[0].1)
    else Get(es[1..], k)
  }

  /** `d.get(k, default)`. */
  function GetOr(es: Entries, k: string, default: Value): (r: Value)
    ensures k !in Keys(es) ==> r == default
    ensures k in Keys(es) ==> Some(r) == Get(es, k)
  {
    match Get(es, k)
    case Some(v) => v
    case None => default
  }

  /** `d[k] = v`: an existing key keeps its position, a new key goes last. */
  function Put(es: Entries, k: string, v: Value): (r: Entries)
    ensures |r| == if k in Keys(es) then |es| else |es| + 1
  {
    if es == [] then [(k, v)]
    else if es[0].0 == k then [(k, v)] + es[1..]
    else [es[0]] + Put(es[1..], k, v)
  }

  /** After `d[k] = v`, k holds v and every other key what it held before. */
  lemma {:induction false} PutGet(es: Entries, k: string, v: Value, k': string)
    ensures Get(Put(es, k, v), k') == if k' == k then Some(v) else Get(es, k')
  {
    if es != [] && es[0].0 != k {
      PutGet(es[1..], k, v, k');
    }
  }

  /** `d[k] = v` keeps the key order, appending k when it is new. */
  lemma {:induction false} PutKeys(es: Entries, k: string, v: Value)
    ensures Keys(Put(es, k, v)) == if k in Keys(es) then Keys(es) else Keys(es) + [k]
  {
    if es != [] && es[0].0 != k {
      PutKeys(es[1..], k, v);
      assert Keys(es) == [es[0].0] + Keys(es[1..]);
    }
  }

  /** Writing back the value a key already holds leaves a dict unchanged. */
  lemma {:induction false} PutExisting(es: Entries, i: nat)
    requires UniqueKeys(es) && i < |es|
    ensures Put(es, es[i].0, es[i].1) == es
  {
    if i > 0 {
      assert es[0].0 != es[i].0;
      TailUnique(es);
      PutExisting(es[1..], i - 1);
      assert es[1..][i - 1] == es[i];
    }
  }

  /** The tail of a dict with unique keys has unique keys. */
  lemma TailUnique(es: Entries)
    requires UniqueKeys(es) && es != []
    ensures UniqueKeys(es[1..])
  {
    forall a, b | 0 <= a < b < |es[1..]| ensures es[1..][a].0 != es[1..][b].0 {
      assert es[1..][a] == es[a + 1] && es[1..][b] == es[b + 1];
    }
  }

  /** In a dict with unique keys, the entry at position i is what Get finds. */
  lemma {:induction false} GetAt(es: Entries, i: nat)
    requires UniqueKeys(es) && i < |es|
    ensures Get(es, es[i].0) == Some(es[i].1)
  {
    if i > 0 {
      assert es[0].0 != es[i].0;
      TailUnique(es);
      GetAt(es[1..], i - 1);
      assert es[1..][i - 1] == es[i];
    }
  }
}
