/**
 * A Python `dict` from prompt strings to answer strings, as the chatbots use
 * it: keys in insertion order, `d[k] = v` overwriting the value of a present
 * key where it stands and appending a new key at the end, `d.items()` walking
 * the keys in that order, and truthiness meaning "not empty".
 */
module OrderedDict {
  import opened Wrappers

  predicate Distinct(ks: seq<string>) {
    forall i, j :: 0 <= i < j < |ks| ==> ks[i] != ks[j]
  }

  /** No key is listed twice (the recursive form of `Distinct`). */
  predicate Unique(ks: seq<string>) {
    ks == [] || (ks[0] !in ks[1..] && Unique(ks[1..]))
  }

  /** The keys listed. */
  function Elements(ks: seq<string>): set<string> {
    if ks == [] then {} else {ks[0]} + Elements(ks[1..])
  }

  /** The key order and the key-to-value mapping. Validity is stated by
      recursion rather than with quantifiers, so that every dictionary
      value in a proof does not bring quantified facts along. */
  datatype Table = Table(keys: seq<string>, values: map<string, string>) {
    predicate Valid() {
      Unique(keys) && values.Keys == Elements(keys)
    }
  }

  /** A dictionary: every key listed once, and exactly the mapped keys listed. */
  type Dict = t: Table | t.Valid() witness Table([], map[])

  lemma {:induction false} ElementsIn(ks: seq<string>, k: string)
    ensures k in Elements(ks) <==> k in ks
  {
    if ks != [] {
      ElementsIn(ks[1..], k);
      assert ks == [ks[0]] + ks[1..];
    }
  }

  lemma {:induction false} ElementsSnoc(ks: seq<string>, k: string)
    ensures Elements(ks + [k]) == Elements(ks) + {k}
  {
    if ks != [] {
      assert (ks + [k])[1..] == ks[1..] + [k];
      ElementsSnoc(ks[1..], k);
    }
  }

  lemma {:induction false} UniqueDistinct(ks: seq<string>)
    ensures Unique(ks) <==> Distinct(ks)
  {
    if ks != [] {
      UniqueDistinct(ks[1..]);
      assert forall i :: 1 <= i < |ks| ==> ks[i] == ks[1..][i - 1];
    }
  }

  lemma {:induction false} UniqueSnoc(ks: seq<string>, k: string)
    requires Unique(ks) && k !in ks
    ensures Unique(ks + [k])
  {
    if ks != [] {
      assert (ks + [k])[1..] == ks[1..] + [k];
      UniqueSnoc(ks[1..], k);
    }
  }

  /** What validity means: keys listed once, and a key is listed exactly when it is mapped. */
  lemma Keys(d: Dict)
    ensures Distinct(d.keys)
    ensures forall k :: k in d.keys <==> k in d.values
  {
    UniqueDistinct(d.keys);
    forall k
      ensures k in d.keys <==> k in d.values
    {
      ElementsIn(d.keys, k);
    }
  }

  const Empty: Dict := Table([], map[])

  function Size(d: Dict): nat {
    |d.keys|
  }

  /** `d.get(k)`. */
  function Get(d: Dict, k: string): Option<string> {
    if k in d.values then Some(d.values[k]) else None
  }

  /** `d[k] = v`. */
  function Put(d: Dict, k: string, v: string): (r: Dict)
    ensures Get(r, k) == Some(v)
    ensures forall k' :: k' != k ==> Get(r, k') == Get(d, k')
    ensures r.keys == if k in d.keys then d.keys else d.keys + [k]
  {
    Keys(d);
    if k in d.values then
      Table(d.keys, d.values[k := v])
    else
      UniqueSnoc(d.keys, k);
      ElementsSnoc(d.keys, k);
      Table(d.keys + [k], d.values[k := v])
  }

  /** `list(d.items())`: the entries in key order, each key with its value. */
  function Items(d: Dict): (es: seq<(string, string)>)
    ensures |es| == Size(d)
    ensures forall i :: 0 <= i < |es| ==> es[i].0 == d.keys[i] && Get(d, es[i].0) == Some(es[i].1)
  {
    Keys(d);
    seq(|d.keys|, i requires 0 <= i < |d.keys| => (d.keys[i], d.values[d.keys[i]]))
  }

  /** Assignment never removes an entry and adds one exactly when the key is new. */
  lemma PutSize(d: Dict, k: string, v: string)
    ensures Size(Put(d, k, v)) == if Get(d, k).None? then Size(d) + 1 else Size(d)
  {
    Keys(d);
  }
}
