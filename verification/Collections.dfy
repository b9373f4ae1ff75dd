/** Vocabulary shared by the component models: optional values, sequences without
    repetition, and the insertion-ordered dictionary of JavaScript. */
module Collections {
  datatype Option<+T> = None | Some(value: T)

  function Min(a: int, b: int): int { if a < b then a else b }
  function Max(a: int, b: int): int { if a < b then b else a }

  /** All strings of a list, one after the other. */
  function Join(ts: seq<string>): string {
    if ts == [] then "" else Join(ts[..|ts| - 1]) + ts[|ts| - 1]
  }

  ghost predicate Distinct<T>(s: seq<T>) {
    forall i, j :: 0 <= i < j < |s| ==> s[i] != s[j]
  }

  function Without<T(==,!new)>(s: seq<T>, x: T): (r: seq<T>)
    ensures forall y :: y in r <==> y in s && y != x
    ensures |r| <= |s|
    ensures Distinct(s) ==> Distinct(r)
    ensures x !in s ==> r == s
  {
    if s == [] then []
    else if s[0] == x then Without(s[1..], x)
    else
      var rest := Without(s[1..], x);
      assert Distinct(s) ==> s[0] !in s[1..] && Distinct(s[1..]) && s[0] !in rest;
      [s[0]] + rest
  }

  /** The last `n` elements of `s`, or all of them when there are fewer. */
  function LastN<T>(s: seq<T>, n: nat): (r: seq<T>)
    ensures |r| == if |s| <= n then |s| else n
    ensures forall i :: 0 <= i < |r| ==> r[i] == s[|s| - |r| + i]
  {
    if |s| <= n then s else s[|s| - n..]
  }

  /** Keeping a window while appending is the same as appending first. */
  lemma LastNAppend<T>(s: seq<T>, x: T, n: nat)
    ensures LastN(LastN(s, n) + [x], n) == LastN(s + [x], n)
  {
  }

  /** A JavaScript `Map`: a dictionary that remembers insertion order. Writing an existing
      key keeps its place; a removed key that comes back goes to the end. */
  datatype OrderedMap<K(==,!new), V> = OrderedMap(order: seq<K>, items: map<K, V>) {
    ghost predicate Valid() {
      && Distinct(order)
      && (forall k :: k in order <==> k in items)
    }

    function Put(k: K, v: V): (r: OrderedMap<K, V>)
      ensures Valid() ==> r.Valid()
    {
      OrderedMap(if k in items then order else order + [k], items[k := v])
    }

    function Remove(k: K): (r: OrderedMap<K, V>)
      ensures Valid() ==> r.Valid()
    {
      OrderedMap(Without(order, k), items - {k})
    }
  }
}
