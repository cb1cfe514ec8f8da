/** Insertion-ordered dictionaries: what a Python `dict` is to the code that iterates over it. */
module Dicts {

  datatype Option<+T> = None | Some(value: T)

  ghost predicate Distinct<T(!new)>(s: seq<T>) {
    forall i, j :: 0 <= i < j < |s| ==> s[i] != s[j]
  }

  lemma Joined<T>(a: seq<T>, b: seq<T>, c: seq<T>)
    ensures (a + b) + c == a + (b + c)
  {
  }

  /** `list.remove(x)`: drops the first occurrence only. */
  function RemoveFirst<T(==, !new)>(s: seq<T>, x: T): (r: seq<T>)
    ensures x !in s ==> r == s
    ensures forall y :: y != x ==> (y in r <==> y in s)
    ensures forall y :: y in r ==> y in s
  {
    if s == [] then []
    else if s[0] == x then s[1..]
    else
      var rest := RemoveFirst(s[1..], x);
      assert forall y :: y in s <==> y == s[0] || y in s[1..];
      [s[0]] + rest
  }

  /** In a list without duplicates one `remove` takes the element out for good. */
  lemma {:induction false} RemoveFirstErases<T(!new)>(s: seq<T>, x: T)
    requires Distinct(s)
    ensures Distinct(RemoveFirst(s, x)) && x !in RemoveFirst(s, x)
  {
    if s != [] && s[0] != x {
      RemoveFirstErases(s[1..], x);
      assert s[0] !in s[1..];
    }
  }

  /** `keys` lists the keys in insertion order; `vals` maps them to their values. */
  datatype Dict<K(==, !new), V> = Dict(keys: seq<K>, vals: map<K, V>) {

    ghost predicate Valid() {
      Distinct(keys) && forall k :: k in keys <==> k in vals
    }

    /** `d[k] = v` and `d.update({k: v})`: an existing key keeps its place. */
    function Put(k: K, v: V): (d: Dict<K, V>)
      ensures Valid() ==> d.Valid()
      ensures d.vals == vals[k := v]
    {
      Dict(if k in vals then keys else keys + [k], vals[k := v])
    }

    /** `d.pop(k)` for a key that is present. */
    function Pop(k: K): (d: Dict<K, V>)
      requires k in vals
      ensures Valid() ==> d.Valid()
      ensures d.vals == vals - {k}
    {
      var d := Dict(RemoveFirst(keys, k), vals - {k});
      assert Valid() ==> d.Valid() by {
        if Valid() {
          RemoveFirstErases(keys, k);
        }
      }
      d
    }
  }

  function Empty<K(==, !new), V>(): Dict<K, V> {
    Dict([], map[])
  }

  /** The loop `for k, v in more.items(): d[k] = v`, from key number `from` on. */
  function PutFrom<K(==, !new), V>(d: Dict<K, V>, more: Dict<K, V>, from: nat): (r: Dict<K, V>)
    requires from <= |more.keys|
    requires forall k :: k in more.keys ==> k in more.vals
    ensures d.Valid() ==> r.Valid()
    ensures r.vals.Keys == d.vals.Keys + (set k | k in more.keys[from..])
    decreases |more.keys| - from
  {
    if from == |more.keys| then d
    else
      assert more.keys[from..] == [more.keys[from]] + more.keys[from + 1..];
      PutFrom(d.Put(more.keys[from], more.vals[more.keys[from]]), more, from + 1)
  }
}
