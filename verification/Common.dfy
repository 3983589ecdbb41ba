/** Datatypes shared by the modules of the model. */
module Common {
  datatype Option<+T> = None | Some(value: T)

  /** The Python exceptions of the source become the `Err` side of a result. */
  datatype Result<+T, +E> = Ok(value: T) | Err(error: E)

  /** Instants and durations are whole microseconds, the resolution of Python's `datetime`. */
  const SECOND: int := 1_000_000

  function Min(a: int, b: int): int {
    if a <= b then a else b
  }

  ghost predicate NoDuplicates<T>(s: seq<T>) {
    forall i, j :: 0 <= i < j < |s| ==> s[i] != s[j]
  }

  ghost function Elements<T>(s: seq<T>): set<T> {
    set x | x in s
  }

  /** The map after the entries are put in one by one. */
  function AddAll<K, V>(m: map<K, V>, keys: seq<K>, values: seq<V>): map<K, V>
    requires |keys| == |values|
  {
    if keys == [] then m
    else
      var n := |keys| - 1;
      AddAll(m, keys[..n], values[..n])[keys[n] := values[n]]
  }

  lemma AddOne<K, V>(m: map<K, V>, keys: seq<K>, values: seq<V>, key: K, value: V)
    requires |keys| == |values|
    ensures AddAll(m, keys + [key], values + [value]) == AddAll(m, keys, values)[key := value]
  {
    assert (keys + [key])[..|keys|] == keys && (values + [value])[..|values|] == values;
  }

  lemma {:induction false} AddAllKeys<K, V>(m: map<K, V>, keys: seq<K>, values: seq<V>)
    requires |keys| == |values|
    ensures AddAll(m, keys, values).Keys == m.Keys + Elements(keys)
    ensures forall k :: k in m && k !in keys ==> AddAll(m, keys, values)[k] == m[k]
  {
    if keys != [] {
      var n := |keys| - 1;
      AddAllKeys(m, keys[..n], values[..n]);
      assert keys == keys[..n] + [keys[n]];
    }
  }

  lemma {:induction false} AddAllAt<K, V>(m: map<K, V>, keys: seq<K>, values: seq<V>, i: nat)
    requires |keys| == |values| && NoDuplicates(keys) && i < |keys|
    ensures keys[i] in AddAll(m, keys, values) && AddAll(m, keys, values)[keys[i]] == values[i]
  {
    var n := |keys| - 1;
    if i < n {
      AddAllAt(m, keys[..n], values[..n], i);
    }
  }

  lemma UpdateTwice<K, V>(m: map<K, V>, key: K, first: V, second: V)
    ensures m[key := first][key := second] == m[key := second]
  {
  }

  /** What `f` makes of the items, without the items it drops. */
  function Choose<T, U>(items: seq<T>, f: T -> Option<U>): seq<U> {
    if items == [] then []
    else
      var n := |items| - 1;
      Choose(items[..n], f) + match f(items[n]) case Some(u) => [u] case None => []
  }

  lemma {:induction false} ChooseAppend<T, U>(a: seq<T>, b: seq<T>, f: T -> Option<U>)
    ensures Choose(a + b, f) == Choose(a, f) + Choose(b, f)
  {
    if b == [] {
      assert a + b == a;
    } else {
      var n := |b| - 1;
      assert (a + b)[..|a| + n] == a + b[..n];
      ChooseAppend(a, b[..n], f);
    }
  }

  lemma {:induction false} ChooseAll<T, U>(items: seq<T>, f: T -> Option<U>, kept: seq<U>)
    requires |kept| == |items| && forall i :: 0 <= i < |items| ==> f(items[i]) == Some(kept[i])
    ensures Choose(items, f) == kept
  {
    if items != [] {
      var n := |items| - 1;
      ChooseAll(items[..n], f, kept[..n]);
      assert kept == kept[..n] + [kept[n]];
    }
  }

  lemma {:induction false} ChooseNone<T, U>(items: seq<T>, f: T -> Option<U>)
    requires forall i :: 0 <= i < |items| ==> f(items[i]) == None
    ensures Choose(items, f) == []
  {
    if items != [] {
      ChooseNone(items[..|items| - 1], f);
    }
  }

  lemma {:induction false} ChooseKeeps<T, U>(items: seq<T>, f: T -> Option<U>, i: nat, u: U)
    requires i < |items| && f(items[i]) == Some(u)
    ensures u in Choose(items, f)
  {
    if i < |items| - 1 {
      ChooseKeeps(items[..|items| - 1], f, i, u);
    }
  }

  lemma {:induction false} ChooseFrom<T, U>(items: seq<T>, f: T -> Option<U>, u: U) returns (i: nat)
    requires u in Choose(items, f)
    ensures i < |items| && f(items[i]) == Some(u)
  {
    var n := |items| - 1;
    if f(items[n]) == Some(u) {
      i := n;
    } else {
      i := ChooseFrom(items[..n], f, u);
    }
  }
}
