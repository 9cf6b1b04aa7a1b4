/**
 * The secondary index of the package list, as a function of the history of
 * additions: entry `i` of `keys` is the dictionary key the `i`-th added item
 * was stored under, or None when the item's key was unhashable and the store
 * raised. Later additions overwrite earlier ones under the same key.
 */
module KeyedIndex {
  import opened Results

  /**
   * The dictionary built by storing `items[i]` under `keys[i]` for i = 0, 1, ...:
   * it holds only added items and has at most one entry per addition.
   */
  function Index<K, T>(keys: seq<Option<K>>, items: seq<T>): (r: map<K, T>)
    requires |keys| == |items|
    ensures forall k {:trigger r[k]} :: k in r ==> r[k] in items
    decreases |keys|
  {
    if keys == [] then map[]
    else
      var n := |keys| - 1;
      var prior := Index(keys[..n], items[..n]);
      match keys[n]
      case None => prior
      case Some(k) => prior[k := items[n]]
  }

  /** The position of the last addition stored under `k`, if any. */
  function Last<K(==)>(keys: seq<Option<K>>, k: K): (r: Option<nat>)
    ensures r.Some? ==> r.value < |keys| && keys[r.value] == Some(k)
    ensures r.Some? ==> forall j :: r.value < j < |keys| ==> keys[j] != Some(k)
    ensures r.None? ==> forall j :: 0 <= j < |keys| ==> keys[j] != Some(k)
    decreases |keys|
  {
    if keys == [] then None
    else if keys[|keys| - 1] == Some(k) then Some(|keys| - 1)
    else Last(keys[..|keys| - 1], k)
  }

  /** The distinct hashable keys among the additions. */
  ghost function Stored<K>(keys: seq<Option<K>>): set<K>
    decreases |keys|
  {
    if keys == [] then {}
    else
      var n := |keys| - 1;
      Stored(keys[..n]) + (if keys[n].Some? then {keys[n].value} else {})
  }

  /** A key is in the index exactly when some addition used it, and it holds the latest such item. */
  lemma {:induction false} IndexAt<K, T>(keys: seq<Option<K>>, items: seq<T>, k: K)
    requires |keys| == |items|
    ensures k in Index(keys, items) <==> Last(keys, k).Some?
    ensures k in Index(keys, items) ==> Index(keys, items)[k] == items[Last(keys, k).value]
    decreases |keys|
  {
    if keys != [] {
      var n := |keys| - 1;
      IndexAt(keys[..n], items[..n], k);
    }
  }

  /** The index has one entry per distinct hashable key added. */
  lemma {:induction false} IndexSize<K, T>(keys: seq<Option<K>>, items: seq<T>)
    requires |keys| == |items|
    ensures Index(keys, items).Keys == Stored(keys)
    ensures |Index(keys, items)| == |Stored(keys)|
    decreases |keys|
  {
    if keys != [] {
      var n := |keys| - 1;
      IndexSize(keys[..n], items[..n]);
    }
  }

  /** Every entry of the index is one of the added items, added under that key. */
  lemma IndexSound<K, T>(keys: seq<Option<K>>, items: seq<T>, k: K)
    requires |keys| == |items|
    requires k in Index(keys, items)
    ensures exists i :: 0 <= i < |keys| && keys[i] == Some(k) && items[i] == Index(keys, items)[k]
  {
    IndexAt(keys, items, k);
  }

  /** Every hashable addition is reachable through the index. */
  lemma IndexComplete<K, T>(keys: seq<Option<K>>, items: seq<T>, i: int)
    requires |keys| == |items|
    requires 0 <= i < |keys| && keys[i].Some?
    ensures keys[i].value in Index(keys, items)
  {
    IndexAt(keys, items, keys[i].value);
  }

  /** Adding an item overwrites its key's entry and leaves every other entry as it was. */
  lemma IndexAppend<K, T>(keys: seq<Option<K>>, items: seq<T>, key: Option<K>, item: T)
    requires |keys| == |items|
    ensures Index(keys + [key], items + [item]) ==
              if key.Some? then Index(keys, items)[key.value := item] else Index(keys, items)
  {
    assert (keys + [key])[..|keys|] == keys;
    assert (items + [item])[..|items|] == items;
  }
}
