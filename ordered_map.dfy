/** Python's insertion-ordered `dict` from names to entities: the order of
    `keys` is the iteration order of `.items()` and `.keys()`, which decides
    camera enumeration and hence dataset keys. */
module OrderedMaps {

  datatype OrderedMap<V> = OrderedMap(keys: seq<string>, values: map<string, V>)
  {
    /** The keys listed are exactly the domain of `values`. */
    ghost predicate Valid() {
      forall k :: k in values <==> k in keys
    }

    /** No key is listed twice. */
    ghost predicate Distinct() {
      forall i, j :: 0 <= i < j < |keys| ==> keys[i] != keys[j]
    }

    function Size(): nat { |keys| }

    /** `d[k] = v`: an existing key keeps its position, a new one goes last. */
    function Set(k: string, v: V): (r: OrderedMap<V>)
      ensures Valid() ==> r.Valid()
      ensures r.values == values[k := v]
      ensures k in values ==> r.keys == keys
      ensures k !in values ==> r.keys == keys + [k]
    {
      if k in values then OrderedMap(keys, values[k := v])
      else OrderedMap(keys + [k], values[k := v])
    }
  }

  /** Assignment never lists a key twice. */
  lemma SetDistinct<V>(m: OrderedMap<V>, k: string, v: V)
    requires m.Valid() && m.Distinct()
    ensures m.Set(k, v).Distinct()
  {
  }

  /** A second assignment to the same key overrides the first. */
  lemma SetSet<V>(m: OrderedMap<V>, k: string, v: V, w: V)
    ensures m.Set(k, v).Set(k, w) == m.Set(k, w)
  {
    assert m.values[k := v][k := w] == m.values[k := w];
  }

  function Empty<V>(): (r: OrderedMap<V>)
    ensures r.Valid() && r.keys == []
  {
    OrderedMap([], map[])
  }

  /** Re-assigning the value a key already holds changes nothing. */
  lemma SetSame<V>(m: OrderedMap<V>, k: string)
    requires k in m.values
    ensures m.Set(k, m.values[k]) == m
  {
    assert m.values[k := m.values[k]] == m.values;
  }

  /** Indices `a` and `b` share a key. Injectivity is stated over this
      predicate so that it is used only where a proof names a pair. */
  ghost predicate SameKey(key: nat -> string, a: nat, b: nat)
  {
    key(a) == key(b)
  }

  /** No two indices share a key. */
  ghost predicate Injective(key: nat -> string)
  {
    forall a: nat, b: nat {:trigger SameKey(key, a, b)} :: SameKey(key, a, b) ==> a == b
  }

  /** No two indices below `n` share a key. */
  ghost predicate InjectiveBelow(key: nat -> string, n: nat)
  {
    forall a: nat, b: nat {:trigger SameKey(key, a, b)} :: a < n && b < n && SameKey(key, a, b) ==> a == b
  }

  lemma InjectiveIsBelow(key: nat -> string, n: nat)
    requires Injective(key)
    ensures InjectiveBelow(key, n)
  {
    forall a: nat, b: nat | a < n && b < n && SameKey(key, a, b) ensures a == b {
    }
  }

  /** The key of the next index is not among the keys of the earlier ones. */
  lemma FreshKey(key: nat -> string, keys: seq<string>)
    requires InjectiveBelow(key, |keys| + 1)
    requires forall k :: 0 <= k < |keys| ==> keys[k] == key(k)
    ensures key(|keys|) !in keys
  {
    forall k | 0 <= k < |keys| ensures keys[k] != key(|keys|) {
      assert SameKey(key, k, |keys|) ==> k == |keys|;
    }
  }

  /** The dictionary a loop builds by inserting `vals[k]` under `key(k)` for
      `k = 0, 1, ...`. */
  function Indexed<V>(key: nat -> string, vals: seq<V>): (m: OrderedMap<V>)
    requires InjectiveBelow(key, |vals|)
    ensures m.Valid() && |m.keys| == |vals|
    ensures forall k :: 0 <= k < |vals| ==> m.keys[k] == key(k)
    ensures forall k :: 0 <= k < |vals| ==> m.keys[k] in m.values && m.values[m.keys[k]] == vals[k]
    decreases |vals|
  {
    if vals == [] then Empty()
    else
      var n := |vals| - 1;
      var prev := Indexed(key, vals[..n]);
      FreshKey(key, prev.keys);
      prev.Set(key(n), vals[n])
  }

  /** Inserting the next entry extends the dictionary by exactly that entry. */
  lemma IndexedStep<V>(key: nat -> string, vals: seq<V>, v: V)
    requires InjectiveBelow(key, |vals| + 1)
    ensures Indexed(key, vals).Set(key(|vals|), v) == Indexed(key, vals + [v])
  {
    assert (vals + [v])[..|vals|] == vals;
  }

  /** The dictionary of a prefix grows into the dictionary of the next
      prefix by inserting the next entry under its key. */
  lemma IndexedSnoc<V>(key: nat -> string, vals: seq<V>, i: nat)
    requires Injective(key) && i < |vals|
    ensures Indexed(key, vals[..i]).Set(key(i), vals[i]) == Indexed(key, vals[..i + 1])
  {
    InjectiveIsBelow(key, i + 1);
    assert vals[..i + 1] == vals[..i] + [vals[i]];
    IndexedStep(key, vals[..i], vals[i]);
  }

  /** Before the first insertion the dictionary is empty. */
  lemma IndexedFirst<V>(key: nat -> string, vals: seq<V>)
    ensures Indexed(key, vals[..0]) == Empty()
  {
    assert vals[..0] == [];
  }

  /** The dictionary of the whole of `vals`, reached through its last prefix. */
  lemma IndexedWhole<V>(key: nat -> string, vals: seq<V>, i: nat)
    requires InjectiveBelow(key, |vals|) && i == |vals|
    ensures Indexed(key, vals[..i]) == Indexed(key, vals)
  {
    assert vals[..i] == vals;
  }

  /** Distinct indices give distinct keys. */
  lemma IndexedDistinct<V>(key: nat -> string, vals: seq<V>)
    requires InjectiveBelow(key, |vals|)
    ensures Indexed(key, vals).Distinct()
  {
    var m := Indexed(key, vals);
    forall i, j | 0 <= i < j < |m.keys| ensures m.keys[i] != m.keys[j] {
      assert SameKey(key, i, j) ==> i == j;
    }
  }

  lemma IndexedEmpty<V>(key: nat -> string)
    ensures Indexed<V>(key, []) == Empty()
  {
  }
}
