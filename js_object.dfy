/**
 * A plain JavaScript object used as a dictionary from string keys to values,
 * as the state layer uses it for `entities` (coin id to coin record) and
 * `holdings` (coin id to amount). Such an object remembers the order in which
 * its keys were first inserted: `Object.values` and `Object.entries` list them
 * in that order, assigning to a key that is already present keeps its place,
 * and `delete` takes the key out of the order.
 */
module JsObject {
  import opened Wrappers

  /** The property names in insertion order, and the value stored under each. */
  datatype Table<V> = Table(keys: seq<string>, entries: map<string, V>)

  predicate Distinct(s: seq<string>) {
    forall i, j :: 0 <= i < j < |s| ==> s[i] != s[j]
  }

  /** Every key occurs once in the order, and the order lists exactly the stored keys. */
  predicate WellFormed<V>(t: Table<V>) {
    && Distinct(t.keys)
    && (forall k :: k in t.keys ==> k in t.entries)
    && (forall k :: k in t.entries ==> k in t.keys)
  }

  type Dict<V> = t: Table<V> | WellFormed(t) witness Table([], map[])

  /** The object literal `{}`. */
  function Empty<V>(): Dict<V> {
    Table([], map[])
  }

  /** Property lookup `d[k]`: `None` stands for `undefined`. */
  function Get<V>(d: Dict<V>, k: string): Option<V> {
    if k in d.entries then Some(d.entries[k]) else None
  }

  /** The key order with `k` taken out, the rest in their old order. */
  function Without(s: seq<string>, k: string): (r: seq<string>)
    ensures forall x :: x in r <==> x in s && x != k
    ensures Distinct(s) ==> Distinct(r)
    ensures k !in s ==> r == s
    ensures |r| <= |s|
  {
    if s == [] then []
    else
      var init, last := s[..|s| - 1], s[|s| - 1];
      assert s == init + [last];
      assert Distinct(s) ==> Distinct(init) && last !in init by {
        if Distinct(s) {
          forall i | 0 <= i < |init| ensures init[i] != last {
            assert init[i] == s[i] && last == s[|s| - 1];
          }
        }
      }
      var r' := Without(init, k);
      if last == k then r' else r' + [last]
  }

  /** Assignment `d[k] = v`. */
  function Set<V>(d: Dict<V>, k: string, v: V): (r: Dict<V>)
    ensures Get(r, k) == Some(v)
    ensures forall j :: j != k ==> Get(r, j) == Get(d, j)
    ensures k in d.entries ==> r.keys == d.keys
    ensures k !in d.entries ==> r.keys == d.keys + [k]
  {
    if k in d.entries then Table(d.keys, d.entries[k := v])
    else Table(d.keys + [k], d.entries[k := v])
  }

  /** The statement `delete d[k]`, which is a no-op on an absent key. */
  function Delete<V>(d: Dict<V>, k: string): (r: Dict<V>)
    ensures Get(r, k) == None
    ensures forall j :: j != k ==> Get(r, j) == Get(d, j)
    ensures r.keys == Without(d.keys, k)
    ensures k !in d.entries ==> r == d
  {
    Table(Without(d.keys, k), d.entries - {k})
  }

  /** `Object.values(d)`: the stored values in key order. */
  function Values<V>(d: Dict<V>): (r: seq<V>)
    ensures |r| == |d.keys|
    ensures forall i :: 0 <= i < |r| ==> r[i] == d.entries[d.keys[i]]
    ensures forall k :: k in d.entries ==> exists i :: 0 <= i < |r| && r[i] == d.entries[k]
  {
    var r := seq(|d.keys|, i requires 0 <= i < |d.keys| => d.entries[d.keys[i]]);
    assert forall k :: k in d.entries ==> exists i :: 0 <= i < |d.keys| && d.keys[i] == k && r[i] == d.entries[k];
    r
  }

  /** Every value `Object.values` lists is stored under some key. */
  lemma StoredValue<V>(d: Dict<V>, v: V)
    requires v in Values(d)
    ensures exists k :: k in d.entries && d.entries[k] == v
  {
    var i :| 0 <= i < |Values(d)| && Values(d)[i] == v;
    assert d.keys[i] in d.entries;
  }

  /** Adding a new key appends its value at the end of `Object.values`. */
  lemma ValuesOfNewKey<V>(d: Dict<V>, k: string, v: V)
    requires k !in d.entries
    ensures Values(Set(d, k, v)) == Values(d) + [v]
  {
    var r := Set(d, k, v);
    assert forall i :: 0 <= i < |d.keys| ==> r.keys[i] == d.keys[i] && d.keys[i] != k;
  }

  /** Writing a key twice keeps only the second value, in the key's first position. */
  lemma SetTwice<V>(d: Dict<V>, k: string, a: V, b: V)
    ensures Set(Set(d, k, a), k, b) == Set(d, k, b)
  {
  }

  /** Deleting a key that the previous assignment added gives back the object before it. */
  lemma {:induction false} SetThenDelete<V>(d: Dict<V>, k: string, v: V)
    requires k !in d.entries
    ensures Delete(Set(d, k, v), k) == d
  {
    var s := d.keys + [k];
    assert s[..|s| - 1] == d.keys;
    assert k !in d.keys;
    assert Without(s, k) == Without(d.keys, k) == d.keys;
    assert d.entries[k := v] - {k} == d.entries;
  }
}
