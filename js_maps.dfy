/**
 * Insertion-ordered maps, the semantics of the JavaScript `Map` (and of a plain object with
 * non-numeric keys) that the coordinator keeps its sessions and round submissions in:
 * `set` on a new key appends it, `set` on a present key replaces the value in place, and
 * `forEach` / `values()` / `keys()` walk the keys in insertion order.
 */
module JsMaps {
  import opened Wrappers

  datatype RawMap<K, V> = RawMap(order: seq<K>, items: map<K, V>)

  /** The keys are listed once each, in insertion order, and are exactly the keys with a value. */
  ghost predicate WellFormed<K, V>(m: RawMap<K, V>) {
    && (forall i, j :: 0 <= i < j < |m.order| ==> m.order[i] != m.order[j])
    && m.items.Keys == (set i | 0 <= i < |m.order| :: m.order[i])
  }

  type JsMap<K, V> = m: RawMap<K, V> | WellFormed(m) witness RawMap([], map[])

  function Empty<K, V>(): (r: JsMap<K, V>)
    ensures r.order == [] && r.items == map[]
  {
    RawMap([], map[])
  }

  /** `Map.prototype.size`. */
  function Size<K, V>(m: JsMap<K, V>): nat {
    |m.order|
  }

  /** `Map.prototype.get`, with `undefined` as `None`. */
  function Get<K, V>(m: JsMap<K, V>, k: K): (r: Option<V>)
    ensures r.Some? <==> k in m.items
    ensures r.Some? ==> r.value == m.items[k]
  {
    if k in m.items then Some(m.items[k]) else None
  }

  /** `Map.prototype.set`: a new key goes to the end, a present key keeps its place. */
  function Set<K, V>(m: JsMap<K, V>, k: K, v: V): (r: JsMap<K, V>)
    ensures r.items == m.items[k := v]
    ensures k in m.items ==> r.order == m.order
    ensures k !in m.items ==> r.order == m.order + [k]
  {
    if k in m.items then RawMap(m.order, m.items[k := v])
    else
      var o := m.order + [k];
      assert (set i | 0 <= i < |o| :: o[i]) == (set i | 0 <= i < |m.order| :: m.order[i]) + {k} by {
        var before := set i | 0 <= i < |m.order| :: m.order[i];
        forall x | x in before ensures x in (set i | 0 <= i < |o| :: o[i]) {
          var i :| 0 <= i < |m.order| && m.order[i] == x;
          assert o[i] == x;
        }
        assert o[|m.order|] == k;
      }
      RawMap(o, m.items[k := v])
  }

  /** `Array.from(m.values())`: the values in insertion order. */
  function Values<K, V>(m: JsMap<K, V>): (r: seq<V>)
    ensures |r| == Size(m)
    ensures forall i :: 0 <= i < |r| ==> r[i] == m.items[m.order[i]]
  {
    seq(|m.order|, i requires 0 <= i < |m.order| => m.items[m.order[i]])
  }

  /**
   * `mapToObj(map, f)` (ts-fserver/dist/server.js:41-47): an object with the same keys, in
   * the same order, each holding the extractor applied to the original value.
   */
  function MapToObj<K, V, W>(m: JsMap<K, V>, f: V -> W): (r: JsMap<K, W>)
    ensures r.order == m.order
    ensures r.items.Keys == m.items.Keys
    ensures forall k :: k in m.items ==> r.items[k] == f(m.items[k])
  {
    RawMap(m.order, map k | k in m.items :: f(m.items[k]))
  }

  /** Every listed key has a value, and every key with a value is listed. */
  lemma KeysListed<K, V>(m: JsMap<K, V>)
    ensures forall j :: 0 <= j < |m.order| ==> m.order[j] in m.items
    ensures forall k :: k in m.items ==> k in m.order
  {
    forall k | k in m.items ensures k in m.order {
      assert k in (set j | 0 <= j < |m.order| :: m.order[j]);
    }
  }

  /** `mapToObj` as it runs: walk the map in insertion order, assigning each extracted value to a fresh object. */
  method MapToObjLoop<K, V, W>(m: JsMap<K, V>, f: V -> W) returns (r: JsMap<K, W>)
    ensures r == MapToObj(m, f)
  {
    r := Empty();
    var i := 0;
    while i < |m.order|
      invariant 0 <= i <= |m.order|
      invariant r.order == m.order[..i]
      invariant forall k :: k in r.items <==> k in m.order[..i]
      invariant forall k :: k in r.items ==> k in m.items && r.items[k] == f(m.items[k])
    {
      var k := m.order[i];
      assert k in m.items by { assert k in (set j | 0 <= j < |m.order| :: m.order[j]); }
      assert k !in m.order[..i];
      r := Set(r, k, f(m.items[k]));
      assert m.order[..i + 1] == m.order[..i] + [k];
      i := i + 1;
    }
    assert m.order[..i] == m.order;
    assert forall k :: k in m.items <==> k in m.order by {
      forall k | k in m.items ensures k in m.order {
        assert k in (set j | 0 <= j < |m.order| :: m.order[j]);
      }
    }
    assert r.items == MapToObj(m, f).items;
  }

  /** The size of a map is the number of distinct keys it holds. */
  lemma {:induction false} SizeIsKeyCount<K, V>(m: JsMap<K, V>)
    ensures Size(m) == |m.items.Keys|
  {
    DistinctSeqCard(m.order);
    assert (set k | k in m.order) == m.items.Keys by {
      forall k | k in m.order ensures k in m.items.Keys {
        var i :| 0 <= i < |m.order| && m.order[i] == k;
      }
    }
  }

  lemma {:induction false} DistinctSeqCard<K>(s: seq<K>)
    requires forall i, j :: 0 <= i < j < |s| ==> s[i] != s[j]
    ensures |set k | k in s| == |s|
  {
    if s != [] {
      var t := s[..|s| - 1];
      DistinctSeqCard(t);
      assert (set k | k in s) == (set k | k in t) + {s[|s| - 1]};
    }
  }

  /** Setting a key that is already present does not change the size. */
  lemma SetPresentKeepsSize<K, V>(m: JsMap<K, V>, k: K, v: V)
    requires k in m.items
    ensures Size(Set(m, k, v)) == Size(m)
  {
  }

  /** Setting a new key adds exactly one. */
  lemma SetNewGrowsByOne<K, V>(m: JsMap<K, V>, k: K, v: V)
    requires k !in m.items
    ensures Size(Set(m, k, v)) == Size(m) + 1
  {
  }
}
