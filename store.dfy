/**
 * The key-value table each service reads and writes. A table is a map from
 * an item's key to the item; `get_item`, `put_item`, `delete_item` and
 * `scan` are the operations the handlers call on it.
 */
module Store {
  import opened Wrappers
  import opened Json

  class Table<K(==, !new), V> {
    var items: map<K, V>

    constructor (initial: map<K, V>)
      ensures items == initial
    {
      items := initial;
    }

    /** `get_item`: the item stored under `k`, if any. */
    method Get(k: K) returns (r: Option<V>)
      ensures r.Some? <==> k in items
      ensures r.Some? ==> r.value == items[k]
    {
      r := if k in items then Some(items[k]) else None;
    }

    /** `put_item`: store `v` under `k`, replacing any item that was there. */
    method Put(k: K, v: V)
      modifies this
      ensures items == old(items)[k := v]
    {
      items := items[k := v];
    }

    /** `delete_item`: remove the item under `k`; deleting an absent key changes nothing. */
    method Delete(k: K)
      modifies this
      ensures items == old(items) - {k}
    {
      items := items - {k};
    }

    /**
     * `scan`, with DynamoDB's server-side filter `keep`: every item the filter
     * accepts exactly once, in an order the table chooses; `order` gives the
     * key of each listed item.
     */
    method Scan(keep: V -> bool) returns (r: seq<V>, ghost order: seq<K>)
      ensures ListedBy(order, r, items, keep)
      ensures Listing(r, items, keep)
      ensures forall i | 0 <= i < |r| :: keep(r[i]) && exists k | k in items :: items[k] == r[i]
    {
      var rest := items.Keys;
      r, order := [], [];
      while rest != {}
        invariant rest <= items.Keys
        invariant |r| == |order|
        invariant forall k :: k in order ==> k in items && k !in rest && keep(items[k])
        invariant forall k :: k in items && k !in rest && keep(items[k]) ==> k in order
        invariant forall i, j | 0 <= i < j < |order| :: order[i] != order[j]
        invariant forall i | 0 <= i < |r| :: order[i] in items && r[i] == items[order[i]]
        decreases rest
      {
        var k :| k in rest;
        if keep(items[k]) {
          r, order := r + [items[k]], order + [k];
        }
        rest := rest - {k};
      }
      assert ListedBy(order, r, items, keep);
    }
  }

  /**
   * `order` lists, once each, the keys of the items of `m` that `keep`
   * accepts, and `r` holds those items in that order.
   */
  ghost predicate ListedBy<K(!new), V>(order: seq<K>, r: seq<V>, m: map<K, V>, keep: V -> bool) {
    && |r| == |order|
    && (forall i, j | 0 <= i < j < |order| :: order[i] != order[j])
    && (forall k :: k in order <==> k in m && keep(m[k]))
    && (forall i | 0 <= i < |r| :: order[i] in m && r[i] == m[order[i]])
  }

  /** `r` is what a scan of `m` with filter `keep` may return. */
  ghost predicate Listing<K(!new), V>(r: seq<V>, m: map<K, V>, keep: V -> bool) {
    exists order :: ListedBy(order, r, m, keep)
  }

  /** The filter that keeps every item: a scan without a `FilterExpression`. */
  function All<V>(): V -> bool {
    _ => true
  }

  /** A scan comes back empty exactly when the filter accepts no item of the table. */
  lemma ListingEmpty<K(!new), V>(r: seq<V>, m: map<K, V>, keep: V -> bool)
    requires Listing(r, m, keep)
    ensures r == [] <==> forall k | k in m :: !keep(m[k])
  {
    var order :| ListedBy(order, r, m, keep);
    if r != [] {
      assert order[0] in m && keep(m[order[0]]);
    }
    if exists k :: k in m && keep(m[k]) {
      var k :| k in m && keep(m[k]);
      assert k in order;
    }
  }

  /** A full scan lists exactly as many items as the table holds. */
  lemma ListingSize<K(!new), V>(r: seq<V>, m: map<K, V>)
    requires Listing(r, m, All())
    ensures |r| == |m|
  {
    var order :| ListedBy(order, r, m, All());
    assert m.Keys <= set k | k in order;
    CardinalityOfListing(order, m.Keys);
  }

  /** A duplicate-free listing of a set has the set's size. */
  lemma {:induction false} CardinalityOfListing<K>(order: seq<K>, keys: set<K>)
    requires forall i, j | 0 <= i < j < |order| :: order[i] != order[j]
    requires forall k :: k in keys <==> k in order
    ensures |order| == |keys|
  {
    if order != [] {
      var last := order[|order| - 1];
      var front := order[..|order| - 1];
      assert forall k :: k in front ==> k != last;
      CardinalityOfListing(front, keys - {last});
    }
  }

  /** Every item of the table carries, under the key attribute, the key it is stored under. */
  predicate KeyedBy(items: map<string, Dict>, keyName: string) {
    forall k | k in items :: Get(items[k], keyName) == Some(Str(k))
  }

  /** A key value DynamoDB accepts for a string key attribute: a non-empty string. */
  predicate ValidKey(v: Value) {
    v.Str? && v.s != ""
  }
}
