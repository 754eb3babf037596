/** Dictionaries that remember insertion order, as Python's do. Which entry fills first, and what
    cash is left for the next one, depends on that order. */
module OrderedDict {
  import opened Common

  type Key = int

  datatype RawDict<V> = RawDict(order: seq<Key>, items: map<Key, V>) {
    ghost predicate Valid() {
      NoRepeats(order) && (forall k :: k in order <==> k in items)
    }
  }

  type Dict<V> = d: RawDict<V> | d.Valid() ghost witness RawDict([], map[])

  function Empty<V>(): Dict<V> {
    RawDict([], map[])
  }

  /** `d[k] = v`: a new key goes last, an old key keeps its place. */
  function Put<V>(d: Dict<V>, k: Key, v: V): Dict<V> {
    RawDict(if k in d.items then d.order else d.order + [k], d.items[k := v])
  }

  /** `d.setdefault(k, v)` */
  function SetDefault<V>(d: Dict<V>, k: Key, v: V): Dict<V> {
    if k in d.items then d else Put(d, k, v)
  }

  /** `d.pop(k, None)` */
  function Remove<V>(d: Dict<V>, k: Key): Dict<V> {
    WithoutMembers(d.order, k);
    WithoutNoRepeats(d.order, k);
    RawDict(Without(d.order, k), d.items - {k})
  }

  /** `list(d.items())` */
  function Entries<V>(d: Dict<V>): seq<(Key, V)> {
    OrderPresent(d);
    seq(|d.order|, i requires 0 <= i < |d.order| => (d.order[i], d.items[d.order[i]]))
  }

  lemma OrderPresent<V>(d: Dict<V>)
    ensures forall i :: 0 <= i < |d.order| ==> d.order[i] in d.items
  {
    forall i | 0 <= i < |d.order| ensures d.order[i] in d.items {
      var k := d.order[i];
      assert k in d.order;
    }
  }

  function Sum<V>(f: V -> real, d: Dict<V>): real {
    SumOver(f, d.order, d.items)
  }

  function Without(order: seq<Key>, k: Key): seq<Key> {
    if order == [] then []
    else if order[0] == k then Without(order[1..], k)
    else [order[0]] + Without(order[1..], k)
  }

  function SumOver<V>(f: V -> real, order: seq<Key>, items: map<Key, V>): real {
    if order == [] then 0.0
    else (if order[0] in items then f(items[order[0]]) else 0.0) + SumOver(f, order[1..], items)
  }

  lemma {:induction false} WithoutMembers(order: seq<Key>, k: Key)
    ensures forall j :: j in Without(order, k) <==> j in order && j != k
  {
    if order != [] {
      WithoutMembers(order[1..], k);
      assert order == [order[0]] + order[1..];
    }
  }

  lemma {:induction false} WithoutNoRepeats(order: seq<Key>, k: Key)
    requires NoRepeats(order)
    ensures NoRepeats(Without(order, k))
    ensures k !in order ==> Without(order, k) == order
    ensures k in order ==> |Without(order, k)| == |order| - 1
  {
    if order != [] {
      WithoutNoRepeats(order[1..], k);
      WithoutMembers(order[1..], k);
      assert order == [order[0]] + order[1..];
      assert order[0] !in order[1..];
    }
  }

  lemma RemoveSize<V>(d: Dict<V>, k: Key)
    ensures |Remove(d, k).order| == if k in d.items then |d.order| - 1 else |d.order|
    ensures k !in d.items ==> Remove(d, k) == d
  {
    WithoutNoRepeats(d.order, k);
  }

  lemma {:induction false} SumOverSame<V>(f: V -> real, order: seq<Key>, a: map<Key, V>, b: map<Key, V>)
    requires forall k :: k in order ==> (k in a <==> k in b) && (k in a ==> f(a[k]) == f(b[k]))
    ensures SumOver(f, order, a) == SumOver(f, order, b)
  {
    if order != [] {
      var k := order[0];
      assert k in order;
      assert k in a ==> f(a[k]) == f(b[k]);
      SumOverSame(f, order[1..], a, b);
    }
  }

  lemma {:induction false} SumOverSnoc<V>(f: V -> real, order: seq<Key>, items: map<Key, V>, k: Key)
    requires k in items
    ensures SumOver(f, order + [k], items) == SumOver(f, order, items) + f(items[k])
  {
    if order == [] {
      assert order + [k] == [k];
    } else {
      assert (order + [k])[1..] == order[1..] + [k];
      SumOverSnoc(f, order[1..], items, k);
    }
  }

  lemma {:induction false} SumOverRemove<V>(f: V -> real, order: seq<Key>, items: map<Key, V>, k: Key)
    requires NoRepeats(order) && k in order && k in items
    ensures SumOver(f, order, items) == SumOver(f, Without(order, k), items - {k}) + f(items[k])
  {
    var rest := order[1..];
    if order[0] == k {
      WithoutNoRepeats(rest, k);
      SumOverSame(f, rest, items, items - {k});
    } else {
      assert order == [order[0]] + rest;
      SumOverRemove(f, rest, items, k);
      assert Without(order, k) == [order[0]] + Without(rest, k);
    }
  }

  lemma {:induction false} SumOverNothing<V>(f: V -> real, order: seq<Key>, items: map<Key, V>)
    requires forall k :: k !in items
    ensures SumOver(f, order, items) == 0.0
  {
    if order != [] {
      SumOverNothing(f, order[1..], items);
    }
  }

  /** Adding or replacing an entry changes the sum by exactly that entry. */
  lemma SumPut<V>(f: V -> real, d: Dict<V>, k: Key, v: V)
    ensures Sum(f, Put(d, k, v)) == Sum(f, d) - (if k in d.items then f(d.items[k]) else 0.0) + f(v)
  {
    var items' := d.items[k := v];
    if k in d.items {
      SumOverRemove(f, d.order, d.items, k);
      SumOverRemove(f, d.order, items', k);
      assert items' - {k} == d.items - {k};
    } else {
      SumOverSnoc(f, d.order, items', k);
      SumOverSame(f, d.order, d.items, items');
    }
  }

  lemma SumRemove<V>(f: V -> real, d: Dict<V>, k: Key)
    requires k in d.items
    ensures Sum(f, Remove(d, k)) == Sum(f, d) - f(d.items[k])
  {
    SumOverRemove(f, d.order, d.items, k);
  }

  // ---------------------------------------------------------------- insertion order

  /** Key a stands before key b. */
  ghost predicate Precedes(order: seq<Key>, a: Key, b: Key) {
    exists i, j :: 0 <= i < j < |order| && order[i] == a && order[j] == b
  }

  lemma PrecedesCons(k: Key, rest: seq<Key>, a: Key, b: Key)
    ensures Precedes([k] + rest, a, b) <==> (k == a && b in rest) || Precedes(rest, a, b)
  {
    var order := [k] + rest;
    if k == a && b in rest {
      var j :| 0 <= j < |rest| && rest[j] == b;
      assert order[0] == a && order[j + 1] == b;
    }
    if Precedes(rest, a, b) {
      var i, j :| 0 <= i < j < |rest| && rest[i] == a && rest[j] == b;
      assert order[i + 1] == a && order[j + 1] == b;
    }
    if Precedes(order, a, b) {
      var i, j :| 0 <= i < j < |order| && order[i] == a && order[j] == b;
      assert rest[j - 1] == b;
      if i > 0 {
        assert rest[i - 1] == a;
      }
    }
  }

  lemma PrecedesSnoc(order: seq<Key>, k: Key, a: Key, b: Key)
    ensures Precedes(order + [k], a, b) <==> (b == k && a in order) || Precedes(order, a, b)
  {
    var more := order + [k];
    if b == k && a in order {
      var i :| 0 <= i < |order| && order[i] == a;
      assert more[i] == a && more[|order|] == b;
    }
    if Precedes(order, a, b) {
      var i, j :| 0 <= i < j < |order| && order[i] == a && order[j] == b;
      assert more[i] == a && more[j] == b;
    }
    if Precedes(more, a, b) {
      var i, j :| 0 <= i < j < |more| && more[i] == a && more[j] == b;
      assert order[i] == a;
      if j < |order| {
        assert order[j] == b;
      }
    }
  }

  lemma {:induction false} WithoutKeepsOrder(order: seq<Key>, k: Key, a: Key, b: Key)
    ensures Precedes(Without(order, k), a, b) <==> a != k && b != k && Precedes(order, a, b)
  {
    if order != [] {
      var rest := order[1..];
      assert order == [order[0]] + rest;
      WithoutKeepsOrder(rest, k, a, b);
      WithoutMembers(rest, k);
      PrecedesCons(order[0], rest, a, b);
      PrecedesCons(order[0], Without(rest, k), a, b);
    }
  }

  /** A new key comes after all others, a key that is overwritten keeps its place. */
  lemma PutKeepsOrder<V>(d: Dict<V>, k: Key, v: V, a: Key, b: Key)
    ensures Precedes(Put(d, k, v).order, a, b)
            <==> Precedes(d.order, a, b) || (k !in d.items && b == k && a in d.items)
  {
    if k !in d.items {
      PrecedesSnoc(d.order, k, a, b);
    }
  }

  /** Removal keeps the order of the other keys. */
  lemma RemoveKeepsOrder<V>(d: Dict<V>, k: Key, a: Key, b: Key)
    ensures Precedes(Remove(d, k).order, a, b) <==> a != k && b != k && Precedes(d.order, a, b)
  {
    WithoutKeepsOrder(d.order, k, a, b);
  }
}
