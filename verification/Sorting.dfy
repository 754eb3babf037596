/** Stable insertion sort, standing for Python's `sorted` with a key: the order is
    given as a comparison `leq`, which the callers show to be a total preorder. */
module Sorting {

  ghost predicate TotalPreorder<T(!new)>(leq: (T, T) -> bool) {
    && (forall a, b :: leq(a, b) || leq(b, a))
    && (forall a, b, c :: leq(a, b) && leq(b, c) ==> leq(a, c))
  }

  ghost predicate SortedBy<T>(leq: (T, T) -> bool, s: seq<T>) {
    forall i, j :: 0 <= i < j < |s| ==> leq(s[i], s[j])
  }

  function Insert<T>(leq: (T, T) -> bool, x: T, s: seq<T>): seq<T> {
    if s == [] then [x]
    else if leq(x, s[0]) then [x] + s
    else [s[0]] + Insert(leq, x, s[1..])
  }

  function Sort<T>(leq: (T, T) -> bool, s: seq<T>): seq<T> {
    if s == [] then [] else Insert(leq, s[0], Sort(leq, s[1..]))
  }

  lemma {:induction false} InsertPermutes<T>(leq: (T, T) -> bool, x: T, s: seq<T>)
    ensures multiset(Insert(leq, x, s)) == multiset([x] + s)
  {
    if s != [] && !leq(x, s[0]) {
      InsertPermutes(leq, x, s[1..]);
      assert s == [s[0]] + s[1..];
    }
  }

  lemma {:induction false} SortPermutes<T>(leq: (T, T) -> bool, s: seq<T>)
    ensures multiset(Sort(leq, s)) == multiset(s)
    ensures |Sort(leq, s)| == |s|
  {
    if s != [] {
      SortPermutes(leq, s[1..]);
      InsertPermutes(leq, s[0], Sort(leq, s[1..]));
      assert s == [s[0]] + s[1..];
    }
    assert |multiset(Sort(leq, s))| == |multiset(s)|;
  }

  lemma SameMembers<T>(s: seq<T>, t: seq<T>)
    requires multiset(s) == multiset(t)
    ensures forall x :: x in s <==> x in t
  {
    forall x ensures x in s <==> x in t {
      assert x in s <==> x in multiset(s);
      assert x in t <==> x in multiset(t);
    }
  }

  lemma Twice<T>(s: seq<T>, i: nat, j: nat)
    requires i < j < |s| && s[i] == s[j]
    ensures multiset(s)[s[i]] >= 2
  {
    assert s == s[..j] + [s[j]] + s[j + 1..];
    assert s[i] in s[..j];
    assert multiset(s) == multiset(s[..j]) + multiset{s[j]} + multiset(s[j + 1..]);
    assert multiset(s[..j])[s[i]] >= 1;
  }

  lemma Once<T>(s: seq<T>, x: nat)
    requires x < |s| && forall i, j :: 0 <= i < j < |s| ==> s[i] != s[j]
    ensures multiset(s)[s[x]] == 1
  {
    assert s == s[..x] + [s[x]] + s[x + 1..];
    assert multiset(s) == multiset(s[..x]) + multiset{s[x]} + multiset(s[x + 1..]);
    assert s[x] !in s[..x] && s[x] !in s[x + 1..];
    assert multiset(s[..x])[s[x]] == 0 && multiset(s[x + 1..])[s[x]] == 0;
  }

  lemma {:induction false} InsertSorted<T(!new)>(leq: (T, T) -> bool, x: T, s: seq<T>)
    requires TotalPreorder(leq) && SortedBy(leq, s)
    ensures SortedBy(leq, Insert(leq, x, s))
  {
    if s != [] && !leq(x, s[0]) {
      var r := Insert(leq, x, s[1..]);
      InsertSorted(leq, x, s[1..]);
      InsertPermutes(leq, x, s[1..]);
      SameMembers(r, [x] + s[1..]);
      forall k | 0 <= k < |r| ensures leq(s[0], r[k]) {
        assert r[k] in [x] + s[1..];
      }
    }
  }

  /** The result is in order and holds exactly the input's elements. */
  lemma {:induction false} SortSorts<T(!new)>(leq: (T, T) -> bool, s: seq<T>)
    requires TotalPreorder(leq)
    ensures SortedBy(leq, Sort(leq, s))
    ensures multiset(Sort(leq, s)) == multiset(s)
  {
    SortPermutes(leq, s);
    if s != [] {
      SortSorts(leq, s[1..]);
      InsertSorted(leq, s[0], Sort(leq, s[1..]));
    }
  }

  /** Two inputs that correspond item by item under `rel`, where `rel` respects the
      order, are sorted into outputs that correspond item by item. */
  ghost predicate Corresponds<T>(rel: (T, T) -> bool, s: seq<T>, t: seq<T>) {
    |s| == |t| && forall i :: 0 <= i < |s| ==> rel(s[i], t[i])
  }

  ghost predicate Respects<T(!new)>(rel: (T, T) -> bool, leq: (T, T) -> bool) {
    forall a, b, c, d :: rel(a, c) && rel(b, d) ==> leq(a, b) == leq(c, d)
  }

  lemma {:induction false} InsertCorresponds<T(!new)>(
    rel: (T, T) -> bool, leq: (T, T) -> bool, x: T, y: T, s: seq<T>, t: seq<T>)
    requires Respects(rel, leq) && rel(x, y) && Corresponds(rel, s, t)
    ensures Corresponds(rel, Insert(leq, x, s), Insert(leq, y, t))
  {
    if s != [] {
      assert rel(s[0], t[0]);
      InsertCorresponds(rel, leq, x, y, s[1..], t[1..]);
    }
  }

  lemma {:induction false} SortCorresponds<T(!new)>(
    rel: (T, T) -> bool, leq: (T, T) -> bool, s: seq<T>, t: seq<T>)
    requires Respects(rel, leq) && Corresponds(rel, s, t)
    ensures Corresponds(rel, Sort(leq, s), Sort(leq, t))
  {
    if s != [] {
      assert rel(s[0], t[0]);
      SortCorresponds(rel, leq, s[1..], t[1..]);
      InsertCorresponds(rel, leq, s[0], t[0], Sort(leq, s[1..]), Sort(leq, t[1..]));
    }
  }

  /** Sums do not depend on the order of the terms. */
  ghost function Sum<T>(f: T -> real, s: seq<T>): real {
    if s == [] then 0.0 else f(s[0]) + Sum(f, s[1..])
  }

  lemma {:induction false} InsertSum<T>(f: T -> real, leq: (T, T) -> bool, x: T, s: seq<T>)
    ensures Sum(f, Insert(leq, x, s)) == f(x) + Sum(f, s)
  {
    if s != [] && !leq(x, s[0]) {
      InsertSum(f, leq, x, s[1..]);
      assert Insert(leq, x, s)[1..] == Insert(leq, x, s[1..]);
    } else {
      assert ([x] + s)[1..] == s;
    }
  }

  lemma {:induction false} SortSum<T>(f: T -> real, leq: (T, T) -> bool, s: seq<T>)
    ensures Sum(f, Sort(leq, s)) == Sum(f, s)
  {
    if s != [] {
      SortSum(f, leq, s[1..]);
      InsertSum(f, leq, s[0], Sort(leq, s[1..]));
    }
  }

  lemma {:induction false} SumSnoc<T>(f: T -> real, s: seq<T>, x: T)
    ensures Sum(f, s + [x]) == Sum(f, s) + f(x)
  {
    if s == [] {
      assert s + [x] == [x];
    } else {
      assert (s + [x])[1..] == s[1..] + [x];
      SumSnoc(f, s[1..], x);
    }
  }

  lemma SliceSnoc<T>(s: seq<T>, a: nat, k: nat)
    requires a <= k < |s|
    ensures s[a..k + 1] == s[a..k] + [s[k]]
    ensures s[..k + 1] == s[..k] + [s[k]]
  {
  }
}
