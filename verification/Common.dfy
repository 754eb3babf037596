/** Values that may be absent, results that may be errors, and sequences without repeats. */
module Common {

  datatype Option<+T> = None | Some(value: T)

  datatype Result<+T, +E> = Ok(value: T) | Err(error: E)

  ghost predicate NoRepeats<T>(s: seq<T>) {
    forall i, j :: 0 <= i < j < |s| ==> s[i] != s[j]
  }

  /** A set of indices that n may have joined. */
  lemma SizeGrows(a: set<nat>, b: set<nat>, n: nat, joined: bool)
    requires forall i :: i in a ==> i < n
    requires forall i :: i in b <==> i in a || (joined && i == n)
    ensures |b| == |a| + if joined then 1 else 0
  {
    assert b == if joined then a + {n} else a;
  }
}
