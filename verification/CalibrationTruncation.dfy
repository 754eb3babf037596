/** Rows that come later do not change what the calibration run has emitted. */
module CalibrationTruncation {
  import opened Sorting
  import opened CalibrationRun

  // ---------------------------------------------------------------- sorting and filtering

  function Filter<T>(keep: T -> bool, s: seq<T>): seq<T> {
    if s == [] then [] else (if keep(s[0]) then [s[0]] else []) + Filter(keep, s[1..])
  }

  lemma {:induction false} FilterMembers<T>(keep: T -> bool, s: seq<T>)
    ensures forall k :: 0 <= k < |Filter(keep, s)| ==> Filter(keep, s)[k] in s && keep(Filter(keep, s)[k])
  {
    if s != [] {
      FilterMembers(keep, s[1..]);
    }
  }

  lemma {:induction false} InsertFilter<T(!new)>(leq: (T, T) -> bool, keep: T -> bool, x: T, s: seq<T>)
    requires TotalPreorder(leq) && SortedBy(leq, s)
    ensures Filter(keep, Insert(leq, x, s)) == if keep(x) then Insert(leq, x, Filter(keep, s)) else Filter(keep, s)
  {
    var f := Filter(keep, s);
    if s == [] {
      assert [x][1..] == [];
    } else if leq(x, s[0]) {
      assert ([x] + s)[1..] == s;
      if f != [] {
        FilterMembers(keep, s);
        var k :| 0 <= k < |s| && s[k] == f[0];
        assert leq(s[0], s[k]) by { assert leq(s[0], s[0]); }
        assert leq(x, f[0]);
      }
    } else {
      InsertFilter(leq, keep, x, s[1..]);
      var r := Insert(leq, x, s);
      assert r[0] == s[0] && r[1..] == Insert(leq, x, s[1..]);
      if keep(s[0]) {
        assert f[0] == s[0] && f[1..] == Filter(keep, s[1..]);
      } else {
        assert f == Filter(keep, s[1..]);
      }
    }
  }

  /** Sorting what is kept is keeping from what is sorted. */
  lemma {:induction false} SortFilter<T(!new)>(leq: (T, T) -> bool, keep: T -> bool, s: seq<T>)
    requires TotalPreorder(leq)
    ensures Sort(leq, Filter(keep, s)) == Filter(keep, Sort(leq, s))
  {
    if s != [] {
      SortFilter(leq, keep, s[1..]);
      SortSorts(leq, s[1..]);
      InsertFilter(leq, keep, s[0], Sort(leq, s[1..]));
      var f := Filter(keep, s);
      if keep(s[0]) {
        assert f[0] == s[0] && f[1..] == Filter(keep, s[1..]);
      } else {
        assert f == Filter(keep, s[1..]);
      }
    }
  }

  // ---------------------------------------------------------------- rows known by a time

  /** Rows stamped no later than t. */
  function KnownBy(t: int): Row -> bool {
    (r: Row) => r.timestamp <= t
  }

  /** Every outcome is realised after its row. */
  ghost predicate EndsLater(rows: seq<Row>) {
    forall r :: r in rows ==> r.timestamp < r.realizedEnd
  }

  lemma {:induction false} FilterSnoc(t: int, s: seq<Row>, x: Row)
    ensures Filter(KnownBy(t), s + [x]) == Filter(KnownBy(t), s) + if x.timestamp <= t then [x] else []
  {
    if s == [] {
      assert s + [x] == [x] && [x][1..] == [];
    } else {
      FilterSnoc(t, s[1..], x);
      assert (s + [x])[1..] == s[1..] + [x];
    }
  }

  /** What was realised before u, with u no later than t, is all known by t. */
  lemma {:induction false} PriorKnown(order: seq<Row>, t: int, u: int)
    requires EndsLater(order) && u <= t
    ensures PriorTo(Filter(KnownBy(t), order), u) == PriorTo(order, u)
  {
    if order != [] {
      var n := |order| - 1;
      var init, x := order[..n], order[n];
      assert order == init + [x] && x in order;
      FilterSnoc(t, init, x);
      PriorKnown(init, t, u);
      if x.timestamp <= t {
        var f := Filter(KnownBy(t), init);
        assert (f + [x])[..|f|] == f;
      } else {
        assert Filter(KnownBy(t), order) == Filter(KnownBy(t), init);
      }
    }
  }

  lemma FilterNothing(t: int)
    ensures Filter(KnownBy(t), []) == []
  {
  }

  lemma OrderInit(preds: seq<Row>)
    requires InTimeOrder(preds) && preds != []
    ensures InTimeOrder(preds[..|preds| - 1])
    ensures |preds| > 1 ==> preds[|preds| - 2].timestamp <= preds[|preds| - 1].timestamp
  {
  }

  /** In time order the known rows are the first ones. */
  lemma {:induction false} KnownIsPrefix(preds: seq<Row>, t: int)
    requires InTimeOrder(preds)
    ensures Filter(KnownBy(t), preds) <= preds
    ensures forall k :: 0 <= k < |preds| ==> (k < |Filter(KnownBy(t), preds)| <==> preds[k].timestamp <= t)
  {
    hide Filter;
    hide InTimeOrder;
    if preds == [] {
      FilterNothing(t);
    } else {
      var n := |preds| - 1;
      var init, x := preds[..n], preds[n];
      assert preds == init + [x];
      OrderInit(preds);
      KnownIsPrefix(init, t);
      FilterSnoc(t, init, x);
      var f := Filter(KnownBy(t), init);
      if x.timestamp <= t {
        if n > 0 {
          assert init[n - 1].timestamp <= t;
        }
        assert f == init;
      } else {
        assert Filter(KnownBy(t), preds) == f;
      }
    }
  }

  lemma {:induction false} SameRun(tools: Tools,
      preds: seq<Row>, order: seq<Row>, preds': seq<Row>, order': seq<Row>, k: nat, interval: int)
    requires k <= |preds| && k <= |preds'|
    requires forall i :: 0 <= i < k ==>
               preds[i] == preds'[i] && PriorTo(order, preds[i].timestamp) == PriorTo(order', preds[i].timestamp)
    ensures RunUpTo(tools, preds, order, k, interval) == RunUpTo(tools, preds', order', k, interval)
  {
    hide Step;
    if k > 0 {
      SameRun(tools, preds, order, preds', order', k - 1, interval);
    }
  }

  lemma MembersEndLater(rows: seq<Row>, sorted: seq<Row>)
    requires EndsLater(rows) && multiset(sorted) == multiset(rows)
    ensures EndsLater(sorted)
  {
    SameMembers(rows, sorted);
  }

  lemma {:induction false} ScoredTimes(tools: Tools,
                                       preds: seq<Row>, order: seq<Row>, k: nat, n: nat, interval: int, i: nat)
    requires k <= n <= |preds|
    requires |RunUpTo(tools, preds, order, k, interval).scored| <= i
    requires i < |RunUpTo(tools, preds, order, n, interval).scored|
    ensures exists j :: k <= j < n
              && RunUpTo(tools, preds, order, n, interval).scored[i].timestamp == preds[j].timestamp
    decreases n
  {
    var before := RunUpTo(tools, preds, order, n - 1, interval);
    if i < |before.scored| {
      RunExtends(tools, preds, order, n - 1, n, interval);
      ScoredTimes(tools, preds, order, k, n - 1, interval, i);
    } else {
      var j := n - 1;
      assert RunUpTo(tools, preds, order, n, interval).scored[i].timestamp == preds[j].timestamp;
    }
  }

  /** The run on the rows known by t is the beginning of the run on all rows. */
  lemma TruncatedRun(tools: Tools, rows: seq<Row>, declared: int, t: int) returns (k: nat)
    requires EndsLater(rows)
    ensures k <= |Sort(RowLeq, rows)|
    ensures CalibrateWith(tools, Filter(KnownBy(t), rows), declared)
         == RunUpTo(tools, Sort(RowLeq, rows), Sort(CompletionLeq, rows), k, EffectiveInterval(declared))
    ensures forall i :: 0 <= i < |Sort(RowLeq, rows)| ==> (i < k <==> Sort(RowLeq, rows)[i].timestamp <= t)
  {
    var part := Filter(KnownBy(t), rows);
    var preds, order := Sort(RowLeq, rows), Sort(CompletionLeq, rows);
    assert TotalPreorder(RowLeq) && TotalPreorder(CompletionLeq);
    Ordered(rows);
    SortFilter(RowLeq, KnownBy(t), rows);
    SortFilter(CompletionLeq, KnownBy(t), rows);
    SortPermutes(RowLeq, part);
    SortPermutes(CompletionLeq, rows);
    MembersEndLater(rows, order);
    hide Sort;
    hide RunUpTo;
    hide EndsLater;
    hide InCompletionOrder;
    KnownIsPrefix(preds, t);
    k := |part|;
    assert |Sort(RowLeq, part)| == k;
    forall i | 0 <= i < k ensures preds[i] == Sort(RowLeq, part)[i]
      && PriorTo(order, preds[i].timestamp) == PriorTo(Sort(CompletionLeq, part), preds[i].timestamp)
    {
      PriorKnown(order, t, preds[i].timestamp);
    }
    SameRun(tools, preds, order, Sort(RowLeq, part), Sort(CompletionLeq, part), k, EffectiveInterval(declared));
  }

  /** Dropping every row stamped after t leaves exactly what the full run emits up to t, row by row, and the rows
      it skips for warm-up up to then. */
  lemma CalibrationIgnoresLaterRows(tools: Tools, rows: seq<Row>, declared: int, t: int)
    requires EndsLater(rows)
    ensures var full := CalibrateWith(tools, rows, declared);
            var part := CalibrateWith(tools, Filter(KnownBy(t), rows), declared);
            && part.scored <= full.scored && part.warmup <= full.warmup
            && forall i :: 0 <= i < |full.scored| ==> (i < |part.scored| <==> full.scored[i].timestamp <= t)
  {
    var preds, order, interval := Sort(RowLeq, rows), Sort(CompletionLeq, rows), EffectiveInterval(declared);
    var k := TruncatedRun(tools, rows, declared, t);
    SortPermutes(RowLeq, rows);
    hide Sort;
    hide RunUpTo;
    hide Filter;
    RunExtends(tools, preds, order, k, |preds|, interval);
    var full, part := RunUpTo(tools, preds, order, |preds|, interval), RunUpTo(tools, preds, order, k, interval);
    assert full == CalibrateWith(tools, rows, declared);
    forall i | 0 <= i < |full.scored| ensures i < |part.scored| <==> full.scored[i].timestamp <= t {
      if i < |part.scored| {
        NothingScored(tools, preds, order, interval);
        ScoredTimes(tools, preds, order, 0, k, interval, i);
      } else {
        ScoredTimes(tools, preds, order, k, |preds|, interval, i);
      }
    }
  }

  lemma NothingScored(tools: Tools, preds: seq<Row>, order: seq<Row>, interval: int)
    ensures RunUpTo(tools, preds, order, 0, interval).scored == []
  {
  }
}
